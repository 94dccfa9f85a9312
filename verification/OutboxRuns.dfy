/** The outbox under any number of workers: they claim, publish and mark in any order, stop at any point, and come back
    with a mark long after their lease has ended. */
module OutboxRuns {
  import opened Ledgers
  import opened OutboxQueue

  /** How far the worker that holds a claim has come. A worker that crashes never moves on. */
  datatype Phase = Taken | Called(ok: bool) | Marked(ok: bool, at: Time)

  /** One claim of a row; its number, counted from 1, is the attempt number the worker was given. */
  datatype Claim = Claim(at: Time, lease: nat, phase: Phase)

  /** A row with all the claims ever made of it. */
  datatype Item = Item(row: Row, claims: seq<Claim>)

  datatype State = State(now: Time, items: seq<Item>)

  datatype Event =
    | Wait(seconds: nat)
    | Enqueue(maxAttempts: nat)
    | ClaimDue(limit: nat, lease: nat, locked: set<nat>, picked: seq<nat>)
    | Publish(item: nat, claim: nat, ok: bool)
    | Mark(item: nat, claim: nat)

  function Rows(s: State): (rows: seq<Row>)
    ensures |rows| == |s.items|
  {
    seq(|s.items|, i requires 0 <= i < |s.items| => s.items[i].row)
  }

  // ----- what an event does to one row

  function ClaimedItem(it: Item, now: Time, lease: nat): Item {
    Item(Claimed(it.row, now, lease), it.claims + [Claim(now, lease, Taken)])
  }

  function PublishedItem(it: Item, k: nat, ok: bool): Item
    requires k < |it.claims|
  {
    it.(claims := it.claims[k := it.claims[k].(phase := Called(ok))])
  }

  function MarkedItem(it: Item, k: nat, now: Time): Item
    requires k < |it.claims| && it.claims[k].phase.Called?
  {
    var ok := it.claims[k].phase.ok;
    Item(if ok then MarkedPublished(it.row, now) else MarkedFailed(it.row, now, Backoff(k + 1)),
         it.claims[k := it.claims[k].(phase := Marked(ok, now))])
  }

  // ----- events and runs

  ghost predicate Enabled(s: State, e: Event) {
    match e
    case Wait(_) => true
    case Enqueue(max) => max > 0
    case ClaimDue(limit, lease, locked, picked) => Selection(Rows(s), s.now, locked, limit, picked)
    case Publish(i, k, _) => i < |s.items| && k < |s.items[i].claims| && s.items[i].claims[k].phase.Taken?
    case Mark(i, k) => i < |s.items| && k < |s.items[i].claims| && s.items[i].claims[k].phase.Called?
  }

  ghost function Next(s: State, e: Event): State
    requires Enabled(s, e)
  {
    match e
    case Wait(seconds) => s.(now := s.now + seconds)
    case Enqueue(max) => s.(items := s.items + [Item(Row(s.now, max, Status.Pending, 0, s.now, None, false, s.now), [])])
    case ClaimDue(_, lease, _, picked) =>
      s.(items := seq(|s.items|, i requires 0 <= i < |s.items| => if i in picked then ClaimedItem(s.items[i], s.now, lease) else s.items[i]))
    case Publish(i, k, ok) => s.(items := s.items[i := PublishedItem(s.items[i], k, ok)])
    case Mark(i, k) => s.(items := s.items[i := MarkedItem(s.items[i], k, s.now)])
  }

  const Start: State := State(0, [])

  ghost predicate PossibleFrom(s: State, events: seq<Event>)
    decreases |events|, 0
  {
    |events| > 0 ==> PossibleFrom(s, events[..|events| - 1]) && Enabled(RunFrom(s, events[..|events| - 1]), events[|events| - 1])
  }

  ghost function RunFrom(s: State, events: seq<Event>): State
    requires PossibleFrom(s, events)
    decreases |events|, 1
  {
    if events == [] then s else Next(RunFrom(s, events[..|events| - 1]), events[|events| - 1])
  }

  /** No worker marks a row once the lease of its claim has ended. */
  ghost predicate InLease(s: State, e: Event)
    requires Enabled(s, e)
  {
    e.Mark? ==> var c := s.items[e.item].claims[e.claim]; s.now < c.at + c.lease
  }

  ghost predicate AlwaysInLease(s: State, events: seq<Event>)
    requires PossibleFrom(s, events)
    decreases |events|
  {
    |events| > 0 ==> AlwaysInLease(s, events[..|events| - 1]) && InLease(RunFrom(s, events[..|events| - 1]), events[|events| - 1])
  }

  // ----- a step changes each row in one of four ways

  ghost predicate Moved(a: Item, b: Item, now: Time, late: bool) {
    || a == b
    || (exists lease: nat :: Due(a.row, now) && b == ClaimedItem(a, now, lease))
    || (exists k: nat, ok :: k < |a.claims| && a.claims[k].phase.Taken? && b == PublishedItem(a, k, ok))
    || (exists k: nat :: MarkPossible(a, k, now, late) && b == MarkedItem(a, k, now))
  }

  predicate MarkPossible(a: Item, k: nat, now: Time, late: bool) {
    k < |a.claims| && a.claims[k].phase.Called? && (late || now < a.claims[k].at + a.claims[k].lease)
  }

  lemma EachRowMoves(s: State, e: Event, i: nat)
    requires Enabled(s, e) && i < |s.items|
    ensures |Next(s, e).items| >= |s.items| && s.now <= Next(s, e).now
    ensures Moved(s.items[i], Next(s, e).items[i], s.now, !InLease(s, e))
    ensures e.ClaimDue? && i in e.picked ==> Due(s.items[i].row, s.now) && Next(s, e).items[i] == ClaimedItem(s.items[i], s.now, e.lease)
  {
    var late := !InLease(s, e);
    match e
    case Wait(_) =>
    case Enqueue(_) =>
    case ClaimDue(_, _, _, picked) =>
      if i in picked {
        var k :| 0 <= k < |picked| && picked[k] == i;
        assert Due(Rows(s)[picked[k]], s.now);
      }
    case Publish(j, k, ok) =>
    case Mark(j, k) =>
      if i == j {
        assert MarkPossible(s.items[i], k, s.now, late);
      }
  }

  // ----- whatever the workers do

  function Min(a: int, b: int): int {
    if a <= b then a else b
  }

  /** How many times the publisher has been called for a row. */
  function Calls(claims: seq<Claim>): (n: nat)
    ensures n <= |claims|
  {
    if claims == [] then 0
    else Calls(claims[..|claims| - 1]) + if claims[|claims| - 1].phase.Taken? then 0 else 1
  }

  predicate Apart(claims: seq<Claim>, k: nat)
    requires 0 < k < |claims|
  {
    claims[k - 1].at + Min(claims[k - 1].lease, 5) <= claims[k].at
  }

  /** Each claim used up one attempt, and the next claim comes no sooner than its lease, or 5 seconds, later. */
  ghost predicate Bounded(it: Item, now: Time) {
    && |it.claims| == it.row.attempts <= it.row.maxAttempts
    && (it.row.status == Dead ==> it.row.attempts == it.row.maxAttempts)
    && (forall c | c in it.claims :: c.at <= now)
    && (forall k | 0 < k < |it.claims| :: Apart(it.claims, k))
    && (|it.claims| > 0 ==> var c := it.claims[|it.claims| - 1]; c.at + Min(c.lease, 5) <= it.row.nextAttemptAt)
  }

  lemma ClaimBounded(a: Item, now: Time, lease: nat)
    requires Bounded(a, now) && Due(a.row, now)
    ensures Bounded(ClaimedItem(a, now, lease), now)
  {
    var b := ClaimedItem(a, now, lease);
    forall k | 0 < k < |b.claims| ensures Apart(b.claims, k) {
      if k < |a.claims| {
        assert Apart(a.claims, k);
      }
    }
  }

  lemma PhaseBounded(a: Item, b: Item, now: Time, k: nat)
    requires Bounded(a, now) && k < |a.claims|
    requires exists phase :: b.claims == a.claims[k := a.claims[k].(phase := phase)]
    requires b.row.attempts == a.row.attempts && b.row.maxAttempts == a.row.maxAttempts
    requires b.row.status == Dead ==> a.row.status == Dead || a.row.attempts >= a.row.maxAttempts
    requires b.row.nextAttemptAt == a.row.nextAttemptAt || b.row.nextAttemptAt >= now + 5
    ensures Bounded(b, now)
  {
    var phase :| b.claims == a.claims[k := a.claims[k].(phase := phase)];
    assert a.claims[k] in a.claims && a.claims[|a.claims| - 1] in a.claims;
    forall j | 0 < j < |b.claims| ensures Apart(b.claims, j) {
      assert Apart(a.claims, j);
    }
  }

  lemma MoveBounded(a: Item, b: Item, now: Time, later: Time, late: bool)
    requires Bounded(a, now) && Moved(a, b, now, late) && now <= later
    ensures Bounded(b, later) && b.row.maxAttempts == a.row.maxAttempts
  {
    if lease: nat :| Due(a.row, now) && b == ClaimedItem(a, now, lease) {
      ClaimBounded(a, now, lease);
    } else if k: nat, ok :| k < |a.claims| && a.claims[k].phase.Taken? && b == PublishedItem(a, k, ok) {
      PhaseBounded(a, b, now, k);
    } else if k: nat :| MarkPossible(a, k, now, late) && b == MarkedItem(a, k, now) {
      BackoffBounds(k + 1);
      PhaseBounded(a, b, now, k);
    }
  }

  ghost predicate AllBounded(s: State) {
    forall i | 0 <= i < |s.items| :: Bounded(s.items[i], s.now)
  }

  lemma {:induction false} RunBounded(events: seq<Event>)
    requires PossibleFrom(Start, events)
    ensures AllBounded(RunFrom(Start, events))
    decreases |events|
  {
    if events != [] {
      var n := |events| - 1;
      RunBounded(events[..n]);
      var s, e := RunFrom(Start, events[..n]), events[n];
      forall i | 0 <= i < |Next(s, e).items| ensures Bounded(Next(s, e).items[i], Next(s, e).now) {
        if i < |s.items| {
          EachRowMoves(s, e, i);
          MoveBounded(s.items[i], Next(s, e).items[i], s.now, Next(s, e).now, !InLease(s, e));
        }
      }
    }
  }

  /** Reached by some run, of any workers. */
  ghost predicate Reached(s: State) {
    exists events :: PossibleFrom(Start, events) && s == RunFrom(Start, events)
  }

  lemma Onward(s: State, e: Event)
    requires Reached(s) && Enabled(s, e)
    ensures Reached(Next(s, e))
  {
    var events :| PossibleFrom(Start, events) && s == RunFrom(Start, events);
    assert (events + [e])[..|events|] == events;
    assert PossibleFrom(Start, events + [e]) && RunFrom(Start, events + [e]) == Next(s, e);
  }

  /** Any number of workers, any crashes, any late marks: a row is published at most as often as it was claimed, never more
      than max_attempts times, and two claims in a row are at least min(lease, 5) seconds apart. */
  lemma PublishCallsBounded(s: State, i: nat)
    requires Reached(s) && i < |s.items|
    ensures Calls(s.items[i].claims) <= s.items[i].row.attempts <= s.items[i].row.maxAttempts
    ensures forall k | 0 < k < |s.items[i].claims| :: Apart(s.items[i].claims, k)
  {
    var events :| PossibleFrom(Start, events) && s == RunFrom(Start, events);
    RunBounded(events);
  }

  // ----- the work a run can do is paid for by the attempts it was given

  /** Attempts the rows may still spend. */
  function Remaining(items: seq<Item>): int {
    if items == [] then 0 else Remaining(items[..|items| - 1]) + items[|items| - 1].row.maxAttempts - items[|items| - 1].row.attempts
  }

  function Granted(events: seq<Event>): nat {
    if events == [] then 0
    else Granted(events[..|events| - 1]) + Grant(events[|events| - 1])
  }

  /** Rows claimed over a run. */
  function ClaimsMade(events: seq<Event>): nat {
    if events == [] then 0
    else ClaimsMade(events[..|events| - 1]) + Spent(events[|events| - 1])
  }

  lemma {:induction false} RemainingAfter(a: seq<Item>, b: seq<Item>, picked: set<nat>)
    requires |a| == |b| && (forall i | i in picked :: i < |a|)
    requires forall i | 0 <= i < |a| :: b[i].row.maxAttempts == a[i].row.maxAttempts
                                        && b[i].row.attempts == a[i].row.attempts + if i in picked then 1 else 0
    ensures Remaining(b) == Remaining(a) - |picked|
  {
    if |a| == 0 {
      assert picked == {};
    } else {
      var n := |a| - 1;
      RemainingAfter(a[..n], b[..n], picked - {n});
      assert n in picked ==> |picked - {n}| == |picked| - 1;
    }
  }

  function Chosen(picked: seq<nat>): set<nat> {
    set i | i in picked
  }

  lemma {:induction false} AsMany(picked: seq<nat>)
    requires forall j, k | 0 <= j < k < |picked| :: picked[j] != picked[k]
    ensures |Chosen(picked)| == |picked|
  {
    if picked != [] {
      var n := |picked| - 1;
      AsMany(picked[..n]);
      assert picked == picked[..n] + [picked[n]] && picked[n] !in picked[..n];
      assert Chosen(picked) == Chosen(picked[..n]) + {picked[n]};
    }
  }

  function Grant(e: Event): nat {
    match e case Enqueue(max) => max case _ => 0
  }

  function Spent(e: Event): nat {
    match e case ClaimDue(_, _, _, picked) => |picked| case _ => 0
  }

  lemma ClaimSpends(s: State, e: Event)
    requires Enabled(s, e) && e.ClaimDue?
    ensures Remaining(Next(s, e).items) == Remaining(s.items) - |e.picked|
  {
    var chosen := Chosen(e.picked);
    AsMany(e.picked);
    forall i | i in chosen ensures i < |s.items| {
      var k :| 0 <= k < |e.picked| && e.picked[k] == i;
    }
    RemainingAfter(s.items, Next(s, e).items, chosen);
  }

  /** Every claimed row costs exactly one of the attempts granted, whatever else happens. */
  lemma StepSpends(s: State, e: Event)
    requires Enabled(s, e)
    ensures Remaining(Next(s, e).items) == Remaining(s.items) + Grant(e) - Spent(e)
  {
    match e
    case Wait(_) =>
    case Enqueue(_) => assert Next(s, e).items[..|s.items|] == s.items;
    case ClaimDue(_, _, _, _) => ClaimSpends(s, e);
    case Publish(_, _, _) => RemainingAfter(s.items, Next(s, e).items, {});
    case Mark(_, _) => RemainingAfter(s.items, Next(s, e).items, {});
  }

  /** Conservation over every run: attempts granted = rows claimed + attempts left, and none is overspent. So all claiming,
      and with it all publishing, of a run is bounded by what was granted. */
  lemma {:induction false} AttemptsConserved(events: seq<Event>)
    requires PossibleFrom(Start, events)
    ensures Granted(events) == ClaimsMade(events) + Remaining(RunFrom(Start, events).items)
    ensures 0 <= Remaining(RunFrom(Start, events).items)
    decreases |events|
  {
    if events != [] {
      var n := |events| - 1;
      AttemptsConserved(events[..n]);
      StepSpends(RunFrom(Start, events[..n]), events[n]);
    }
    RunBounded(events);
    RemainingNonNegative(RunFrom(Start, events).items);
  }

  lemma {:induction false} RemainingNonNegative(items: seq<Item>)
    requires forall i | 0 <= i < |items| :: items[i].row.attempts <= items[i].row.maxAttempts
    ensures 0 <= Remaining(items)
  {
    if items != [] {
      RemainingNonNegative(items[..|items| - 1]);
    }
  }

  // ----- workers that mark within their lease

  predicate Over(c: Claim, now: Time) {
    c.phase.Marked? || c.at + c.lease <= now
  }

  /** A claim is handed on only when it is over: its publish failed and the delay has passed, or its lease has ended. */
  predicate HandedOn(claims: seq<Claim>, k: nat)
    requires 0 < k < |claims|
  {
    var c := claims[k - 1];
    && Over(c, claims[k].at)
    && (c.phase.Marked? ==> !c.phase.ok && c.phase.at + Backoff(k) <= claims[k].at)
  }

  predicate MarkedInLease(c: Claim, now: Time) {
    c.phase.Marked? ==> c.at <= c.phase.at < c.at + c.lease && c.phase.at <= now
  }

  /** The row says what became of its last claim. */
  predicate StatusTells(it: Item) {
    var n := |it.claims|;
    if n == 0 then it.row.status == Status.Pending && it.row.nextAttemptAt == it.row.createdAt
    else
      var c := it.claims[n - 1];
      match c.phase
      case Marked(true, t) => it.row.status == Published && it.row.publishedAt == Some(t)
      case Marked(false, t) =>
        if n == it.row.maxAttempts then it.row.status == Dead
        else it.row.status == Status.Failed && it.row.nextAttemptAt == t + Backoff(n)
      case _ => it.row.status == Publishing && it.row.nextAttemptAt == c.at + c.lease
  }

  ghost predicate Orderly(it: Item, now: Time) {
    && Bounded(it, now)
    && (forall k | 0 < k < |it.claims| :: HandedOn(it.claims, k))
    && (forall c | c in it.claims :: MarkedInLease(c, now))
    && StatusTells(it)
  }

  lemma ClaimOrderly(a: Item, now: Time, lease: nat)
    requires Orderly(a, now) && Due(a.row, now)
    ensures Orderly(ClaimedItem(a, now, lease), now)
  {
    ClaimBounded(a, now, lease);
    var b := ClaimedItem(a, now, lease);
    forall k | 0 < k < |b.claims| ensures HandedOn(b.claims, k) {
      if k < |a.claims| {
        assert HandedOn(a.claims, k);
      }
    }
  }

  /** Only the last claim of a row can still be inside its lease. */
  lemma OnlyTheLast(it: Item, now: Time, k: nat)
    requires Orderly(it, now) && k < |it.claims|
    ensures Over(it.claims[k], now) || k == |it.claims| - 1
  {
    if k < |it.claims| - 1 {
      assert HandedOn(it.claims, k + 1);
      assert it.claims[k + 1] in it.claims;
    }
  }

  lemma PublishOrderly(a: Item, now: Time, k: nat, ok: bool)
    requires Orderly(a, now) && k < |a.claims| && a.claims[k].phase.Taken?
    ensures Orderly(PublishedItem(a, k, ok), now)
  {
    var b := PublishedItem(a, k, ok);
    PhaseBounded(a, b, now, k);
    forall j | 0 < j < |b.claims| ensures HandedOn(b.claims, j) {
      assert HandedOn(a.claims, j);
    }
  }

  lemma MarkOrderly(a: Item, now: Time, k: nat)
    requires Orderly(a, now) && MarkPossible(a, k, now, false)
    ensures Orderly(MarkedItem(a, k, now), now)
  {
    var b := MarkedItem(a, k, now);
    BackoffBounds(k + 1);
    PhaseBounded(a, b, now, k);
    OnlyTheLast(a, now, k);
    assert a.claims[k] in a.claims;
    forall j | 0 < j < |b.claims| ensures HandedOn(b.claims, j) {
      assert HandedOn(a.claims, j);
    }
  }

  lemma MoveOrderly(a: Item, b: Item, now: Time)
    requires Orderly(a, now) && Moved(a, b, now, false)
    ensures Orderly(b, now)
  {
    if lease: nat :| Due(a.row, now) && b == ClaimedItem(a, now, lease) {
      ClaimOrderly(a, now, lease);
    } else if k: nat, ok :| k < |a.claims| && a.claims[k].phase.Taken? && b == PublishedItem(a, k, ok) {
      PublishOrderly(a, now, k, ok);
    } else if k: nat :| MarkPossible(a, k, now, false) && b == MarkedItem(a, k, now) {
      MarkOrderly(a, now, k);
    }
  }

  lemma StaysOrderly(it: Item, now: Time, later: Time)
    requires Orderly(it, now) && now <= later
    ensures Orderly(it, later)
  {
  }

  ghost predicate AllOrderly(s: State) {
    forall i | 0 <= i < |s.items| :: Orderly(s.items[i], s.now)
  }

  lemma StepOrderly(s: State, e: Event)
    requires AllOrderly(s) && Enabled(s, e) && InLease(s, e)
    ensures AllOrderly(Next(s, e))
  {
    forall i | 0 <= i < |Next(s, e).items| ensures Orderly(Next(s, e).items[i], Next(s, e).now) {
      if i < |s.items| {
        EachRowMoves(s, e, i);
        MoveOrderly(s.items[i], Next(s, e).items[i], s.now);
        StaysOrderly(Next(s, e).items[i], s.now, Next(s, e).now);
      }
    }
  }

  lemma {:induction false} RunOrderly(events: seq<Event>)
    requires PossibleFrom(Start, events) && AlwaysInLease(Start, events)
    ensures AllOrderly(RunFrom(Start, events))
    decreases |events|
  {
    if events != [] {
      RunOrderly(events[..|events| - 1]);
      StepOrderly(RunFrom(Start, events[..|events| - 1]), events[|events| - 1]);
    }
  }

  // ----- what that buys

  /** Reached by some run in which every mark is made within its lease. */
  ghost predicate ReachedInLease(s: State) {
    exists events :: PossibleFrom(Start, events) && AlwaysInLease(Start, events) && s == RunFrom(Start, events)
  }

  lemma ReachedOrderly(s: State)
    requires ReachedInLease(s)
    ensures AllOrderly(s)
  {
    var events :| PossibleFrom(Start, events) && AlwaysInLease(Start, events) && s == RunFrom(Start, events);
    RunOrderly(events);
  }

  /** Exclusive: at any moment at most one worker holds an unmarked claim of a row inside its lease. */
  lemma OneLiveClaim(s: State, i: nat, j: nat, k: nat)
    requires ReachedInLease(s) && i < |s.items| && j < |s.items[i].claims| && k < |s.items[i].claims|
    requires !Over(s.items[i].claims[j], s.now) && !Over(s.items[i].claims[k], s.now)
    ensures j == k == s.items[i].row.attempts - 1 && s.items[i].row.status == Publishing
  {
    ReachedOrderly(s);
    OnlyTheLast(s.items[i], s.now, j);
    OnlyTheLast(s.items[i], s.now, k);
  }

  ghost predicate AllFailed(claims: seq<Claim>) {
    forall k | 0 <= k < |claims| :: claims[k].phase.Marked? && !claims[k].phase.ok
  }

  ghost predicate SomeSucceeded(claims: seq<Claim>) {
    exists k :: 0 <= k < |claims| && claims[k].phase.Marked? && claims[k].phase.ok
  }

  /** The status is decided by the claims: published exactly when a publish succeeded and was marked, dead exactly when all
      attempts were claimed and the last one was marked failed. */
  lemma StatusExactly(s: State, i: nat)
    requires ReachedInLease(s) && i < |s.items|
    ensures var it := s.items[i];
            && (it.row.status == Status.Pending <==> it.claims == [])
            && (it.row.status == Published <==> SomeSucceeded(it.claims))
            && (it.row.status == Dead <==> |it.claims| == it.row.maxAttempts && LastFailed(it.claims))
            && (it.row.status == Publishing <==> |it.claims| > 0 && !it.claims[|it.claims| - 1].phase.Marked?)
            && (it.row.status == Status.Failed <==> |it.claims| < it.row.maxAttempts && LastFailed(it.claims))
  {
    ReachedOrderly(s);
    SucceededLast(s.items[i], s.now);
  }

  predicate LastFailed(claims: seq<Claim>) {
    |claims| > 0 && claims[|claims| - 1].phase.Marked? && !claims[|claims| - 1].phase.ok
  }

  lemma SucceededLast(it: Item, now: Time)
    requires Orderly(it, now)
    ensures SomeSucceeded(it.claims) <==> |it.claims| > 0 && it.claims[|it.claims| - 1].phase.Marked? && it.claims[|it.claims| - 1].phase.ok
  {
    forall k | 0 <= k < |it.claims| && it.claims[k].phase.Marked? && it.claims[k].phase.ok ensures k == |it.claims| - 1 {
      assert k + 1 < |it.claims| ==> HandedOn(it.claims, k + 1);
    }
  }

  /** A row whose publishes all fail is dead exactly after max_attempts claims. */
  lemma DeadAfterMaxAttempts(s: State, i: nat)
    requires ReachedInLease(s) && i < |s.items| && s.items[i].claims != [] && AllFailed(s.items[i].claims)
    ensures s.items[i].row.status == Dead <==> |s.items[i].claims| == s.items[i].row.maxAttempts
  {
    StatusExactly(s, i);
  }

  predicate Final(it: Item, now: Time) {
    it.row.status == Published || it.row.status == Dead || Stuck(it, now)
  }

  lemma FinalMove(a: Item, b: Item, now: Time)
    requires Orderly(a, now) && Moved(a, b, now, false) && Final(a, now)
    ensures b.row == a.row && (Stuck(a, now) ==> Stuck(b, now))
  {
    if k: nat :| MarkPossible(a, k, now, false) {
      OnlyTheLast(a, now, k);
      assert false;
    }
  }

  /** Published and dead are final: no event changes such a row. */
  lemma PublishedAndDeadAreFinal(s: State, e: Event, i: nat)
    requires ReachedInLease(s) && i < |s.items| && Enabled(s, e) && InLease(s, e)
    requires s.items[i].row.status == Published || s.items[i].row.status == Dead
    ensures Next(s, e).items[i].row == s.items[i].row
  {
    ReachedOrderly(s);
    EachRowMoves(s, e, i);
    FinalMove(s.items[i], Next(s, e).items[i], s.now);
  }

  /** The delays after the first n attempts, added up. */
  function Backoffs(n: nat): nat {
    if n == 0 then 0 else Backoffs(n - 1) + Backoff(n)
  }

  /** The sum in numbers. */
  lemma {:induction false} BackoffSum(n: nat)
    ensures Backoffs(n) == if n <= 6 then [0, 5, 15, 35, 75, 155, 315][n] else 315 + 300 * (n - 6)
  {
    if n > 0 {
      BackoffSum(n - 1);
      BackoffTable(n);
    }
  }

  /** When the first k attempts of a row all failed, the next claim comes no sooner than the sum of their delays after the first. */
  lemma {:induction false} FailuresSpread(it: Item, now: Time, k: nat)
    requires Orderly(it, now) && k < |it.claims| && AllFailed(it.claims[..k])
    ensures it.claims[k].at >= it.claims[0].at + Backoffs(k)
  {
    if k > 0 {
      assert it.claims[..k][k - 1] == it.claims[k - 1] && it.claims[k - 1] in it.claims;
      assert forall j | 0 <= j < k - 1 :: it.claims[..k - 1][j] == it.claims[..k][j];
      FailuresSpread(it, now, k - 1);
      assert HandedOn(it.claims, k);
    }
  }

  lemma BackoffSpread(s: State, i: nat, k: nat)
    requires ReachedInLease(s) && i < |s.items| && k < |s.items[i].claims| && AllFailed(s.items[i].claims[..k])
    ensures s.items[i].claims[k].at >= s.items[i].claims[0].at + if k <= 6 then [0, 5, 15, 35, 75, 155, 315][k] else 315 + 300 * (k - 6)
  {
    ReachedOrderly(s);
    FailuresSpread(s.items[i], s.now, k);
    BackoffSum(k);
  }

  /** When a row can be claimed: one that failed in time, from its delay after the mark on; one in a worker's hands, from the end
      of its lease on if it has an attempt left; one never claimed, from its creation on. */
  lemma DueExactly(s: State, i: nat, t: Time)
    requires ReachedInLease(s) && i < |s.items|
    ensures var it := s.items[i]; var n := |it.claims|;
            && (LastFailed(it.claims) && n < it.row.maxAttempts ==>
                  (Due(it.row, t) <==> t >= it.claims[n - 1].phase.at + if n <= 6 then [5, 5, 10, 20, 40, 80, 160][n] else 300))
            && (n > 0 && !it.claims[n - 1].phase.Marked? ==> (Due(it.row, t) <==> n < it.row.maxAttempts && t >= it.claims[n - 1].at + it.claims[n - 1].lease))
            && (n == 0 ==> (Due(it.row, t) <==> 0 < it.row.maxAttempts && t >= it.row.createdAt))
  {
    ReachedOrderly(s);
    BackoffTable(|s.items[i].claims|);
  }

  // ----- where it stops short

  /** A row whose last allowed claim was taken and never marked stays 'publishing' for good once that lease is over: it is
      neither published nor dead, and no later event changes it. */
  lemma CrashAtTheLastAttemptSticks(s: State, e: Event, i: nat)
    requires ReachedInLease(s) && i < |s.items| && Enabled(s, e) && InLease(s, e) && Stuck(s.items[i], s.now)
    ensures Stuck(Next(s, e).items[i], Next(s, e).now) && Next(s, e).items[i].row == s.items[i].row
  {
    ReachedOrderly(s);
    EachRowMoves(s, e, i);
    FinalMove(s.items[i], Next(s, e).items[i], s.now);
  }

  predicate Stuck(it: Item, now: Time) {
    && it.row.status == Publishing && |it.claims| == it.row.attempts == it.row.maxAttempts > 0
    && var c := it.claims[|it.claims| - 1]; !c.phase.Marked? && c.at + c.lease <= now
  }

  lemma OnwardInLease(s: State, e: Event)
    requires ReachedInLease(s) && Enabled(s, e) && InLease(s, e)
    ensures ReachedInLease(Next(s, e))
  {
    var events :| PossibleFrom(Start, events) && AlwaysInLease(Start, events) && s == RunFrom(Start, events);
    assert (events + [e])[..|events|] == events;
    assert PossibleFrom(Start, events + [e]) && RunFrom(Start, events + [e]) == Next(s, e);
    assert AlwaysInLease(Start, events + [e]);
  }

  lemma StepInLease(s: State, e: Event) returns (t: State)
    requires ReachedInLease(s) && Enabled(s, e) && InLease(s, e)
    ensures ReachedInLease(t) && t == Next(s, e)
  {
    t := Next(s, e);
    OnwardInLease(s, e);
  }

  /** The only row after n claims whose workers all crashed before they marked. */
  predicate Crashed(s: State, max: nat, n: nat) {
    && |s.items| == 1
    && var it := s.items[0];
       && it.row.maxAttempts == max && |it.claims| == it.row.attempts == n <= max && it.row.nextAttemptAt <= s.now
       && it.row.status == (if n == 0 then Status.Pending else Publishing)
       && (n > 0 ==> var c := it.claims[n - 1]; c.phase.Taken? && c.at + c.lease <= s.now)
  }

  lemma {:induction false} CrashingClaims(max: nat, n: nat) returns (s: State)
    requires 0 < max && n <= max
    ensures ReachedInLease(s) && Crashed(s, max, n)
  {
    if n == 0 {
      assert PossibleFrom(Start, []) && AlwaysInLease(Start, []) && RunFrom(Start, []) == Start;
      s := StepInLease(Start, Enqueue(max));
    } else {
      var before := CrashingClaims(max, n - 1);
      assert Enabled(before, Only);
      var claimed := StepInLease(before, Only);
      assert claimed.items == [ClaimedItem(before.items[0], before.now, 60)];
      s := StepInLease(claimed, Wait(60));
    }
  }

  /** Such rows exist, whatever max_attempts is: one worker after the other claims the row and crashes. */
  lemma StuckIsReached(max: nat) returns (s: State)
    requires max > 0
    ensures ReachedInLease(s) && |s.items| == 1 && s.items[0].row.maxAttempts == max && Stuck(s.items[0], s.now)
  {
    s := CrashingClaims(max, max);
  }

  /** Every row is still waiting its turn, in a worker's hands, published, dead, or stuck; the last three are the ends. */
  lemma WhereARowCanBe(s: State, i: nat)
    requires ReachedInLease(s) && i < |s.items|
    ensures var it := s.items[i];
            (exists t :: t >= s.now && Due(it.row, t)) <==>
              !(it.row.status == Published || it.row.status == Dead || it.row.attempts == it.row.maxAttempts)
  {
    ReachedOrderly(s);
    var it := s.items[i];
    var t := if it.row.nextAttemptAt >= s.now then it.row.nextAttemptAt else s.now;
    if !(it.row.status == Published || it.row.status == Dead || it.row.attempts == it.row.maxAttempts) {
      assert Due(it.row, t);
    }
  }

  /** Without the discipline published is not final: a failure marked after its lease has ended revives a row that another
      worker has published, and the notice goes out twice. */
  lemma LateMarkRevives() returns (done: State, revived: State, again: State)
    ensures Reached(done) && |done.items| == 1 && done.items[0].row.status == Published
    ensures Reached(revived) && |revived.items| == 1 && revived.items[0].row.status == Status.Failed
    ensures Enabled(done, Mark(0, 0)) && !InLease(done, Mark(0, 0)) && revived == Next(done, Mark(0, 0))
    ensures Reached(again) && |again.items| == 1 && |again.items[0].claims| == 3
    ensures again.items[0].claims[1].phase == Marked(true, 60) && again.items[0].claims[2].phase == Called(true)
  {
    done := LateFailure();
    revived := Step(done, Mark(0, 0));
    var due := Step(revived, Wait(5));
    again := ClaimAndCall(due, true);
  }

  /** The first worker's publish fails, it stalls past its lease, and a second worker claims, publishes and marks the row. */
  lemma LateFailure() returns (done: State)
    ensures Reached(done) && done == State(60, [Item(Row(0, 5, Published, 2, 120, Some(60), false, 60),
                                                     [Claim(0, 60, Called(false)), Claim(60, 60, Marked(true, 60))])])
  {
    assert PossibleFrom(Start, []) && RunFrom(Start, []) == Start;
    var enqueued := Step(Start, Enqueue(5));
    var called := ClaimAndCall(enqueued, false);
    var late := Step(called, Wait(60));
    var published := ClaimAndCall(late, true);
    assert published.items[0].claims == [Claim(0, 60, Called(false)), Claim(60, 60, Called(true))];
    done := Step(published, Mark(0, 1));
    assert done.items[0].claims == [Claim(0, 60, Called(false)), Claim(60, 60, Marked(true, 60))];
  }

  const Only: Event := ClaimDue(100, 60, {}, [0])

  /** The only row is claimed and its publisher called. */
  lemma ClaimAndCall(s: State, ok: bool) returns (t: State)
    requires Reached(s) && |s.items| == 1 && Due(s.items[0].row, s.now)
    ensures Reached(t) && t == State(s.now, [Item(Claimed(s.items[0].row, s.now, 60), s.items[0].claims + [Claim(s.now, 60, Called(ok))])])
  {
    OnlyClaimed(s, ok);
    var claimed := Step(s, Only);
    t := Step(claimed, Publish(0, |s.items[0].claims|, ok));
  }

  lemma OnlyClaimed(s: State, ok: bool)
    requires |s.items| == 1 && Due(s.items[0].row, s.now)
    ensures Enabled(s, Only) && Enabled(Next(s, Only), Publish(0, |s.items[0].claims|, ok))
    ensures var it := Item(Claimed(s.items[0].row, s.now, 60), s.items[0].claims + [Claim(s.now, 60, Called(ok))]);
            Next(Next(s, Only), Publish(0, |s.items[0].claims|, ok)) == State(s.now, [it])
  {
    var it := s.items[0];
    var claimed := Next(s, Only);
    assert claimed.items == [ClaimedItem(it, s.now, 60)];
    var called := Next(claimed, Publish(0, |it.claims|, ok));
    assert called.items[0].claims == it.claims + [Claim(s.now, 60, Called(ok))];
  }

  lemma Step(s: State, e: Event) returns (t: State)
    requires Reached(s) && Enabled(s, e)
    ensures Reached(t) && t == Next(s, e)
  {
    t := Next(s, e);
    Onward(s, e);
  }

  /** Exactly which events undo a published, dead or stuck row when marks may be late: a failed publish marked afterwards undoes
      published, a successful one undoes dead, any mark frees a stuck row, and nothing else does. */
  lemma FinalUntilLateMark(s: State, e: Event, i: nat)
    requires Reached(s) && i < |s.items| && Enabled(s, e)
    ensures s.items[i].row.status == Published ==>
              (Next(s, e).items[i].row.status != Published <==> e.Mark? && e.item == i && !s.items[i].claims[e.claim].phase.ok)
    ensures s.items[i].row.status == Dead ==>
              (Next(s, e).items[i].row.status != Dead <==> e.Mark? && e.item == i && s.items[i].claims[e.claim].phase.ok)
    ensures Stuck(s.items[i], s.now) ==> (Next(s, e).items[i].row != s.items[i].row <==> e.Mark? && e.item == i)
  {
    var events :| PossibleFrom(Start, events) && s == RunFrom(Start, events);
    RunBounded(events);
    EachRowMoves(s, e, i);
  }

  // ----- one scan of the worker is a run

  ghost predicate Holds(s: State, t: Ticket) {
    && t.row < |s.items| && 0 < t.attempt <= |s.items[t.row].claims|
    && s.items[t.row].claims[t.attempt - 1].phase.Taken?
  }

  /** Publishing and marking the claimed rows one by one is a run, for whatever answers at whatever later times. */
  lemma {:induction false} ServingIsARun(s: State, tickets: seq<Ticket>, answers: seq<bool>, clock: seq<Time>) returns (t: State)
    requires Reached(s) && |tickets| == |answers| == |clock| && (forall k | 0 <= k < |clock| :: s.now <= clock[k])
    requires forall j, k | 0 <= j < k < |clock| :: clock[j] <= clock[k]
    requires forall j, k | 0 <= j < k < |tickets| :: tickets[j].row != tickets[k].row
    requires forall k | 0 <= k < |tickets| :: tickets[k].row < |s.items| && Holds(s, tickets[k])
    ensures Reached(t) && Rows(t) == PublishedAll(Rows(s), tickets, answers, clock)
    ensures t.now == if |clock| == 0 then s.now else clock[|clock| - 1]
    ensures |t.items| == |s.items| && forall i | 0 <= i < |s.items| && (forall k | 0 <= k < |tickets| :: tickets[k].row != i) :: t.items[i] == s.items[i]
    decreases |tickets|
  {
    if |tickets| == 0 {
      return s;
    }
    var n := |tickets| - 1;
    var before := ServingIsARun(s, tickets[..n], answers[..n], clock[..n]);
    assert Holds(s, tickets[n]) && before.items[tickets[n].row] == s.items[tickets[n].row];
    t := ServeOne(before, tickets[n], answers[n], clock[n]);
  }

  /** The worker waits, calls the publisher for one row and marks it. */
  lemma ServeOne(s: State, ticket: Ticket, ok: bool, at: Time) returns (t: State)
    requires Reached(s) && Holds(s, ticket) && s.now <= at
    ensures Reached(t) && t.now == at && |t.items| == |s.items|
    ensures forall i | 0 <= i < |s.items| && i != ticket.row :: t.items[i] == s.items[i]
    ensures Rows(t) == Rows(s)[ticket.row := if ok then MarkedPublished(Rows(s)[ticket.row], at)
                                                    else MarkedFailed(Rows(s)[ticket.row], at, Backoff(ticket.attempt))]
  {
    var waited := Step(s, Wait(at - s.now));
    var called := Step(waited, Publish(ticket.row, ticket.attempt - 1, ok));
    t := Step(called, Mark(ticket.row, ticket.attempt - 1));
  }

  /** A scan's effect on the table is one the run model allows. */
  lemma ScanIsARun(s: State, limit: nat, lease: nat, locked: set<nat>, picked: seq<nat>, tickets: seq<Ticket>, answers: seq<bool>, clock: seq<Time>)
      returns (t: State)
    requires Reached(s) && Selection(Rows(s), s.now, locked, limit, picked)
    requires |picked| == |tickets| == |answers| == |clock| && (forall k | 0 <= k < |clock| :: s.now <= clock[k])
    requires forall j, k | 0 <= j < k < |clock| :: clock[j] <= clock[k]
    requires forall k | 0 <= k < |tickets| :: tickets[k].row == picked[k] && tickets[k].attempt == Rows(s)[picked[k]].attempts + 1
    ensures Reached(t) && Rows(t) == PublishedAll(ClaimedRows(Rows(s), picked, s.now, lease), tickets, answers, clock)
  {
    var claimed := Step(s, ClaimDue(limit, lease, locked, picked));
    var events :| PossibleFrom(Start, events) && s == RunFrom(Start, events);
    RunBounded(events);
    forall k | 0 <= k < |tickets| ensures Holds(claimed, tickets[k]) {
      assert picked[k] in picked && Bounded(s.items[picked[k]], s.now);
    }
    assert Rows(claimed) == ClaimedRows(Rows(s), picked, s.now, lease);
    t := ServingIsARun(claimed, tickets, answers, clock);
  }
}
