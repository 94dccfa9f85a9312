/** The payment notification outbox as a work queue: rows are claimed under a lease, published, and marked. */
module OutboxQueue {
  import opened Ledgers

  datatype Status = Pending | Publishing | Published | Failed | Dead

  datatype Row = Row(createdAt: Time, maxAttempts: nat, status: Status, attempts: nat, nextAttemptAt: Time,
                     publishedAt: Option<Time>, failed: bool, updatedAt: Time)

  /** One claimed row, as the worker remembers it. */
  datatype Ticket = Ticket(row: nat, attempt: nat)

  // ----- rows

  predicate Due(r: Row, now: Time) {
    (r.status == Status.Pending || r.status == Status.Failed || r.status == Publishing) && r.nextAttemptAt <= now && r.attempts < r.maxAttempts
  }

  function Claimed(r: Row, now: Time, lease: nat): Row {
    r.(status := Publishing, attempts := r.attempts + 1, nextAttemptAt := now + lease, updatedAt := now)
  }

  function MarkedPublished(r: Row, now: Time): Row {
    r.(status := Published, publishedAt := Some(now), failed := false, updatedAt := now)
  }

  function MarkedFailed(r: Row, now: Time, delay: nat): Row {
    var r' := r.(failed := true, updatedAt := now);
    if r.attempts >= r.maxAttempts then r'.(status := Dead) else r'.(status := Status.Failed, nextAttemptAt := now + delay)
  }

  function Pow2(n: nat): nat {
    if n == 0 then 1 else 2 * Pow2(n - 1)
  }

  /** Seconds until the next attempt after the given one failed: 5, 10, 20, ... capped at 300. */
  function Backoff(attempt: nat): nat {
    var raw := 5 * Pow2(if attempt >= 1 then attempt - 1 else 0);
    if raw <= 300 then raw else 300
  }

  lemma {:induction false} BackoffBounds(attempt: nat)
    ensures 5 <= Backoff(attempt) <= 300
    ensures Backoff(attempt) <= Backoff(attempt + 1)
    ensures attempt >= 7 ==> Backoff(attempt) == 300
  {
    Pow2Grows(if attempt >= 1 then attempt - 1 else 0);
    if attempt >= 7 {
      Pow2AtLeast(attempt - 1);
    }
  }

  /** The delays in numbers: 5, 10, 20, 40, 80, 160, and 300 from the seventh attempt on; each is twice the one before, or 300. */
  lemma BackoffTable(attempt: nat)
    ensures attempt <= 6 ==> Backoff(attempt) == [5, 5, 10, 20, 40, 80, 160][attempt]
    ensures attempt >= 7 ==> Backoff(attempt) == 300
    ensures attempt >= 1 ==> Backoff(attempt + 1) == if 2 * Backoff(attempt) <= 300 then 2 * Backoff(attempt) else 300
  {
    if attempt >= 7 {
      Pow2AtLeast(attempt - 1);
    }
    assert Pow2(3) == 8 && Pow2(5) == 4 * Pow2(3) && Pow2(6) == 64;
  }

  lemma {:induction false} Pow2Grows(n: nat)
    ensures 1 <= Pow2(n) <= Pow2(n + 1)
  {
    if n > 0 {
      Pow2Grows(n - 1);
    }
  }

  lemma {:induction false} Pow2AtLeast(n: nat)
    requires n >= 6
    ensures Pow2(n) >= 64
  {
    if n == 6 {
      assert Pow2(6) == 2 * (2 * (2 * (2 * (2 * (2 * Pow2(0))))));
    } else {
      Pow2AtLeast(n - 1);
    }
  }

  // ----- the SELECT of claim_due

  /** Different rows of the table, the older before the younger. */
  ghost predicate ByAge(rows: seq<Row>, picked: seq<nat>) {
    && (forall k | 0 <= k < |picked| :: picked[k] < |rows|)
    && (forall j, k | 0 <= j < k < |picked| :: picked[j] != picked[k] && rows[picked[j]].createdAt <= rows[picked[k]].createdAt)
  }

  /** The rows FOR UPDATE SKIP LOCKED may return: due and unlocked ones, oldest first, as many as the limit allows, none
      passed over for a younger one. Rows of equal age come in any order. */
  ghost predicate Selection(rows: seq<Row>, now: Time, locked: set<nat>, limit: nat, picked: seq<nat>) {
    && ByAge(rows, picked) && |picked| <= limit
    && (forall k | 0 <= k < |picked| :: picked[k] !in locked && Due(rows[picked[k]], now))
    && (forall i | 0 <= i < |rows| && i !in locked && Due(rows[i], now) && i !in picked ::
          |picked| == limit && forall k | 0 <= k < |picked| :: rows[picked[k]].createdAt <= rows[i].createdAt)
  }

  function InsertByAge(rows: seq<Row>, picked: seq<nat>, i: nat): (r: seq<nat>)
    requires i < |rows| && i !in picked && ByAge(rows, picked)
    ensures ByAge(rows, r) && (forall x :: x in r <==> x in picked || x == i)
  {
    if picked == [] then [i]
    else
      var n := |picked| - 1;
      if rows[picked[n]].createdAt <= rows[i].createdAt then
        assert forall j | 0 <= j < n :: rows[picked[j]].createdAt <= rows[picked[n]].createdAt;
        picked + [i]
      else
        assert picked == picked[..n] + [picked[n]] && ByAge(rows, picked[..n]);
        var r := InsertByAge(rows, picked[..n], i);
        InsertedFits(rows, picked, i, r);
        r + [picked[n]]
  }

  lemma InsertedFits(rows: seq<Row>, picked: seq<nat>, i: nat, r: seq<nat>)
    requires i < |rows| && i !in picked && ByAge(rows, picked) && |picked| > 0 && ByAge(rows, r)
    requires rows[i].createdAt <= rows[picked[|picked| - 1]].createdAt
    requires forall x :: x in r <==> x in picked[..|picked| - 1] || x == i
    ensures ByAge(rows, r + [picked[|picked| - 1]])
    ensures forall x :: x in r + [picked[|picked| - 1]] <==> x in picked || x == i
  {
    var n := |picked| - 1;
    assert picked == picked[..n] + [picked[n]];
    forall j | 0 <= j < |r| ensures r[j] != picked[n] && rows[r[j]].createdAt <= rows[picked[n]].createdAt {
      assert r[j] in r;
      if r[j] != i {
        var k :| 0 <= k < n && picked[..n][k] == r[j];
        assert picked[k] == r[j];
      }
    }
  }

  /** All due and unlocked rows among the first n, oldest first. */
  function DueByAge(rows: seq<Row>, now: Time, locked: set<nat>, n: nat): (r: seq<nat>)
    requires n <= |rows|
    ensures ByAge(rows, r) && (forall x: nat :: x in r <==> x < n && x !in locked && Due(rows[x], now))
  {
    if n == 0 then []
    else
      var before := DueByAge(rows, now, locked, n - 1);
      if n - 1 !in locked && Due(rows[n - 1], now) then InsertByAge(rows, before, n - 1) else before
  }

  function SelectDue(rows: seq<Row>, now: Time, locked: set<nat>, limit: nat): (picked: seq<nat>)
    ensures Selection(rows, now, locked, limit, picked)
  {
    var due := DueByAge(rows, now, locked, |rows|);
    if |due| <= limit then
      assert forall k | 0 <= k < |due| :: due[k] in due;
      due
    else
      FirstAreOldest(rows, now, locked, limit, due);
      due[..limit]
  }

  lemma FirstAreOldest(rows: seq<Row>, now: Time, locked: set<nat>, limit: nat, due: seq<nat>)
    requires ByAge(rows, due) && limit < |due|
    requires forall x: nat :: x in due <==> x < |rows| && x !in locked && Due(rows[x], now)
    ensures Selection(rows, now, locked, limit, due[..limit])
  {
    forall k | 0 <= k < limit ensures due[..limit][k] !in locked && Due(rows[due[..limit][k]], now) {
      assert due[k] in due;
    }
    forall i, k | 0 <= i < |rows| && i !in locked && Due(rows[i], now) && i !in due[..limit] && 0 <= k < limit
      ensures rows[due[..limit][k]].createdAt <= rows[i].createdAt
    {
      assert i in due;
      var j :| 0 <= j < |due| && due[j] == i;
      assert forall l | 0 <= l < limit :: due[l] in due[..limit];
      assert rows[due[k]].createdAt <= rows[due[j]].createdAt;
    }
  }

  /** The rows after the picked ones have been claimed. */
  function ClaimedRows(rows: seq<Row>, picked: seq<nat>, now: Time, lease: nat): (r: seq<Row>)
    ensures |r| == |rows|
  {
    seq(|rows|, i requires 0 <= i < |rows| => if i in picked then Claimed(rows[i], now, lease) else rows[i])
  }

  lemma ClaimNext(rows: seq<Row>, picked: seq<nat>, k: nat, now: Time, lease: nat)
    requires ByAge(rows, picked) && k < |picked|
    ensures ClaimedRows(rows, picked[..k], now, lease)[picked[k]] == rows[picked[k]]
    ensures ClaimedRows(rows, picked[..k + 1], now, lease) == ClaimedRows(rows, picked[..k], now, lease)[picked[k] := Claimed(rows[picked[k]], now, lease)]
  {
    assert picked[k] !in picked[..k] && picked[..k + 1] == picked[..k] + [picked[k]];
    ClaimOneMore(rows, picked[..k], picked[k], now, lease);
  }

  lemma ClaimedAttempts(rows: seq<Row>, picked: seq<nat>, now: Time, lease: nat)
    requires forall k | 0 <= k < |picked| :: picked[k] < |rows|
    ensures forall k | 0 <= k < |picked| :: ClaimedRows(rows, picked, now, lease)[picked[k]].attempts == rows[picked[k]].attempts + 1
  {
    assert forall k | 0 <= k < |picked| :: picked[k] in picked;
  }

  lemma ClaimOneMore(rows: seq<Row>, picked: seq<nat>, i: nat, now: Time, lease: nat)
    requires i < |rows| && i !in picked
    ensures ClaimedRows(rows, picked + [i], now, lease) == ClaimedRows(rows, picked, now, lease)[i := Claimed(rows[i], now, lease)]
  {
  }

  /** The same age, attempts and lease order decide who is claimed: no row outside the picked ones is touched, each picked
      row loses one attempt and is out of reach until its lease ends. */
  lemma ClaimTakesOldest(rows: seq<Row>, now: Time, locked: set<nat>, limit: nat, picked: seq<nat>, lease: nat, i: nat)
    requires Selection(rows, now, locked, limit, picked) && i < |rows|
    ensures var r' := ClaimedRows(rows, picked, now, lease)[i];
            && (i !in picked ==> r' == rows[i])
            && (i in picked ==> r'.attempts == rows[i].attempts + 1 <= r'.maxAttempts && r'.status == Publishing
                                && forall t | t < now + lease :: !Due(r', t))
    ensures i !in locked && Due(rows[i], now) && i !in picked ==>
              |picked| == limit && forall k | 0 <= k < |picked| :: rows[picked[k]].createdAt <= rows[i].createdAt
  {
    if i in picked {
      var k :| 0 <= k < |picked| && picked[k] == i;
      assert Due(rows[picked[k]], now);
    }
  }

  /** What a mark says: published has its time and no failure reason left; failed has one, is dead without an attempt left, and
      otherwise waits for its delay. Neither touches age, attempts or limit. */
  lemma MarksSay(r: Row, now: Time, delay: nat)
    ensures var p := MarkedPublished(r, now);
            && p.status == Published && p.publishedAt == Some(now) && !p.failed && p.updatedAt == now
            && p.attempts == r.attempts && p.maxAttempts == r.maxAttempts && p.createdAt == r.createdAt && p.nextAttemptAt == r.nextAttemptAt
    ensures var f := MarkedFailed(r, now, delay);
            && f.failed && f.updatedAt == now && (f.status == Dead <==> r.attempts >= r.maxAttempts) && (f.status == Dead || f.status == Status.Failed)
            && f.nextAttemptAt == (if f.status == Dead then r.nextAttemptAt else now + delay)
            && f.attempts == r.attempts && f.maxAttempts == r.maxAttempts && f.createdAt == r.createdAt && f.publishedAt == r.publishedAt
  {
  }

  // ----- the repository and the worker

  /** A row object of the session: the fields the repository assigns. */
  class Notification {
    const createdAt: Time
    const maxAttempts: nat
    var status: Status
    var attempts: nat
    var nextAttemptAt: Time
    var publishedAt: Option<Time>
    var failed: bool
    var updatedAt: Time

    constructor (createdAt: Time, maxAttempts: nat)
      ensures View() == Row(createdAt, maxAttempts, Status.Pending, 0, createdAt, None, false, createdAt)
    {
      this.createdAt, this.maxAttempts := createdAt, maxAttempts;
      status, attempts, nextAttemptAt, publishedAt, failed, updatedAt := Status.Pending, 0, createdAt, None, false, createdAt;
    }

    function View(): Row
      reads this
    {
      Row(createdAt, maxAttempts, status, attempts, nextAttemptAt, publishedAt, failed, updatedAt)
    }
  }

  class OutboxRepository {
    const table: seq<Notification>

    ghost predicate Valid() {
      forall i, j | 0 <= i < j < |table| :: table[i] != table[j]
    }

    constructor (table: seq<Notification>)
      requires forall i, j | 0 <= i < j < |table| :: table[i] != table[j]
      ensures Valid() && this.table == table
    {
      this.table := table;
    }

    function Rows(): seq<Row>
      reads table
    {
      seq(|table|, i requires 0 <= i < |table| reads table => table[i].View())
    }

    method ClaimDue(limit: nat, lease: nat, now: Time, locked: set<nat>) returns (tickets: seq<Ticket>, ghost picked: seq<nat>)
      requires Valid()
      modifies table
      ensures Selection(old(Rows()), now, locked, limit, picked)
      ensures Rows() == ClaimedRows(old(Rows()), picked, now, lease)
      ensures |tickets| == |picked| && forall k | 0 <= k < |picked| :: tickets[k] == Ticket(picked[k], Rows()[picked[k]].attempts)
    {
      var chosen := SelectDue(Rows(), now, locked, limit);
      picked := chosen;
      tickets := ClaimAll(chosen, now, now + lease, Rows(), lease);
    }

    /** The claiming loop. */
    method ClaimAll(chosen: seq<nat>, now: Time, leaseExpiresAt: Time, ghost was: seq<Row>, ghost lease: nat) returns (tickets: seq<Ticket>)
      requires Valid() && was == Rows() && leaseExpiresAt == now + lease && ByAge(was, chosen)
      modifies table
      ensures Rows() == ClaimedRows(was, chosen, now, lease)
      ensures |tickets| == |chosen| && forall k | 0 <= k < |chosen| :: tickets[k] == Ticket(chosen[k], Rows()[chosen[k]].attempts)
    {
      assert ClaimedRows(was, [], now, lease) == was;
      tickets := [];
      var k := 0;
      while k < |chosen|
        invariant 0 <= k <= |chosen| && |tickets| == k
        invariant Rows() == ClaimedRows(was, chosen[..k], now, lease)
        invariant forall j | 0 <= j < k :: tickets[j] == Ticket(chosen[j], was[chosen[j]].attempts + 1)
      {
        ClaimNext(was, chosen, k, now, lease);
        var attempts := Claim(chosen[k], now, leaseExpiresAt, lease);
        tickets := tickets + [Ticket(chosen[k], attempts)];
        k := k + 1;
      }
      assert chosen[..k] == chosen;
      ClaimedAttempts(was, chosen, now, lease);
    }

    /** The body of the claiming loop. */
    method Claim(id: nat, now: Time, leaseExpiresAt: Time, ghost lease: nat) returns (attempts: nat)
      requires Valid() && id < |table| && leaseExpiresAt == now + lease
      modifies table
      ensures Rows() == old(Rows())[id := Claimed(old(Rows())[id], now, lease)] && attempts == old(Rows())[id].attempts + 1
    {
      var notification := table[id];
      notification.status := Publishing;
      notification.attempts := notification.attempts + 1;
      notification.nextAttemptAt := leaseExpiresAt;
      notification.updatedAt := now;
      attempts := notification.attempts;
    }

    method MarkPublished(id: nat, now: Time) returns (found: bool)
      requires Valid()
      modifies table
      ensures found <==> id < |table|
      ensures Rows() == if found then old(Rows())[id := MarkedPublished(old(Rows())[id], now)] else old(Rows())
    {
      if id >= |table| {
        return false;
      }
      var notification := table[id];
      notification.status := Published;
      notification.publishedAt := Some(now);
      notification.failed := false;
      notification.updatedAt := now;
      return true;
    }

    method MarkFailed(id: nat, now: Time, retryDelay: nat) returns (found: bool)
      requires Valid()
      modifies table
      ensures found <==> id < |table|
      ensures Rows() == if found then old(Rows())[id := MarkedFailed(old(Rows())[id], now, retryDelay)] else old(Rows())
    {
      if id >= |table| {
        return false;
      }
      var notification := table[id];
      notification.failed := true;
      notification.updatedAt := now;
      if notification.attempts >= notification.maxAttempts {
        notification.status := Dead;
      } else {
        notification.status := Status.Failed;
        notification.nextAttemptAt := now + retryDelay;
      }
      return true;
    }
  }

  /** Publishing one claimed row at a time, in order; answers says which publish calls succeed, clock when each is marked. */
  function PublishedAll(rows: seq<Row>, tickets: seq<Ticket>, answers: seq<bool>, clock: seq<Time>): (r: seq<Row>)
    requires |answers| == |clock| == |tickets| && forall k | 0 <= k < |tickets| :: tickets[k].row < |rows|
    ensures |r| == |rows|
    decreases |tickets|
  {
    if |tickets| == 0 then rows
    else
      var n := |tickets| - 1;
      var before := PublishedAll(rows, tickets[..n], answers[..n], clock[..n]);
      var t := tickets[n];
      before[t.row := if answers[n] then MarkedPublished(before[t.row], clock[n]) else MarkedFailed(before[t.row], clock[n], Backoff(t.attempt))]
  }

  class PaymentOutboxWorker {
    const repository: OutboxRepository
    const batchSize: nat
    const leaseSeconds: nat

    constructor (repository: OutboxRepository, batchSize: nat, leaseSeconds: nat)
      ensures this.repository == repository && this.batchSize == batchSize && this.leaseSeconds == leaseSeconds
    {
      this.repository, this.batchSize, this.leaseSeconds := repository, batchSize, leaseSeconds;
    }

    method PublishOne(t: Ticket, answer: bool, now: Time)
      requires repository.Valid() && t.row < |repository.table|
      modifies repository.table
      ensures repository.Rows() == old(repository.Rows())[t.row := if answer then MarkedPublished(old(repository.Rows())[t.row], now)
                                                                      else MarkedFailed(old(repository.Rows())[t.row], now, Backoff(t.attempt))]
    {
      if !answer {
        var failed := repository.MarkFailed(t.row, now, Backoff(t.attempt));
        return;
      }
      var published := repository.MarkPublished(t.row, now);
    }

    /** One scan: claim a batch, then publish and mark each claimed row. answers and clock cover the largest batch. */
    method RunOnce(now: Time, locked: set<nat>, answers: seq<bool>, clock: seq<Time>) returns (count: nat, ghost picked: seq<nat>, ghost tickets: seq<Ticket>)
      requires repository.Valid() && |answers| == |clock| == batchSize
      modifies repository.table
      ensures Selection(old(repository.Rows()), now, locked, batchSize, picked) && count == |picked| == |tickets|
      ensures forall k | 0 <= k < count :: tickets[k].row == picked[k] < |old(repository.Rows())|
                                             && tickets[k].attempt == old(repository.Rows())[picked[k]].attempts + 1
      ensures repository.Rows() == PublishedAll(ClaimedRows(old(repository.Rows()), picked, now, leaseSeconds), tickets, answers[..count], clock[..count])
    {
      var claimed;
      claimed, picked := repository.ClaimDue(batchSize, leaseSeconds, now, locked);
      tickets := claimed;
      count := |claimed|;
      PublishEach(claimed, answers[..count], clock[..count]);
    }

    /** The publishing loop. */
    method PublishEach(claimed: seq<Ticket>, answers: seq<bool>, clock: seq<Time>)
      requires repository.Valid() && |answers| == |clock| == |claimed| && forall k | 0 <= k < |claimed| :: claimed[k].row < |repository.Rows()|
      modifies repository.table
      ensures repository.Rows() == PublishedAll(old(repository.Rows()), claimed, answers, clock)
    {
      ghost var start := repository.Rows();
      assert |start| == |repository.table|;
      var k := 0;
      while k < |claimed|
        invariant 0 <= k <= |claimed| && |repository.Rows()| == |start|
        invariant repository.Rows() == PublishedAll(start, claimed[..k], answers[..k], clock[..k])
      {
        PublishOne(claimed[k], answers[k], clock[k]);
        assert claimed[..k + 1][..k] == claimed[..k] && answers[..k + 1][..k] == answers[..k] && clock[..k + 1][..k] == clock[..k];
        k := k + 1;
      }
      assert answers[..k] == answers && clock[..k] == clock;
      assert claimed[..k] == claimed;
    }
  }
}
