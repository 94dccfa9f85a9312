/** What holds of every run from the empty system: the statements the invariants were found for. */
module Theorems {
  import opened Ledgers
  import opened CardCompany
  import opened PaymentGateway
  import opened ParkingSystem
  import opened CarPayIn
  import opened Protocol
  import opened Invariants
  import opened BackendTables
  import opened LedgerTables
  import opened ExitLane
  import opened Safety
  import opened ExitSafety
  import Fees

  lemma StartGood(now: Time, rate: nat)
    ensures Good(Start(now, rate))
  {
  }

  /** w can come about in some run. */
  ghost predicate Reachable(w: World) {
    exists now, rate, steps :: PossibleRun(Start(now, rate), steps) && w == Run(Start(now, rate), steps)
  }

  /** w can come about in a run in which every notice the PMS records finds its session active. */
  ghost predicate SafelyReachable(w: World) {
    exists now, rate, steps :: PossibleRun(Start(now, rate), steps) && FirstNoticeRun(Start(now, rate), steps) && w == Run(Start(now, rate), steps)
  }

  lemma ReachableBase(w: World)
    requires Reachable(w)
    ensures Base(w, {})
  {
    var now, rate, steps :| PossibleRun(Start(now, rate), steps) && w == Run(Start(now, rate), steps);
    StartGood(now, rate);
    RunBase(Start(now, rate), steps);
  }

  lemma ReachableGood(w: World)
    requires SafelyReachable(w)
    ensures Good(w)
  {
    var now, rate, steps :| PossibleRun(Start(now, rate), steps) && FirstNoticeRun(Start(now, rate), steps) && w == Run(Start(now, rate), steps);
    StartGood(now, rate);
    RunGood(Start(now, rate), steps);
  }

  // ----- exactly when exits stay safe

  /** A state in which backend, PMS table, cache, requests and barrier log agree stays one if and only if the step makes the PMS
      record no notice for a session that is no longer active. */
  lemma GoodExactly(w: World, step: Step)
    requires Good(w) && Possible(w, step)
    ensures Good(Next(w, step)) <==> FirstNotice(w, step)
  {
    if FirstNotice(w, step) {
      StepGood(w, step);
    }
    if Good(Next(w, step)) {
      StepGrown(w, step);
      OnlyFirstNotices(w.p, Next(w, step).p);
    }
  }

  lemma OnlyFirstNotices(p: Pms, p': Pms)
    requires PaidByRequest(p.sessions, p.requests) && OneRequestEach(p'.requests)
    requires forall k | k in p.requests :: k in p'.requests && p'.requests[k] == p.requests[k]
    ensures FirstNotices(p, p')
  {
    forall k | k in p'.requests && k !in p.requests && p'.requests[k].pmsId in p.sessions
      ensures p.sessions[p'.requests[k].pmsId].status == PmsStatus.Active
    {
    }
  }

  ghost predicate GoodThroughout(w: World, steps: seq<Step>)
    decreases |steps|
  {
    Good(w) && (steps != [] ==> GoodThroughout(Next(w, steps[0]), steps[1..]))
  }

  /** Over whole runs: everything below holds all along a run if and only if each recorded notice finds its session active. */
  lemma {:induction false} SafeExactly(w: World, steps: seq<Step>)
    requires Good(w) && PossibleRun(w, steps)
    ensures GoodThroughout(w, steps) <==> FirstNoticeRun(w, steps)
    decreases |steps|
  {
    if steps != [] {
      GoodExactly(w, steps[0]);
      if Good(Next(w, steps[0])) {
        SafeExactly(Next(w, steps[0]), steps[1..]);
      }
    }
  }

  // ----- exits are paid for

  /** A payment of session id that the PMS, the backend and, unless it was free, the PG and the card company
      all record with the same amount, currency and approval number. */
  ghost predicate BackedBy(w: World, id: PmsId, k: Key) {
    && k in w.p.requests && w.p.requests[k].pmsId == id
    && Succeeded(w.b.txs, k) && k.ref.id in w.b.sessions && w.b.sessions[k.ref.id].pmsId == id && w.b.sessions[k.ref.id].status == Completed
    && w.p.requests[k].amount == w.b.txs[k].amount && w.p.requests[k].currency == w.b.txs[k].currency
    && w.p.requests[k].approval == w.b.txs[k].approval
    && (if w.b.txs[k].amount == 0 then w.b.txs[k].approval == Some(FREE)
        else && PgPaid(w.g.txs, k) && CardPaid(w.c.txs, k)
             && w.c.txs[k].amount == w.g.txs[k].amount == w.b.txs[k].amount
             && w.c.txs[k].currency == w.g.txs[k].currency == w.b.txs[k].currency
             && w.c.txs[k].approval == w.g.txs[k].approval == w.b.txs[k].approval)
  }

  /** Every opening of the exit barrier was paid for, by exactly one payment of the session it names. */
  lemma OpeningsAreBacked(w: World, opening: Opening)
    requires SafelyReachable(w) && opening in w.p.openings
    ensures exists k :: BackedBy(w, opening.pmsId, k)
    ensures forall k, l | BackedBy(w, opening.pmsId, k) && BackedBy(w, opening.pmsId, l) :: k == l
  {
    ReachableGood(w);
    var k := OpeningRequest(w.p, opening);
    RequestBacked(w, k);
    forall k, l | BackedBy(w, opening.pmsId, k) && BackedBy(w, opening.pmsId, l) ensures k == l {
      assert k.ref.id == l.ref.id;
    }
  }

  lemma OpeningRequest(p: Pms, opening: Opening) returns (k: Key)
    requires PaidByRequest(p.sessions, p.requests) && BarrierLog(p.sessions, p.openings) && opening in p.openings
    ensures k in p.requests && p.requests[k].pmsId == opening.pmsId
  {
    var id := opening.pmsId;
    assert opening == OnPayment(id) || opening == OnExit(id);
    assert id in p.sessions && p.sessions[id].status != PmsStatus.Active;
    k :| k in p.requests && p.requests[k].pmsId == id;
  }

  lemma RequestBacked(w: World, k: Key)
    requires Base(w, {}) && k in w.p.requests
    ensures BackedBy(w, w.p.requests[k].pmsId, k)
  {
    assert NoticeOf(w.b.sessions, w.b.txs, w.p.requests[k]);
  }

  /** A PMS session's openings are exactly what its status says: none while active, one when its payment was
      recorded, one more when it left; never two of a kind. */
  lemma OpeningsFollowStatus(w: World, id: PmsId)
    requires SafelyReachable(w) && id in w.p.sessions
    ensures multiset(w.p.openings)[OnPayment(id)] == if w.p.sessions[id].status == PmsStatus.Active then 0 else 1
    ensures multiset(w.p.openings)[OnExit(id)] == if w.p.sessions[id].status == Exited then 1 else 0
  {
    ReachableGood(w);
    OnceInMultiset(w.p.openings, OnPayment(id));
    OnceInMultiset(w.p.openings, OnExit(id));
  }

  lemma {:induction false} OnceInMultiset<T>(s: seq<T>, x: T)
    requires forall i, j | 0 <= i < j < |s| :: s[i] != s[j]
    ensures multiset(s)[x] == if x in s then 1 else 0
  {
    if s != [] {
      assert s == [s[0]] + s[1..];
      OnceInMultiset(s[1..], x);
    }
  }

  // ----- payments are single

  /** A session has at most one successful transaction under each spelling of its id, in every run. */
  lemma OneSuccessPerSpelling(w: World, k: Key, l: Key)
    requires Reachable(w) && Succeeded(w.b.txs, k) && Succeeded(w.b.txs, l) && k.ref == l.ref
    ensures k == l
  {
    ReachableBase(w);
  }

  /** Over all spellings of its id a session can be paid twice, exactly where the missing check would have stopped it: a payment
      adds a second success to a session if and only if it finds the session completed. */
  lemma SecondSuccessExactly(w: World, step: Step, key: Key)
    requires Reachable(w) && step.Pay? && key == Key(step.ref, step.car, step.amount, step.currency)
    requires !Succeeded(w.b.txs, key) && Succeeded(Next(w, step).b.txs, key) && key.ref.id in w.b.sessions
    ensures (exists l :: l != key && Succeeded(Next(w, step).b.txs, l) && l.ref.id == key.ref.id)
            <==> w.b.sessions[key.ref.id].status == Completed
  {
    ReachableBase(w);
    PaymentAddsOnly(w, step.car, step.ref, step.amount, step.currency, step.draw, step.links);
    SecondSuccess(w.b.sessions, w.b.txs, w.b.quotes, Next(w, step).b.txs, key);
  }

  lemma SecondSuccess(s: map<SessionId, Session>, txs: map<Key, Tx>, quotes: map<SessionRef, Quote>, txs': map<Key, Tx>, key: Key)
    requires CompletedByPayment(s, txs) && Settles(s, txs, quotes) && Elsewhere(txs, txs', key) && !Succeeded(txs, key) && key.ref.id in s
    ensures (exists l :: l != key && Succeeded(txs', l) && l.ref.id == key.ref.id) <==> s[key.ref.id].status == Completed
  {
    if s[key.ref.id].status == Completed {
      var l :| Succeeded(txs, l) && l.ref.id == key.ref.id;
      assert Succeeded(txs', l);
    }
    if l :| l != key && Succeeded(txs', l) && l.ref.id == key.ref.id {
      assert Succeeded(txs, l);
    }
  }

  // ----- single payments make safe exits

  ghost predicate PaidOnce(txs: map<Key, Tx>) {
    forall k, l | Succeeded(txs, k) && Succeeded(txs, l) && k.ref.id == l.ref.id :: k == l
  }

  /** A payment that adds a success finds its session ongoing. */
  ghost predicate OpenPay(w: World, step: Step) {
    step.Pay? ==>
      var key := Key(step.ref, step.car, step.amount, step.currency);
      !Succeeded(w.b.txs, key) && Succeeded(Next(w, step).b.txs, key) ==> key.ref.id in w.b.sessions && w.b.sessions[key.ref.id].status == Ongoing
  }

  ghost predicate OpenRun(w: World, steps: seq<Step>)
    decreases |steps|
  {
    steps != [] ==> OpenPay(w, steps[0]) && OpenRun(Next(w, steps[0]), steps[1..])
  }

  lemma TxsKept(w: World, step: Step)
    requires Possible(w, step) && !step.Pay?
    ensures Next(w, step).b.txs == w.b.txs
  {
    match step
    case Enter(_, _, _, _, _, _, _, _) => EnteredBackend(w, step);
    case AskFee(car, ref, atSlot, link) => FeeAskedFrame(w, car, ref, atSlot, link);
    case Retry(txId, link) => RetriedFrame(w, txId, link);
    case Wait(seconds) => WaitedFrame(w, seconds);
    case _ =>
  }

  lemma PaidOncePayment(w: World, step: Step, key: Key)
    requires Base(w, {}) && PaidOnce(w.b.txs) && Possible(w, step) && step.Pay? && key == Key(step.ref, step.car, step.amount, step.currency)
    ensures PaidOnce(Next(w, step).b.txs) <==> OpenPay(w, step)
  {
    var txs' := Next(w, step).b.txs;
    PaymentAddsOnly(w, step.car, step.ref, step.amount, step.currency, step.draw, step.links);
    StepGrown(w, step);
    PaidOnceAfter(w.b.txs, txs', key);
    if !Succeeded(w.b.txs, key) && Succeeded(txs', key) {
      PaysKnownSession(w, key, step.draw, step.links);
      SecondSuccess(w.b.sessions, w.b.txs, w.b.quotes, txs', key);
    }
  }

  /** Sessions stay paid at most once if and only if no payment succeeds for a completed one. */
  lemma PaidOnceExactly(w: World, step: Step)
    requires Base(w, {}) && PaidOnce(w.b.txs) && Possible(w, step)
    ensures PaidOnce(Next(w, step).b.txs) <==> OpenPay(w, step)
  {
    if step.Pay? {
      var key := Key(step.ref, step.car, step.amount, step.currency);
      PaidOncePayment(w, step, key);
    } else {
      TxsKept(w, step);
    }
  }

  ghost predicate PaidOnceThroughout(w: World, steps: seq<Step>)
    decreases |steps|
  {
    PaidOnce(w.b.txs) && (steps != [] ==> PaidOnceThroughout(Next(w, steps[0]), steps[1..]))
  }

  /** Over whole runs of any spellings: a session never has two successes if and only if every payment that adds a success
      finds its session ongoing. */
  lemma {:induction false} PaidOnceRunExactly(w: World, steps: seq<Step>)
    requires Base(w, {}) && PaidOnce(w.b.txs) && PossibleRun(w, steps)
    ensures PaidOnceThroughout(w, steps) <==> OpenRun(w, steps)
    decreases |steps|
  {
    if steps != [] {
      PaidOnceExactly(w, steps[0]);
      StepBase(w, steps[0]);
      if PaidOnce(Next(w, steps[0]).b.txs) {
        PaidOnceRunExactly(Next(w, steps[0]), steps[1..]);
      }
    }
  }

  lemma PaysKnownSession(w: World, key: Key, draw: Draw, links: Links)
    requires Rows(w.b.sessions, w.b.txs)
    requires !Succeeded(w.b.txs, key) && Succeeded(Payment(w, key.car, key.ref, key.amount, key.currency, draw, links).0.b.txs, key)
    ensures Accepted(w, key)
  {
    PaymentCases(w, key, draw, links);
  }

  lemma PaidOnceAfter(txs: map<Key, Tx>, txs': map<Key, Tx>, key: Key)
    requires PaidOnce(txs) && Elsewhere(txs, txs', key) && (Succeeded(txs, key) ==> Succeeded(txs', key))
    ensures PaidOnce(txs') <==> (!Succeeded(txs, key) && Succeeded(txs', key) ==> forall l | l != key && Succeeded(txs', l) :: l.ref.id != key.ref.id)
  {
    forall k | k != key ensures Succeeded(txs', k) <==> Succeeded(txs, k) {
    }
  }

  /** While sessions are paid at most once, every notice the PMS records finds its session active. */
  lemma PaidOnceFirstNotice(w: World, step: Step)
    requires Good(w) && Possible(w, step) && PaidOnce(Next(w, step).b.txs)
    ensures FirstNotice(w, step)
  {
    StepBase(w, step);
    StepGrown(w, step);
    var w' := Next(w, step);
    RequestsOfOne(w'.b.sessions, w'.b.txs, w'.p.sessions, w'.p.requests);
    OnlyFirstNotices(w.p, w'.p);
  }

  lemma RequestsOfOne(s: map<SessionId, Session>, txs: map<Key, Tx>, pms: map<PmsId, PmsSession>, requests: map<Key, Notice>)
    requires PaidOnce(txs) && Linked(s, pms) && Requests(s, txs, requests)
    ensures OneRequestEach(requests)
  {
    forall k, l | k in requests && l in requests && requests[k].pmsId == requests[l].pmsId ensures k == l {
      assert NoticeOf(s, txs, requests[k]) && NoticeOf(s, txs, requests[l]);
    }
  }

  /** So a run whose payments find their sessions ongoing is safe. */
  lemma {:induction false} OpenIsSafe(w: World, steps: seq<Step>)
    requires Good(w) && PaidOnce(w.b.txs) && PossibleRun(w, steps) && OpenRun(w, steps)
    ensures FirstNoticeRun(w, steps) && PaidOnce(Run(w, steps).b.txs)
    decreases |steps|
  {
    if steps != [] {
      PaidOnceExactly(w, steps[0]);
      PaidOnceFirstNotice(w, steps[0]);
      StepGood(w, steps[0]);
      OpenIsSafe(Next(w, steps[0]), steps[1..]);
    }
  }

  // ----- one spelling per session makes single payments

  ghost predicate SpelledBy(txs: map<Key, Tx>, spelling: SessionId -> nat) {
    forall k | k in txs :: k.ref.spelling == spelling(k.ref.id)
  }

  lemma ConsistentStep(w: World, step: Step, spelling: SessionId -> nat)
    requires Base(w, {}) && SpelledBy(w.b.txs, spelling) && Spells(step, spelling) && Possible(w, step)
    ensures OpenPay(w, step) && SpelledBy(Next(w, step).b.txs, spelling)
  {
    if step.Pay? {
      var key := Key(step.ref, step.car, step.amount, step.currency);
      PaymentAddsOnly(w, step.car, step.ref, step.amount, step.currency, step.draw, step.links);
      if !Succeeded(w.b.txs, key) && Succeeded(Next(w, step).b.txs, key) {
        PaysKnownSession(w, key, step.draw, step.links);
        UnpaidRef(w.b.sessions, w.b.txs, w.b.quotes, key);
      }
    } else {
      TxsKept(w, step);
    }
  }

  lemma {:induction false} ConsistentIsOpen(w: World, steps: seq<Step>, spelling: SessionId -> nat)
    requires Base(w, {}) && SpelledBy(w.b.txs, spelling) && PossibleRun(w, steps) && ConsistentRun(steps, spelling)
    ensures OpenRun(w, steps)
    decreases |steps|
  {
    if steps != [] {
      assert Spells(steps[0], spelling);
      ConsistentStep(w, steps[0], spelling);
      StepBase(w, steps[0]);
      assert forall i | 0 <= i < |steps| - 1 :: steps[1..][i] == steps[i + 1];
      ConsistentIsOpen(Next(w, steps[0]), steps[1..], spelling);
    }
  }

  /** Any run whose payments spell each session id in one way, the canonical one or another, is safe, and pays every session
      at most once, although payment never checks that the session is still active. */
  lemma ConsistentRunsAreSafe(now: Time, rate: nat, steps: seq<Step>, spelling: SessionId -> nat)
    requires PossibleRun(Start(now, rate), steps) && ConsistentRun(steps, spelling)
    ensures SafelyReachable(Run(Start(now, rate), steps)) && PaidOnce(Run(Start(now, rate), steps).b.txs)
  {
    StartGood(now, rate);
    ConsistentIsOpen(Start(now, rate), steps, spelling);
    OpenIsSafe(Start(now, rate), steps);
  }

  lemma CardSettledAddsOnly(w: World, key: Key, billingKey: BillingKey, draw: Draw, links: Links)
    requires key.ref.id in w.b.sessions
    ensures Elsewhere(w.b.txs, CardSettled(w, key, billingKey, draw, links).b.txs, key)
  {
    var b1 := Inserted(w.b, key, Uuid4(draw.tx), Some(billingKey));
    var (w2, result) := PgCalled(w.(b := b1), key, billingKey, draw, links);
    CalledFrame(w, key, billingKey, draw, links, b1);
    if result.Approved? {
      FinishedGrown(w2, key, Some(result.pgTxId), result.approval);
    }
  }

  lemma FreeAddsOnly(w: World, key: Key, links: Links)
    requires key.ref.id in w.b.sessions
    ensures Elsewhere(w.b.txs, FreePayment(w, key, links).0.b.txs, key)
  {
    var w1 := w.(b := Inserted(w.b, key, Uuid5(key), None));
    var w2 := Finished(w1, key, None, FREE);
    FinishedGrown(w1, key, None, FREE);
    NotifiedFrame(w2, NoticeFor(w2.b, key), links.pms);
  }

  lemma CardAddsOnly(w: World, key: Key, billingKey: BillingKey, draw: Draw, links: Links)
    requires key.ref.id in w.b.sessions
    ensures Elsewhere(w.b.txs, CardPayment(w, key, billingKey, draw, links).0.b.txs, key)
  {
    var w' := CardSettled(w, key, billingKey, draw, links);
    CardSettledAddsOnly(w, key, billingKey, draw, links);
    NotifiedFrame(w', NoticeFor(w'.b, key), links.pms);
  }

  /** A payment request touches no transaction but its own key's. */
  lemma PaymentAddsOnly(w: World, car: CarId, ref: SessionRef, amount: int, currency: Currency, draw: Draw, links: Links)
    ensures Elsewhere(w.b.txs, Payment(w, car, ref, amount, currency, draw, links).0.b.txs, Key(ref, car, amount, currency))
  {
    var key := Key(ref, car, amount, currency);
    if ref in w.b.quotes && QuotedAt(w.b.quotes, key) && ref.id in w.b.sessions && w.b.sessions[ref.id].car == car {
      if key in w.b.txs {
        NotifiedFrame(w, NoticeFor(w.b, key), links.pms);
      } else if amount == 0 {
        FreeAddsOnly(w, key, links);
      } else if amount > 0 && car in w.b.billingKeys && w.b.billingKeys[car].active {
        CardAddsOnly(w, key, w.b.billingKeys[car].billingKey, draw, links);
      }
    }
  }

  /** Success transactions and outbox rows are in bijection, with matching fields. */
  lemma OutboxBijection(w: World)
    requires Reachable(w)
    ensures forall k | Succeeded(w.b.txs, k) :: w.b.txs[k].txId in w.b.outbox && PayloadOf(w.b.sessions, w.b.txs, k, w.b.outbox[w.b.txs[k].txId])
    ensures forall t | t in w.b.outbox :: exists k :: Succeeded(w.b.txs, k) && w.b.txs[k].txId == t
    ensures forall k, l | k in w.b.txs && l in w.b.txs && w.b.txs[k].txId == w.b.txs[l].txId :: k == l
  {
    ReachableBase(w);
  }

  /** A success is known to the PMS, or its notice waits as a retry event with exactly the payload it needs, or the
      seven days of its last retry event are over. */
  lemma NoPaidSessionForgotten(w: World, k: Key)
    requires Reachable(w) && Succeeded(w.b.txs, k)
    ensures k.ref.id in w.b.sessions
    ensures || (k in w.p.requests && w.p.requests[k] == NoticeFor(w.b, k))
            || (w.b.txs[k].txId in w.b.retries && w.b.retries[w.b.txs[k].txId].notice == NoticeFor(w.b, k))
            || (w.b.txs[k].txId in w.h.retryUntil && w.h.retryUntil[w.b.txs[k].txId] <= w.now)
  {
    ReachableBase(w);
    assert Remembered(w.now, w.b.txs, w.b.retries, w.p.requests, w.h, k);
    if k in w.p.requests {
      assert NoticeOf(w.b.sessions, w.b.txs, w.p.requests[k]);
    } else if w.b.txs[k].txId in w.b.retries {
      assert NoticeOf(w.b.sessions, w.b.txs, w.b.retries[w.b.txs[k].txId].notice);
    }
  }

  // ----- the backend and the PMS agree

  /** Each backend session is its own PMS session, of the same place and entry time; what is ongoing here is
      active there, and what is paid or gone there is completed here. */
  lemma SessionsSimulate(w: World, s: SessionId)
    requires SafelyReachable(w) && s in w.b.sessions
    ensures var id := w.b.sessions[s].pmsId;
            && id in w.p.sessions && w.p.sessions[id].slot == w.b.sessions[s].slot && w.p.sessions[id].entry == w.b.sessions[s].entry
            && (w.b.sessions[s].status == Ongoing ==> w.p.sessions[id].status == PmsStatus.Active)
            && (w.p.sessions[id].status in {Paid, Exited} ==> w.b.sessions[s].status == Completed)
            && (forall t | t in w.b.sessions && w.b.sessions[t].pmsId == id :: t == s)
  {
    ReachableGood(w);
  }

  /** The session cache never says more than the table: an entry is a session of its slot with its status, an active
      session's slot is its own or empty, so "paid" in the cache is never for another car's session. */
  lemma CacheAgreesWithTable(w: World, slot: Slot)
    requires SafelyReachable(w) && slot in w.p.cache
    ensures var e := w.p.cache[slot];
            && e.pmsId in w.p.sessions && w.p.sessions[e.pmsId].slot == slot && w.p.sessions[e.pmsId].status == e.status && e.status != Exited
            && (forall id | id in w.p.sessions && w.p.sessions[id].slot == slot && w.p.sessions[id].status == PmsStatus.Active :: id == e.pmsId)
  {
    ReachableGood(w);
  }

  /** A payment request that is not rejected asks for the present fee, or at most one block's price less. */
  lemma PriceBound(w: World, step: Step)
    requires SafelyReachable(w) && step.Pay?
    requires Payment(w, step.car, step.ref, step.amount, step.currency, step.draw, step.links).1.Replied?
    ensures var fee := Fees.Calculate(w.p.rate, w.b.sessions[step.ref.id].entry, w.now);
            fee.Fee? && fee.amount - w.p.rate <= step.amount <= fee.amount && step.currency == KRW
  {
    ReachableGood(w);
    var q := w.b.quotes[step.ref];
    Fees.StalenessBound(w.p.rate, w.b.sessions[step.ref.id].entry, q.createdAt, w.now);
  }

  /** For an ongoing session the lookup by lot and plate and the fallback by id find the same PMS session: the one the backend
      session was made for. */
  lemma LookupsAgree(w: World, id: SessionId, atSlot: Option<PmsId>)
    requires SafelyReachable(w) && id in w.b.sessions && w.b.sessions[id].status == Ongoing
    requires WithStatusAt(w.p.sessions, w.b.sessions[id].slot, PmsStatus.Active, atSlot)
    ensures FoundSession(w.p, w.b.sessions[id].pmsId, atSlot) == FoundSession(w.p, w.b.sessions[id].pmsId, None) == atSlot == Some(w.b.sessions[id].pmsId)
  {
    ReachableGood(w);
    LookupOwn(w.b.sessions, w.p.sessions, id, atSlot);
  }

  // ----- nothing is taken back

  /** Records only grow: ids, successes, requests and openings stay as they were. */
  ghost predicate Grown(w: World, w': World) {
    && w.now <= w'.now && w.p.rate == w'.p.rate
    && (forall k | k in w.b.txs :: k in w'.b.txs && w'.b.txs[k] == w.b.txs[k])
    && (forall k | k in w.g.txs :: k in w'.g.txs && w'.g.txs[k] == w.g.txs[k])
    && (forall k | k in w.c.txs :: k in w'.c.txs && w'.c.txs[k] == w.c.txs[k])
    && (forall k | k in w.p.requests :: k in w'.p.requests && w'.p.requests[k] == w.p.requests[k])
    && (forall id | id in w.p.sessions :: id in w'.p.sessions && w'.p.sessions[id].slot == w.p.sessions[id].slot && w'.p.sessions[id].entry == w.p.sessions[id].entry)
    && SessionsKept(w.b.sessions, w'.b.sessions)
    && w.p.openings <= w'.p.openings
  }

  lemma RecordingGrown(w: World, n: Notice)
    ensures Grown(w, w.(p := Recording(w.p, n, w.now).0))
  {
  }

  lemma NotifiedGrown(w: World, n: Notice, link: Delivery)
    ensures Grown(w, Notified(w, n, link))
  {
    RecordingGrown(w, n);
  }

  lemma FinishedGrown(w: World, key: Key, pgTxId: Option<nat>, approval: ApprovalNo)
    requires key in w.b.txs && key.ref.id in w.b.sessions
    ensures var w' := Finished(w, key, pgTxId, approval);
            && w' == w.(b := w'.b) && SessionsKept(w.b.sessions, w'.b.sessions)
            && (forall k | k in w.b.txs && k != key :: k in w'.b.txs && w'.b.txs[k] == w.b.txs[k])
            && Elsewhere(w.b.txs, w'.b.txs, key)
  {
  }

  lemma CalledGrown(w: World, key: Key, billingKey: BillingKey, draw: Draw, links: Links)
    ensures Grown(w, PgCalled(w, key, billingKey, draw, links).0)
  {
  }

  lemma GrownTransitive(u: World, v: World, w: World)
    requires Grown(u, v) && Grown(v, w)
    ensures Grown(u, w)
  {
  }

  lemma FreeGrown(w: World, key: Key, links: Links)
    requires key !in w.b.txs && key.ref.id in w.b.sessions
    ensures Grown(w, FreePayment(w, key, links).0)
  {
    var w1 := w.(b := Inserted(w.b, key, Uuid5(key), None));
    var w2 := Finished(w1, key, None, FREE);
    FinishedGrown(w1, key, None, FREE);
    assert Grown(w, w2);
    NotifiedGrown(w2, NoticeFor(w2.b, key), links.pms);
    GrownTransitive(w, w2, FreePayment(w, key, links).0);
  }

  lemma CardSettledGrown(w: World, key: Key, billingKey: BillingKey, draw: Draw, links: Links)
    requires key !in w.b.txs && key.ref.id in w.b.sessions
    ensures Grown(w, CardSettled(w, key, billingKey, draw, links))
  {
    var w1 := w.(b := Inserted(w.b, key, Uuid4(draw.tx), Some(billingKey)));
    var (w2, result) := PgCalled(w1, key, billingKey, draw, links);
    CalledGrown(w1, key, billingKey, draw, links);
    CalledFrame(w1, key, billingKey, draw, links, w.b);
    if result.Approved? {
      FinishedGrown(w2, key, Some(result.pgTxId), result.approval);
    }
  }

  lemma CardGrown(w: World, key: Key, billingKey: BillingKey, draw: Draw, links: Links)
    requires key !in w.b.txs && key.ref.id in w.b.sessions
    ensures Grown(w, CardPayment(w, key, billingKey, draw, links).0)
  {
    var w' := CardSettled(w, key, billingKey, draw, links);
    CardSettledGrown(w, key, billingKey, draw, links);
    NotifiedGrown(w', NoticeFor(w'.b, key), links.pms);
    GrownTransitive(w, w', Notified(w', NoticeFor(w'.b, key), links.pms));
  }

  lemma PaymentGrown(w: World, car: CarId, ref: SessionRef, amount: int, currency: Currency, draw: Draw, links: Links)
    ensures Grown(w, Payment(w, car, ref, amount, currency, draw, links).0)
  {
    var key := Key(ref, car, amount, currency);
    if ref in w.b.quotes && QuotedAt(w.b.quotes, key) && ref.id in w.b.sessions && w.b.sessions[ref.id].car == car {
      if key in w.b.txs {
        NotifiedGrown(w, NoticeFor(w.b, key), links.pms);
      } else if amount == 0 {
        FreeGrown(w, key, links);
      } else if amount > 0 && car in w.b.billingKeys && w.b.billingKeys[car].active {
        CardGrown(w, key, w.b.billingKeys[car].billingKey, draw, links);
      }
    }
  }

  lemma EnteredGrown(w: World, step: Step)
    requires step.Enter? && Possible(w, step)
    ensures Grown(w, Next(w, step))
  {
    EnteredBackend(w, step);
    EnteredPms(w, step);
  }

  lemma LeftGrown(w: World, slot: Slot, paid: Option<PmsId>)
    ensures Grown(w, Next(w, Leave(slot, paid)))
  {
  }

  lemma RetriedGrown(w: World, txId: TxId, link: Delivery)
    ensures Grown(w, Retried(w, txId, link))
  {
    if txId in w.b.retries {
      RecordingGrown(w, w.b.retries[txId].notice);
    }
  }

  lemma WaitedGrown(w: World, seconds: nat)
    ensures Grown(w, Next(w, Wait(seconds)))
  {
  }

  lemma StepGrown(w: World, step: Step)
    requires Possible(w, step)
    ensures Grown(w, Next(w, step))
  {
    match step
    case Enter(_, _, _, _, _, _, _, _) => EnteredGrown(w, step);
    case AskFee(car, ref, atSlot, link) => FeeAskedFrame(w, car, ref, atSlot, link);
    case Pay(car, ref, amount, currency, draw, links) => PaymentGrown(w, car, ref, amount, currency, draw, links);
    case Retry(txId, link) => RetriedGrown(w, txId, link);
    case Leave(slot, paid) => LeftGrown(w, slot, paid);
    case Wait(seconds) => WaitedGrown(w, seconds);
    case LoseQuotes(refs) => QuotesLostFrame(w, refs);
    case _ => EnvironmentFrame(w, step);
  }

  /** Whatever happens, no ledger row is ever changed or removed between handlers, and the barrier log only grows. */
  lemma {:induction false} RunGrown(w: World, steps: seq<Step>)
    requires PossibleRun(w, steps)
    ensures Grown(w, Run(w, steps))
    decreases |steps|
  {
    if steps != [] {
      var w1 := Next(w, steps[0]);
      StepGrown(w, steps[0]);
      RunGrown(w1, steps[1..]);
      GrownTransitive(w, w1, Run(w1, steps[1..]));
    }
  }

  // ----- asking again

  /** The reply is what the row of the key says. */
  ghost predicate RowSays(w: World, key: Key, r: PayResult) {
    && key in w.b.txs && key.ref.id in w.b.sessions && w.b.sessions[key.ref.id].car == key.car
    && r == Replied(w.b.txs[key].status, w.b.txs[key].txId, w.b.txs[key].approval)
  }

  lemma FreeReply(w: World, key: Key, links: Links)
    requires key.ref.id in w.b.sessions && w.b.sessions[key.ref.id].car == key.car
    ensures RowSays(FreePayment(w, key, links).0, key, FreePayment(w, key, links).1)
  {
    var w1 := w.(b := Inserted(w.b, key, Uuid5(key), None));
    var w2 := Finished(w1, key, None, FREE);
    FinishedGrown(w1, key, None, FREE);
    assert w2.b.txs[key].txId == Uuid5(key);
    NotifiedFrame(w2, NoticeFor(w2.b, key), links.pms);
  }

  lemma CardReply(w: World, key: Key, billingKey: BillingKey, draw: Draw, links: Links)
    requires key !in w.b.txs && key.ref.id in w.b.sessions && w.b.sessions[key.ref.id].car == key.car
    ensures RowSays(CardPayment(w, key, billingKey, draw, links).0, key, CardPayment(w, key, billingKey, draw, links).1)
  {
    var w' := CardSettled(w, key, billingKey, draw, links);
    CardSettledGrown(w, key, billingKey, draw, links);
    NotifiedFrame(w', NoticeFor(w'.b, key), links.pms);
  }

  /** Whatever a payment request that is not rejected answers is what the table then says under its key. */
  lemma ReplyIsRow(w: World, key: Key, draw: Draw, links: Links)
    requires Payment(w, key.car, key.ref, key.amount, key.currency, draw, links).1.Replied?
    ensures var (w', r) := Payment(w, key.car, key.ref, key.amount, key.currency, draw, links); RowSays(w', key, r)
  {
    if key in w.b.txs {
      NotifiedFrame(w, NoticeFor(w.b, key), links.pms);
    } else if key.amount == 0 {
      FreeReply(w, key, links);
    } else {
      CardReply(w, key, w.b.billingKeys[key.car].billingKey, draw, links);
    }
  }

  lemma KnownKeyAnswers(v: World, key: Key, r: PayResult, draw: Draw, links: Links)
    requires RowSays(v, key, r)
    ensures var (v', r') := Payment(v, key.car, key.ref, key.amount, key.currency, draw, links);
            && v'.b.txs == v.b.txs && v'.b.sessions == v.b.sessions && v'.b.outbox == v.b.outbox && v'.g == v.g && v'.c == v.c
            && r' == if key.ref !in v.b.quotes then Rejected(QuoteNotFound)
                     else if !QuotedAt(v.b.quotes, key) then Rejected(AmountCurrencyMismatch) else r
  {
    NotifiedFrame(v, NoticeFor(v.b, key), links.pms);
  }

  /** The same request at any later point of any run gets the same answer as long as its quote lives, and whatever it gets,
      nothing is charged, written to a ledger or queued again. */
  lemma RepeatedPayment(w: World, key: Key, draw: Draw, links: Links, steps: seq<Step>, draw': Draw, links': Links)
    requires Payment(w, key.car, key.ref, key.amount, key.currency, draw, links).1.Replied?
    requires PossibleRun(Payment(w, key.car, key.ref, key.amount, key.currency, draw, links).0, steps)
    ensures var (w1, r) := Payment(w, key.car, key.ref, key.amount, key.currency, draw, links);
            var v := Run(w1, steps);
            var (v', r') := Payment(v, key.car, key.ref, key.amount, key.currency, draw', links');
            && v'.b.txs == v.b.txs && v'.b.sessions == v.b.sessions && v'.b.outbox == v.b.outbox && v'.g == v.g && v'.c == v.c
            && r' == if key.ref !in v.b.quotes then Rejected(QuoteNotFound)
                     else if !QuotedAt(v.b.quotes, key) then Rejected(AmountCurrencyMismatch) else r
  {
    var (w1, r) := Payment(w, key.car, key.ref, key.amount, key.currency, draw, links);
    ReplyIsRow(w, key, draw, links);
    RunGrown(w1, steps);
    KnownKeyAnswers(Run(w1, steps), key, r, draw', links');
  }

  function Rank(status: PmsStatus): nat {
    match status
    case Active => 0
    case Paid => 1
    case Exited => 2
  }

  /** A PMS session only moves from active to paid to exited. */
  lemma StatusesMoveForward(w: World, steps: seq<Step>, id: PmsId)
    requires Good(w) && PossibleRun(w, steps) && FirstNoticeRun(w, steps) && id in w.p.sessions
    ensures id in Run(w, steps).p.sessions && Rank(w.p.sessions[id].status) <= Rank(Run(w, steps).p.sessions[id].status)
  {
    RunGood(w, steps);
    RunGrown(w, steps);
    LogDecides(w.p, Run(w, steps).p, id);
  }

  lemma LogDecides(p: Pms, p': Pms, id: PmsId)
    requires BarrierLog(p.sessions, p.openings) && BarrierLog(p'.sessions, p'.openings)
    requires p.openings <= p'.openings && id in p.sessions && id in p'.sessions
    ensures Rank(p.sessions[id].status) <= Rank(p'.sessions[id].status)
  {
    assert forall o | o in p.openings :: o in p'.openings;
    assert OnPayment(id) in p.openings ==> OnPayment(id) in p'.openings;
    assert OnExit(id) in p.openings ==> OnExit(id) in p'.openings;
  }
}
