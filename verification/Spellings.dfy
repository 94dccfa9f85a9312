/** Why canonical spelling matters: the fee quote and the idempotency key use the session id as the client spelled it,
    the tables use the id it parses to. Two spellings of one session can both be quoted and both be paid, and the second
    notice then marks a session paid that has already left, together with whatever car stands in its place. */
module Spellings {
  import opened Ledgers
  import opened CardCompany
  import opened PaymentGateway
  import opened ParkingSystem
  import opened CarPayIn
  import opened Protocol
  import opened Invariants
  import opened Theorems
  import Safety

  const GATE := Slot(1, 1)
  const ALL_HEARD := Links(Received, Received, Received)
  const FIRST := Key(SessionRef(1, 0), 1, 500, KRW)
  const SECOND := Key(SessionRef(1, 1), 1, 500, KRW)

  const KEYS := map[1 := BillingKeyRow(7, true)]
  const PG_KEYS := map[7 := PgKey(1, 9, 1234, true)]
  const TOKENS := map[9 := true]

  lemma {:induction false} RunThen(w: World, steps: seq<Step>, step: Step)
    requires PossibleRun(w, steps) && Possible(Run(w, steps), step)
    ensures PossibleRun(w, steps + [step]) && Run(w, steps + [step]) == Next(Run(w, steps), step)
    decreases |steps|
  {
    if steps == [] {
      assert steps + [step] == [step];
      assert PossibleRun(Next(w, step), []) && Run(Next(w, step), []) == Next(w, step);
    } else {
      RunThen(Next(w, steps[0]), steps[1..], step);
      assert (steps + [step])[0] == steps[0] && (steps + [step])[1..] == steps[1..] + [step];
    }
  }

  lemma ReachableThen(w: World, step: Step, w': World)
    requires Reachable(w) && Possible(w, step) && Next(w, step) == w'
    ensures Reachable(w')
  {
    var now, rate, steps :| PossibleRun(Start(now, rate), steps) && w == Run(Start(now, rate), steps);
    RunThen(Start(now, rate), steps, step);
  }

  // ----- the run: register a card, pre-register and enter, let a minute pass, quote both spellings, pay the first,
  //       leave, let the next car enter, pay the second, leave

  const S0 := SetBillingKeys(KEYS)
  const S1 := SetPgKeys(PG_KEYS)
  const S2 := SetTokens(TOKENS)
  const S3 := PreRegister(1, GATE, Received)
  const S4 := Enter(GATE, 0, 1, None, Received, 1, None, None)
  const S5 := Wait(60)
  const S6 := AskFee(1, SessionRef(1, 0), Some(1), Received)
  const S7 := AskFee(1, SessionRef(1, 1), Some(1), Received)
  const S8 := Pay(1, SessionRef(1, 0), 500, KRW, Draw(1, 1, 1, 1), ALL_HEARD)
  const S9 := Leave(GATE, None)
  const S10 := Enter(GATE, 60, 2, None, Received, 2, None, None)
  const S11 := Pay(1, SessionRef(1, 1), 500, KRW, Draw(2, 2, 2, 2), ALL_HEARD)
  const S12 := Leave(GATE, None)

  function W0(): World { Start(0, 500) }
  function W1(): World { var w := W0(); w.(b := w.b.(billingKeys := KEYS)) }
  function W2(): World { var w := W1(); w.(g := Pg(PG_KEYS, map[])) }
  function W3(): World { var w := W2(); w.(c := Card(TOKENS, map[])) }
  function W4(): World {
    var w := W3();
    w.(b := w.b.(preNotify := map[GATE := PreNotify(1, 3600)]), p := w.p.(preRegistrations := map[GATE := 3600]))
  }
  function Parked(entry: Time, id: PmsId): (PmsSession, CacheEntry) {
    (PmsSession(GATE, entry, PmsStatus.Active, None), CacheEntry(id, entry, PmsStatus.Active, entry + SESSION_TTL_SECONDS))
  }
  function W5(): World {
    var w := W4();
    w.(b := w.b.(sessions := map[1 := Session(1, 1, GATE, 0, Ongoing, None)], preNotify := map[]),
       p := w.p.(sessions := map[1 := Parked(0, 1).0], cache := map[GATE := Parked(0, 1).1], preRegistrations := map[]))
  }
  function W6(): World { var w := W5(); w.(now := 60) }
  function Quote500(): Quote { Quote(500, 1, KRW, 60, 960) }
  function W7(): World { var w := W6(); w.(b := w.b.(quotes := map[SessionRef(1, 0) := Quote500()])) }
  function W8(): World { var w := W7(); w.(b := w.b.(quotes := map[SessionRef(1, 0) := Quote500(), SessionRef(1, 1) := Quote500()])) }

  function BackendRow(n: nat): Tx { Tx(Uuid4(n), 1, 1, Some(7), 500, KRW, Success, Some(n), Some(Issued(n))) }
  function PgRow(n: nat): PgTx { PgTx(n, 7, 9, 500, KRW, Success, Some(Issued(n)), Some(n)) }
  function CardRow(n: nat): CardTx { CardTx(n, 9, 500, KRW, Success, Some(Issued(n))) }
  function Told(n: nat, key: Key): Notice { Notice(1, key.ref, Uuid4(n), 500, KRW, Some(Issued(n)), key) }

  function W9(): World {
    var w := W8();
    w.(b := w.b.(sessions := map[1 := Session(1, 1, GATE, 0, Completed, Some(60))], txs := map[FIRST := BackendRow(1)],
                 outbox := map[Uuid4(1) := Payload(FIRST.ref, 1, 1, 500, KRW, Issued(1))]),
       g := Pg(PG_KEYS, map[FIRST := PgRow(1)]), c := Card(TOKENS, map[FIRST := CardRow(1)]),
       p := w.p.(sessions := map[1 := Parked(0, 1).0.(status := Paid)], cache := map[GATE := Parked(0, 1).1.(status := Paid)],
                 requests := map[FIRST := Told(1, FIRST)], openings := [OnPayment(1)]))
  }
  function W10(): World {
    var w := W9();
    w.(p := w.p.(sessions := map[1 := PmsSession(GATE, 0, Exited, Some(60))], cache := map[], openings := [OnPayment(1), OnExit(1)]))
  }
  function W11(): World {
    var w := W10();
    w.(p := w.p.(sessions := map[1 := PmsSession(GATE, 0, Exited, Some(60)), 2 := Parked(60, 2).0], cache := map[GATE := Parked(60, 2).1]))
  }
  function W12(): World {
    var w := W11();
    w.(b := w.b.(txs := w.b.txs[SECOND := BackendRow(2)], outbox := w.b.outbox[Uuid4(2) := Payload(SECOND.ref, 1, 1, 500, KRW, Issued(2))]),
       g := w.g.(txs := w.g.txs[SECOND := PgRow(2)]),
       c := w.c.(txs := w.c.txs[SECOND := CardRow(2)]),
       p := w.p.(sessions := w.p.sessions[1 := PmsSession(GATE, 0, Paid, Some(60))],
                 cache := w.p.cache[GATE := Parked(60, 2).1.(status := Paid)],
                 requests := w.p.requests[SECOND := Told(2, SECOND)],
                 openings := w.p.openings + [OnPayment(1)]))
  }
  function W13(): World {
    var w := W12();
    w.(p := w.p.(sessions := w.p.sessions[2 := PmsSession(GATE, 60, Exited, Some(60))],
                 cache := w.p.cache - {GATE}, openings := w.p.openings + [OnExit(2)]))
  }

  lemma Registering()
    ensures Next(W0(), S0) == W1() && Next(W1(), S1) == W2() && Next(W2(), S2) == W3() && Next(W3(), S3) == W4()
  {
  }

  lemma Entering()
    ensures Possible(W4(), S4) && Next(W4(), S4) == W5()
  {
  }

  lemma Waiting()
    ensures Next(W5(), S5) == W6()
  {
  }

  lemma Quoting()
    ensures Possible(W6(), S6) && Next(W6(), S6) == W7() && Possible(W7(), S7) && Next(W7(), S7) == W8()
  {
  }

  /** A new payment with every service reachable and every key active is recorded by all of them. */
  ghost predicate AllReady(w: World, key: Key) {
    && key.car in w.b.billingKeys && w.b.billingKeys[key.car] == BillingKeyRow(7, true)
    && w.g.keys == PG_KEYS && w.c.tokens == TOKENS
    && key !in w.b.txs && key !in w.g.txs && key !in w.c.txs && key.amount > 0
    && key.ref.id in w.b.sessions && w.b.sessions[key.ref.id].car == key.car
    && key.ref in w.b.quotes && w.b.quotes[key.ref].amount == key.amount && w.b.quotes[key.ref].currency == key.currency
  }

  lemma ChargeHeard(w: World, key: Key, n: nat)
    requires AllReady(w, key) && key.amount == 500 && key.currency == KRW
    ensures PgCalled(w, key, 7, Draw(n, n, n, n), ALL_HEARD)
            == (w.(g := w.g.(txs := w.g.txs[key := PgRow(n)]), c := w.c.(txs := w.c.txs[key := CardRow(n)])), Approved(n, Issued(n)))
  {
  }

  lemma AllHeard(w: World, key: Key, n: nat)
    requires AllReady(w, key) && key.amount == 500 && key.currency == KRW && key.ref.id == 1 && key.car == 1
    ensures CardSettled(w, key, 7, Draw(n, n, n, n), ALL_HEARD)
            == Finished(w.(b := Inserted(w.b, key, Uuid4(n), Some(7)), g := w.g.(txs := w.g.txs[key := PgRow(n)]),
                           c := w.c.(txs := w.c.txs[key := CardRow(n)])), key, Some(n), Issued(n))
  {
    ChargeHeard(w, key, n);
    Safety.CalledFrame(w, key, 7, Draw(n, n, n, n), ALL_HEARD, Inserted(w.b, key, Uuid4(n), Some(7)));
  }

  lemma SettlingFirst()
    ensures CardSettled(W8(), FIRST, 7, Draw(1, 1, 1, 1), ALL_HEARD) == W9().(p := W8().p)
  {
    AllHeard(W8(), FIRST, 1);
  }

  lemma TellingFirst()
    ensures Recording(W8().p, Told(1, FIRST), 60) == (W9().p, Recorded)
  {
    var (p, r) := Recording(W8().p, Told(1, FIRST), 60);
    assert p.requests == W9().p.requests;
    assert p.sessions == W9().p.sessions;
    assert p.cache == W9().p.cache;
    assert p.openings == W9().p.openings;
  }

  lemma PayingFirst()
    ensures Possible(W8(), S8) && Next(W8(), S8) == W9()
  {
    SettlingFirst();
    TellingFirst();
    var w := W9().(p := W8().p);
    assert NoticeFor(w.b, FIRST) == Told(1, FIRST);
    assert w.b.retries - {Uuid4(1)} == w.b.retries;
    assert Payment(W8(), 1, SessionRef(1, 0), 500, KRW, Draw(1, 1, 1, 1), ALL_HEARD).0 == Notified(w, Told(1, FIRST), Received);
  }

  lemma LeavingFirst()
    ensures Possible(W9(), S9) && Next(W9(), S9) == W10()
  {
    LettingOut(W9().p, 1);
    assert W9().p.cache - {GATE} == W10().p.cache && W9().p.openings + [OnExit(1)] == W10().p.openings;
  }

  lemma EnteringFree(p: Pms)
    requires GATE !in p.preRegistrations
    ensures LprEntry(p, GATE, 60, 2, None, 60)
            == (p.(sessions := p.sessions[2 := Parked(60, 2).0], cache := p.cache[GATE := Parked(60, 2).1]), Created(2), None)
  {
  }

  lemma EnteringSecond()
    ensures Possible(W10(), S10) && Next(W10(), S10) == W11()
  {
    EnteringFree(W10().p);
    assert W10().p.sessions[2 := Parked(60, 2).0] == W11().p.sessions;
    assert W10().p.cache[GATE := Parked(60, 2).1] == W11().p.cache;
  }

  /** Completing a session that is completed already changes nothing. */
  lemma CommittingSecond(b: Backend)
    requires SECOND !in b.txs && Uuid4(2) !in b.outbox && 1 in b.sessions && b.sessions[1] == Session(1, 1, GATE, 0, Completed, Some(60))
    ensures var b1 := Inserted(b, SECOND, Uuid4(2), Some(7));
            CompletedSession(MarkedSuccess(b1, SECOND, Some(2), Issued(2), PayloadFor(b1, SECOND, Issued(2))), 1, 60)
            == b.(txs := b.txs[SECOND := BackendRow(2)], outbox := b.outbox[Uuid4(2) := Payload(SECOND.ref, 1, 1, 500, KRW, Issued(2))])
  {
    assert b.sessions[1 := b.sessions[1]] == b.sessions;
    assert b.txs[SECOND := Tx(Uuid4(2), 1, 1, Some(7), 500, KRW, Pending, None, None)][SECOND := BackendRow(2)] == b.txs[SECOND := BackendRow(2)];
  }

  lemma SettlingSecond()
    ensures CardSettled(W11(), SECOND, 7, Draw(2, 2, 2, 2), ALL_HEARD) == W12().(p := W11().p)
  {
    AllHeard(W11(), SECOND, 2);
    CommittingSecond(W11().b);
  }

  lemma TellingSecond()
    ensures Recording(W11().p, Told(2, SECOND), 60) == (W12().p, Recorded)
  {
    var (p, r) := Recording(W11().p, Told(2, SECOND), 60);
    assert p.requests == W12().p.requests;
    assert p.sessions == W12().p.sessions;
    assert p.cache == W12().p.cache;
    assert p.openings == W12().p.openings;
  }

  lemma NotifyingSecond()
    ensures Notified(W12().(p := W11().p), Told(2, SECOND), Received) == W12()
  {
    TellingSecond();
    assert W12().b.retries - {Uuid4(2)} == W12().b.retries;
  }

  lemma PayingSecond()
    ensures Possible(W11(), S11) && Next(W11(), S11) == W12()
  {
    SettlingSecond();
    NotifyingSecond();
    var w := W12().(p := W11().p);
    assert w.b.txs[SECOND] == BackendRow(2);
    assert NoticeFor(w.b, SECOND) == Told(2, SECOND);
    assert AllReady(W11(), SECOND);
    assert Payment(W11(), 1, SessionRef(1, 1), 500, KRW, Draw(2, 2, 2, 2), ALL_HEARD)
           == CardPayment(W11(), SECOND, 7, Draw(2, 2, 2, 2), ALL_HEARD);
  }

  lemma LettingOut(p: Pms, id: PmsId)
    requires GATE in p.cache && p.cache[GATE].status == Paid && p.cache[GATE].pmsId == id && id in p.sessions
    ensures LprExit(p, GATE, None, 60).0 == p.(sessions := p.sessions[id := p.sessions[id].(status := Exited, exitTime := Some(60))],
                                               cache := p.cache - {GATE}, openings := p.openings + [OnExit(id)])
  {
  }

  lemma LeavingSecond()
    ensures Possible(W12(), S12) && Next(W12(), S12) == W13()
  {
    LettingOut(W12().p, 2);
  }

  lemma ReachesStart()
    ensures Reachable(W0())
  {
    assert PossibleRun(Start(0, 500), []) && Run(Start(0, 500), []) == W0();
  }

  lemma ReachesRegistered()
    ensures Reachable(W4())
  {
    ReachesStart();
    Registering();
    ReachableThen(W0(), S0, W1());
    ReachableThen(W1(), S1, W2());
    ReachableThen(W2(), S2, W3());
    ReachableThen(W3(), S3, W4());
  }

  lemma ReachesQuoted()
    ensures Reachable(W8())
  {
    ReachesRegistered();
    Entering();
    ReachableThen(W4(), S4, W5());
    Waiting();
    ReachableThen(W5(), S5, W6());
    Quoting();
    ReachableThen(W6(), S6, W7());
    ReachableThen(W7(), S7, W8());
  }

  lemma ReachesPaidOnce()
    ensures Reachable(W9())
  {
    ReachesQuoted();
    PayingFirst();
    ReachableThen(W8(), S8, W9());
  }

  lemma ReachesNextCar()
    ensures Reachable(W11())
  {
    ReachesPaidOnce();
    LeavingFirst();
    ReachableThen(W9(), S9, W10());
    EnteringSecond();
    ReachableThen(W10(), S10, W11());
  }

  lemma ReachesPaidTwice()
    ensures Reachable(W12())
  {
    ReachesNextCar();
    PayingSecond();
    ReachableThen(W11(), S11, W12());
  }

  lemma ReachesLetOut()
    ensures Reachable(W13())
  {
    ReachesPaidTwice();
    LeavingSecond();
    ReachableThen(W12(), S12, W13());
  }

  /** One session charged twice: two card approvals and two backend successes for it. */
  ghost predicate ChargedTwice(w: World, k: Key, l: Key) {
    && k != l && Succeeded(w.b.txs, k) && Succeeded(w.b.txs, l) && w.b.txs[k].sid == w.b.txs[l].sid
    && CardPaid(w.c.txs, k) && CardPaid(w.c.txs, l)
  }

  /** An exit opened for a session without any payment request. */
  ghost predicate LetOutUnpaid(w: World, id: PmsId) {
    OnExit(id) in w.p.openings && forall k | k in w.p.requests :: w.p.requests[k].pmsId != id
  }

  lemma LastCharged()
    ensures ChargedTwice(W13(), FIRST, SECOND)
  {
    LastLedgers();
  }

  lemma LastLedgers()
    ensures W13().b.txs == map[FIRST := BackendRow(1), SECOND := BackendRow(2)]
    ensures W13().c.txs == map[FIRST := CardRow(1), SECOND := CardRow(2)]
  {
    assert W13().b == W12().b && W13().c == W12().c;
  }

  lemma LastUnpaid()
    ensures LetOutUnpaid(W13(), 2)
  {
    assert W13().p.openings[3] == OnExit(2);
    assert W13().p.requests == map[FIRST := Told(1, FIRST), SECOND := Told(2, SECOND)];
  }

  /** Not every run is safe: with two spellings of one session id the card is charged twice for the session, and the
      barrier opens for a session that nobody paid. */
  lemma TwoSpellingsPaidTwice() returns (w: World)
    ensures Reachable(w) && ChargedTwice(w, FIRST, SECOND) && LetOutUnpaid(w, 2)
  {
    ReachesLetOut();
    LastCharged();
    LastUnpaid();
    w := W13();
  }
}
