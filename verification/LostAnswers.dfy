/** What a lost answer of the PG can cost: one session charged twice at the card company although its id is always spelled
    canonically and the backend records one success. */
module LostAnswers {
  import opened Ledgers
  import opened CardCompany
  import opened PaymentGateway
  import opened ParkingSystem
  import opened CarPayIn
  import opened Protocol
  import opened Invariants
  import opened Theorems
  import Safety
  import Fees
  import S = Spellings

  // ----- every charge beyond the recorded one is a lost answer

  /** In a run that pays every session at most once: a card charge of a session is its recorded success if and only if no answer
      was lost on its way, so of two charges of one session at least one was lost. */
  lemma ChargesOfOneSession(w: World, k: Key, l: Key)
    requires Reachable(w) && PaidOnce(w.b.txs) && CardPaid(w.c.txs, k) && CardPaid(w.c.txs, l) && k != l && k.ref.id == l.ref.id
    ensures Succeeded(w.b.txs, k) <==> k !in w.h.cardLost && k !in w.h.pgLost
    ensures Succeeded(w.b.txs, l) <==> l !in w.h.cardLost && l !in w.h.pgLost
    ensures k in w.h.cardLost + w.h.pgLost || l in w.h.cardLost + w.h.pgLost
  {
    ReachableBase(w);
    ChargeRecorded(w, k);
    ChargeRecorded(w, l);
  }

  lemma ChargeRecorded(w: World, k: Key)
    requires Base(w, {}) && CardPaid(w.c.txs, k)
    ensures Succeeded(w.b.txs, k) <==> k !in w.h.cardLost && k !in w.h.pgLost
  {
    assert PgPaid(w.g.txs, k) <==> k !in w.h.cardLost;
    assert k.amount != 0;
  }

  // ----- a run

  const CANONICAL: SessionId -> nat := _ => 0

  ghost predicate CanonicallyReachable(w: World) {
    exists now, rate, steps :: PossibleRun(Start(now, rate), steps) && ConsistentRun(steps, CANONICAL) && w == Run(Start(now, rate), steps)
  }

  lemma Then(w: World, step: Step) returns (w': World)
    requires CanonicallyReachable(w) && Possible(w, step) && Spells(step, CANONICAL)
    ensures CanonicallyReachable(w') && w' == Next(w, step)
  {
    var now, rate, steps :| PossibleRun(Start(now, rate), steps) && ConsistentRun(steps, CANONICAL) && w == Run(Start(now, rate), steps);
    S.RunThen(Start(now, rate), steps, step);
    assert forall i | 0 <= i < |steps| :: (steps + [step])[i] == steps[i];
    assert ConsistentRun(steps + [step], CANONICAL);
    w' := Next(w, step);
  }

  lemma ReachesRegistered()
    ensures CanonicallyReachable(S.W4())
  {
    assert PossibleRun(Start(0, 500), []) && Run(Start(0, 500), []) == S.W0() && ConsistentRun([], CANONICAL);
    S.Registering();
    var w1 := Then(S.W0(), S.S0);
    var w2 := Then(S.W1(), S.S1);
    var w3 := Then(S.W2(), S.S2);
    var w4 := Then(S.W3(), S.S3);
  }

  lemma ReachesQuoted()
    ensures CanonicallyReachable(S.W7())
  {
    ReachesRegistered();
    S.Entering();
    S.Waiting();
    S.Quoting();
    var w5 := Then(S.W4(), S.S4);
    var w6 := Then(S.W5(), S.S5);
    var w7 := Then(S.W6(), S.S6);
  }

  const REF := SessionRef(1, 0)
  const LATE := Key(REF, 1, 1000, KRW)
  const PG_LOST := Links(ResponseLost, Received, Received)

  function FailedRow(): Tx { Tx(Uuid4(1), 1, 1, Some(7), 500, KRW, Failed, None, None) }

  function Charged(): World {
    var w := S.W7();
    w.(b := w.b.(txs := map[S.FIRST := FailedRow()]), g := w.g.(txs := map[S.FIRST := S.PgRow(1)]), c := w.c.(txs := map[S.FIRST := S.CardRow(1)]),
       h := w.h.(pgLost := {S.FIRST}))
  }

  lemma LosingTheAnswer()
    ensures Next(S.W7(), Pay(1, REF, 500, KRW, Draw(1, 1, 1, 1), PG_LOST)) == Charged()
  {
    var w1 := S.W7().(b := Inserted(S.W7().b, S.FIRST, Uuid4(1), Some(7)));
    var (w2, r) := PgCalled(w1, S.FIRST, 7, Draw(1, 1, 1, 1), PG_LOST);
    assert w2.g.txs == map[S.FIRST := S.PgRow(1)] && w2.c.txs == map[S.FIRST := S.CardRow(1)] && w2.h.pgLost == {S.FIRST} && r == ClientRaised;
    assert MarkedFailed(w2.b, S.FIRST).txs == map[S.FIRST := FailedRow()];
    assert CardSettled(S.W7(), S.FIRST, 7, Draw(1, 1, 1, 1), PG_LOST) == Charged();
    assert Payment(S.W7(), 1, REF, 500, KRW, Draw(1, 1, 1, 1), PG_LOST) == CardPayment(S.W7(), S.FIRST, 7, Draw(1, 1, 1, 1), PG_LOST);
  }

  function Waited(): World { Next(Charged(), Wait(1860)) }

  lemma WaitingHalfAnHour()
    ensures Waited().now == 1920 && Waited().b == Charged().b.(quotes := map[]) && Waited().g == Charged().g && Waited().c == Charged().c
    ensures Waited().p.sessions == S.W7().p.sessions && Waited().p.rate == 500
  {
    assert Waited().b.quotes == map[] && Waited().b.retries == map[] && Waited().b.preNotify == map[];
  }

  /** Half an hour later the quote is gone and a second block is owed. */
  lemma AskingAgain(w: World)
    requires w.now == 1920 && w.b == Charged().b.(quotes := map[]) && w.p.sessions == S.W7().p.sessions && w.p.rate == 500
    ensures var ask := AskFee(1, REF, Some(1), Received);
            Possible(w, ask) && Next(w, ask) == w.(b := w.b.(quotes := map[REF := Quote(1000, 32, KRW, 1920, 2820)]))
  {
    assert Fees.Calculate(500, 0, 1920) == Fees.Fee(1000, 32);
  }

  lemma SecondCharge(w: World)
    requires w.b.billingKeys == S.KEYS && w.g.keys == S.PG_KEYS && w.c.tokens == S.TOKENS
    requires LATE !in w.b.txs && LATE !in w.g.txs && LATE !in w.c.txs && 1 in w.b.sessions && w.b.sessions[1].car == 1
    requires REF in w.b.quotes && w.b.quotes[REF].amount == 1000 && w.b.quotes[REF].currency == KRW
    ensures var w' := Next(w, Pay(1, REF, 1000, KRW, Draw(2, 2, 2, 2), S.ALL_HEARD)); Succeeded(w'.b.txs, LATE) && CardPaid(w'.c.txs, LATE)
  {
    var draw := Draw(2, 2, 2, 2);
    var w' := CardSettled(w, LATE, 7, draw, S.ALL_HEARD);
    Safety.CardSettledFollows(w, LATE, 7, draw, S.ALL_HEARD);
    var (called, r) := PgCalled(w, LATE, 7, draw, S.ALL_HEARD);
    assert r.Approved? && CardPaid(called.c.txs, LATE);
    Safety.NotifiedFrame(w', NoticeFor(w'.b, LATE), Received);
    assert Payment(w, 1, REF, 1000, KRW, draw, S.ALL_HEARD) == CardPayment(w, LATE, 7, draw, S.ALL_HEARD);
  }

  lemma ReachesWaited()
    ensures CanonicallyReachable(Waited())
  {
    ReachesQuoted();
    LosingTheAnswer();
    var charged := Then(S.W7(), Pay(1, REF, 500, KRW, Draw(1, 1, 1, 1), PG_LOST));
    var waited := Then(Charged(), Wait(1860));
  }

  lemma AfterAsking(w: World, asked: World)
    requires w.b == Charged().b.(quotes := map[]) && w.g == Charged().g && w.c == Charged().c
    requires asked == w.(b := w.b.(quotes := map[REF := Quote(1000, 32, KRW, 1920, 2820)]))
    ensures CardPaid(asked.c.txs, S.FIRST) && S.FIRST in asked.b.txs && asked.b.txs[S.FIRST].status == Failed
    ensures var w' := Next(asked, Pay(1, REF, 1000, KRW, Draw(2, 2, 2, 2), S.ALL_HEARD)); Succeeded(w'.b.txs, LATE) && CardPaid(w'.c.txs, LATE)
  {
    SecondCharge(asked);
  }

  /** A canonical run that charges the card twice for one session: the PG's first answer is lost, the transaction fails, the quote
      expires, and the new fee is paid under a new key. */
  lemma ChargedTwiceByALostAnswer() returns (w: World)
    ensures CanonicallyReachable(w) && S.FIRST.ref == LATE.ref && CardPaid(w.c.txs, S.FIRST) && CardPaid(w.c.txs, LATE)
    ensures !Succeeded(w.b.txs, S.FIRST) && Succeeded(w.b.txs, LATE)
  {
    var asked := ReachesAsked();
    w := PaysAgain(asked);
  }

  function Asked(): World { Waited().(b := Waited().b.(quotes := map[REF := Quote(1000, 32, KRW, 1920, 2820)])) }

  lemma ReachesAsked() returns (w: World)
    ensures CanonicallyReachable(w) && CardPaid(w.c.txs, S.FIRST) && S.FIRST in w.b.txs && w.b.txs[S.FIRST].status == Failed
    ensures forall k | k in w.b.txs :: w.b.txs[k].txId != Uuid4(2)
    ensures var w' := Next(w, Pay(1, REF, 1000, KRW, Draw(2, 2, 2, 2), S.ALL_HEARD)); Succeeded(w'.b.txs, LATE) && CardPaid(w'.c.txs, LATE)
  {
    ReachesWaited();
    WaitingHalfAnHour();
    AskingAgain(Waited());
    w := Then(Waited(), AskFee(1, REF, Some(1), Received));
    AfterAsking(Waited(), Asked());
  }

  lemma PaysAgain(asked: World) returns (w: World)
    requires CanonicallyReachable(asked) && CardPaid(asked.c.txs, S.FIRST) && S.FIRST in asked.b.txs && asked.b.txs[S.FIRST].status == Failed
    requires forall k | k in asked.b.txs :: asked.b.txs[k].txId != Uuid4(2)
    requires var w' := Next(asked, Pay(1, REF, 1000, KRW, Draw(2, 2, 2, 2), S.ALL_HEARD)); Succeeded(w'.b.txs, LATE) && CardPaid(w'.c.txs, LATE)
    ensures CanonicallyReachable(w) && CardPaid(w.c.txs, S.FIRST) && CardPaid(w.c.txs, LATE) && !Succeeded(w.b.txs, S.FIRST) && Succeeded(w.b.txs, LATE)
  {
    var again := Pay(1, REF, 1000, KRW, Draw(2, 2, 2, 2), S.ALL_HEARD);
    StepGrown(asked, again);
    w := Then(asked, again);
  }
}
