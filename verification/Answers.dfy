/** What each request is answered and what it leaves behind, said without the order in which its handler looks: exactly when a
    payment is answered, refused, free or charged, exactly when a charge is approved, and what a fee request means. */
module Answers {
  import opened Ledgers
  import opened CardCompany
  import opened PaymentGateway
  import opened ParkingSystem
  import opened CarPayIn
  import opened Protocol
  import opened Invariants
  import opened BackendTables
  import opened LedgerTables
  import opened ExitSafety
  import opened Safety
  import opened Theorems
  import Fees

  // ----- answered or refused

  ghost predicate OfThisCar(w: World, key: Key) {
    key.ref.id in w.b.sessions && w.b.sessions[key.ref.id].car == key.car
  }

  ghost predicate HasActiveKey(b: Backend, car: CarId) {
    car in b.billingKeys && b.billingKeys[car].active
  }

  /** A payment is answered if and only if its quote lives with this amount and currency, the session is this car's, and it is a
      repeat, or free, or the car has a card to charge. */
  lemma RepliedExactly(w: World, key: Key, draw: Draw, links: Links)
    ensures Payment(w, key.car, key.ref, key.amount, key.currency, draw, links).1.Replied? <==>
              && QuotedAt(w.b.quotes, key) && OfThisCar(w, key)
              && (key in w.b.txs || key.amount == 0 || (key.amount > 0 && HasActiveKey(w.b, key.car)))
  {
  }

  /** Each refusal has its own cause, and changes nothing. */
  lemma RefusedExactly(w: World, key: Key, draw: Draw, links: Links)
    ensures var (w', r) := Payment(w, key.car, key.ref, key.amount, key.currency, draw, links);
            && (r == Rejected(QuoteNotFound) <==> key.ref !in w.b.quotes)
            && (r == Rejected(AmountCurrencyMismatch) <==> key.ref in w.b.quotes && !QuotedAt(w.b.quotes, key))
            && (r == Rejected(PSessionNotFound) <==> QuotedAt(w.b.quotes, key) && key.ref.id !in w.b.sessions)
            && (r == Rejected(SessionCarMismatch) <==> QuotedAt(w.b.quotes, key) && key.ref.id in w.b.sessions && !OfThisCar(w, key))
            && (r == Rejected(InvalidAmount) <==> QuotedAt(w.b.quotes, key) && OfThisCar(w, key) && key !in w.b.txs && key.amount < 0)
            && (r == Rejected(NoActiveBillingKey) <==>
                  QuotedAt(w.b.quotes, key) && OfThisCar(w, key) && key !in w.b.txs && key.amount > 0 && !HasActiveKey(w.b, key.car))
            && (r.Rejected? ==> w' == w)
  {
  }

  /** In a run two of the refusals never happen: quotes are of known sessions and never negative. */
  lemma NeverRefusedFor(w: World, key: Key, draw: Draw, links: Links)
    requires Reachable(w)
    ensures var r := Payment(w, key.car, key.ref, key.amount, key.currency, draw, links).1;
            r != Rejected(PSessionNotFound) && r != Rejected(InvalidAmount)
  {
    ReachableBase(w);
    RefusedExactly(w, key, draw, links);
  }

  // ----- what a new payment leaves

  /** The session after its payment at a time, all others as they were. */
  ghost predicate SessionClosed(s: map<SessionId, Session>, s': map<SessionId, Session>, id: SessionId, now: Time) {
    && s'.Keys == s.Keys && (forall i | i in s && i != id :: s'[i] == s[i])
    && id in s && s'[id].status == Completed && s'[id].exitTime == (if s[id].exitTime.Some? then s[id].exitTime else Some(now))
    && s'[id].pmsId == s[id].pmsId && s'[id].car == s[id].car && s'[id].slot == s[id].slot && s'[id].entry == s[id].entry
  }

  /** The notice of a success under key has been told over link: an answer leaves no event, anything else one for seven days; and
      whenever it was delivered the PMS holds it. */
  ghost predicate NoticeTold(w: World, key: Key, link: Delivery) {
    && key in w.b.txs && key.ref.id in w.b.sessions
    && var id := w.b.txs[key].txId;
       && (link.Received? ==> id !in w.b.retries)
       && (!link.Received? ==> id in w.b.retries && w.b.retries[id] == RetryEvent(NoticeFor(w.b, key), w.now + 604800))
       && (!link.NotDelivered? ==> key in w.p.requests)
  }

  lemma TellingTold(w: World, key: Key, link: Delivery)
    requires Linked(w.b.sessions, w.p.sessions) && key in w.b.txs && key.ref.id in w.b.sessions
    ensures NoticeTold(Notified(w, NoticeFor(w.b, key), link), key, link)
  {
    var n := NoticeFor(w.b, key);
    assert n.pmsId in w.p.sessions;
    NotifiedFrame(w, n, link);
  }

  lemma FinishedClosed(w: World, key: Key, pgTxId: Option<nat>, approval: ApprovalNo)
    requires key in w.b.txs && key.ref.id in w.b.sessions && w.b.txs[key].txId !in w.b.outbox
    ensures var w' := Finished(w, key, pgTxId, approval);
            && SessionClosed(w.b.sessions, w'.b.sessions, key.ref.id, w.now)
            && w' == w.(b := w'.b) && w'.b.quotes == w.b.quotes && w'.b.retries == w.b.retries
            && w'.b.txs == w.b.txs[key := w.b.txs[key].(status := Success, pgTxId := pgTxId, approval := Some(approval))]
            && w'.b.outbox == w.b.outbox[w.b.txs[key].txId := Payload(key.ref, key.car, w.b.sessions[key.ref.id].slot.lot, key.amount, key.currency, approval)]
  {
  }

  lemma FreeSettled(w: World, key: Key) returns (w': World)
    requires Linked(w.b.sessions, w.p.sessions) && Uuid5(key) !in w.b.outbox && OfThisCar(w, key) && key.amount == 0
    ensures w' == Finished(w.(b := Inserted(w.b, key, Uuid5(key), None)), key, None, FREE) && w' == w.(b := w'.b)
    ensures w'.b.txs == w.b.txs[key := Tx(Uuid5(key), key.ref.id, key.car, None, 0, key.currency, Success, None, Some(FREE))]
    ensures SessionClosed(w.b.sessions, w'.b.sessions, key.ref.id, w.now) && w'.b.quotes == w.b.quotes
    ensures w'.b.outbox == w.b.outbox[Uuid5(key) := Payload(key.ref, key.car, w.b.sessions[key.ref.id].slot.lot, 0, key.currency, FREE)]
    ensures Linked(w'.b.sessions, w'.p.sessions)
  {
    var w1 := w.(b := Inserted(w.b, key, Uuid5(key), None));
    FinishedClosed(w1, key, None, FREE);
    w' := Finished(w1, key, None, FREE);
    LinkedKept(w.b.sessions, w'.b.sessions, w.p.sessions);
    assert w'.b.txs == w.b.txs[key := w'.b.txs[key]];
  }

  /** A new payment of nothing succeeds: the row says FREE, the session is closed, the notice to the car is queued and the PMS told,
      and neither the PG nor the card company hears of it. */
  lemma FreePaymentSucceeds(w: World, key: Key, draw: Draw, links: Links)
    requires Base(w, {}) && key !in w.b.txs && QuotedAt(w.b.quotes, key) && OfThisCar(w, key) && key.amount == 0
    ensures var (w', r) := Payment(w, key.car, key.ref, key.amount, key.currency, draw, links);
            && r == Replied(Success, Uuid5(key), Some(FREE))
            && w'.b.txs == w.b.txs[key := Tx(Uuid5(key), key.ref.id, key.car, None, 0, key.currency, Success, None, Some(FREE))]
            && SessionClosed(w.b.sessions, w'.b.sessions, key.ref.id, w.now)
            && w'.b.outbox == w.b.outbox[Uuid5(key) := Payload(key.ref, key.car, w.b.sessions[key.ref.id].slot.lot, 0, key.currency, FREE)]
            && w'.g == w.g && w'.c == w.c && w'.b.quotes == w.b.quotes && NoticeTold(w', key, links.pms)
  {
    FreeIdFresh(w, key);
    FreshOutboxId(w, key, Uuid5(key));
    var w2 := FreeSettled(w, key);
    TellingTold(w2, key, links.pms);
    NotifiedFrame(w2, NoticeFor(w2.b, key), links.pms);
    FreeIs(w, key, draw, links);
  }

  lemma FreeIs(w: World, key: Key, draw: Draw, links: Links)
    requires key !in w.b.txs && QuotedAt(w.b.quotes, key) && OfThisCar(w, key) && key.amount == 0
    ensures Payment(w, key.car, key.ref, key.amount, key.currency, draw, links) == FreePayment(w, key, links)
  {
  }

  // ----- one charge

  ghost predicate KeyUsable(g: Pg, c: Card, billingKey: BillingKey) {
    && billingKey in g.keys && g.keys[billingKey].active
    && g.keys[billingKey].token in c.tokens && c.tokens[g.keys[billingKey].token]
  }

  /** A first charge: who stores a row, who stores a success, and with which ids. */
  lemma ChargeExactly(g: Pg, c: Card, billingKey: BillingKey, key: Key, draw: Draw, link: Delivery)
    requires key !in g.txs && key !in c.txs
    ensures var (g', c', r) := Charge(g, c, billingKey, key, draw, link);
            && (key in g'.txs <==> billingKey in g.keys && key.amount > 0)
            && (key in c'.txs <==> billingKey in g.keys && key.amount > 0 && g.keys[billingKey].active && !link.NotDelivered?
                                   && g.keys[billingKey].token in c.tokens)
            && (CardPaid(c'.txs, key) <==> KeyUsable(g, c, billingKey) && key.amount > 0 && !link.NotDelivered?)
            && (PgPaid(g'.txs, key) <==> KeyUsable(g, c, billingKey) && key.amount > 0 && link.Received?)
            && (r == Raised <==> billingKey in g.keys && key.amount <= 0)
            && (r.Reply? ==> r.txId == draw.pgTx && (r.status == Success <==> PgPaid(g'.txs, key))
                             && r.approval == if PgPaid(g'.txs, key) then Some(Issued(draw.approval)) else None)
  {
  }

  /** The rows of a first charge: the PG keeps its own id, the key's token, and the card company's id once it has heard it. */
  lemma ChargeRows(g: Pg, c: Card, billingKey: BillingKey, key: Key, draw: Draw, link: Delivery)
    requires key !in g.txs && key !in c.txs
    ensures var (g', c', _) := Charge(g, c, billingKey, key, draw, link);
            && (forall k | k != key :: (k in g'.txs <==> k in g.txs) && (k in g.txs ==> g'.txs[k] == g.txs[k]))
            && (forall k | k != key :: (k in c'.txs <==> k in c.txs) && (k in c.txs ==> c'.txs[k] == c.txs[k]))
            && (key in g'.txs ==> billingKey in g.keys && g'.txs[key].txId == draw.pgTx && g'.txs[key].billingKey == billingKey
                                  && g'.txs[key].token == g.keys[billingKey].token
                                  && g'.txs[key].cardTxId == if key in c'.txs && link.Received? then Some(c'.txs[key].txId) else None)
            && (key in c'.txs ==> billingKey in g.keys && c'.txs[key].txId == draw.cardTx && c'.txs[key].token == g.keys[billingKey].token
                                  && c'.txs[key].approval == if c'.txs[key].status == Success then Some(Issued(draw.approval)) else None)
  {
  }

  /** A first approval request: refused with an exception for nothing to pay or an unknown token, and without a row; declined with a
      failed row for an inactive token; else approved under a new approval number. */
  lemma ApprovalExactly(c: Card, token: CardToken, amount: int, currency: Currency, key: Key, draw: Draw)
    requires key !in c.txs
    ensures var (c', r) := Approval(c, token, amount, currency, key, draw);
            && (r == Raised <==> amount <= 0 || token !in c.tokens) && (r == Raised <==> c' == c) && c'.tokens == c.tokens
            && (r != Raised ==>
                  && c'.txs == c.txs[key := CardTx(draw.cardTx, token, amount, currency, r.status, r.approval)]
                  && r == (if c.tokens[token] then Reply(Success, draw.cardTx, Some(Issued(draw.approval))) else Reply(Failed, draw.cardTx, None)))
  {
  }

  /** A known key is answered from the PG's ledger, by the card company from its own, and nothing is charged. */
  lemma ChargedOnce(g: Pg, c: Card, billingKey: BillingKey, key: Key, draw: Draw, link: Delivery, token: CardToken)
    ensures key in g.txs ==> Charge(g, c, billingKey, key, draw, link) == (g, c, Reply(g.txs[key].status, g.txs[key].txId, g.txs[key].approval))
    ensures key in c.txs ==> Approval(c, token, key.amount, key.currency, key, draw) == (c, Reply(c.txs[key].status, c.txs[key].txId, c.txs[key].approval))
  {
  }

  /** The backend's client takes a failed status for a decline and an approval number for an approval; all else raises. */
  lemma UnderstoodExactly(r: Reply)
    ensures Understood(r).Declined? <==> r.Reply? && r.status == Failed
    ensures Understood(r).Approved? <==> r.Reply? && r.status != Failed && r.approval.Some?
    ensures Understood(r).Approved? ==> Understood(r) == Approved(r.txId, r.approval.value)
  {
  }

  /** A card payment before the PMS is told, in the backend's tables. */
  lemma CardSettledRow(w: World, key: Key, billingKey: BillingKey, draw: Draw, links: Links)
    requires OfThisCar(w, key)
    ensures var (w', result) := (CardSettled(w, key, billingKey, draw, links), PgCalled(w, key, billingKey, draw, links).1);
            w'.b.txs == w.b.txs[key := Tx(Uuid4(draw.tx), key.ref.id, key.car, Some(billingKey), key.amount, key.currency,
                                          if result.Approved? then Success else Failed, if result.Approved? then Some(result.pgTxId) else None,
                                          if result.Approved? then Some(result.approval) else None)]
  {
    var b := Inserted(w.b, key, Uuid4(draw.tx), Some(billingKey));
    CalledFrame(w, key, billingKey, draw, links, b);
    var (called, result) := PgCalled(w, key, billingKey, draw, links);
    if result.Approved? {
      FinishedRow(called.(b := b), key, Some(result.pgTxId), result.approval);
    }
    var row := CardSettled(w, key, billingKey, draw, links).b.txs[key];
    assert b.txs[key := row] == w.b.txs[key := row];
  }

  lemma FinishedRow(w: World, key: Key, pgTxId: Option<nat>, approval: ApprovalNo)
    requires key in w.b.txs && key.ref.id in w.b.sessions
    ensures Finished(w, key, pgTxId, approval).b.txs == w.b.txs[key := w.b.txs[key].(status := Success, pgTxId := pgTxId, approval := Some(approval))]
  {
  }

  lemma CardSettledRest(w: World, key: Key, billingKey: BillingKey, draw: Draw, links: Links)
    requires OfThisCar(w, key) && Uuid4(draw.tx) !in w.b.outbox
    ensures var (w', (called, result)) := (CardSettled(w, key, billingKey, draw, links), PgCalled(w, key, billingKey, draw, links));
            && w'.g == called.g && w'.c == called.c && w'.now == w.now && w'.p == w.p && w'.b.retries == w.b.retries && w'.b.quotes == w.b.quotes
            && (result.Approved? ==>
                  && SessionClosed(w.b.sessions, w'.b.sessions, key.ref.id, w.now)
                  && w'.b.outbox == w.b.outbox[Uuid4(draw.tx) := Payload(key.ref, key.car, w.b.sessions[key.ref.id].slot.lot, key.amount, key.currency, result.approval)])
            && (!result.Approved? ==> w'.b.sessions == w.b.sessions && w'.b.outbox == w.b.outbox)
  {
    var b := Inserted(w.b, key, Uuid4(draw.tx), Some(billingKey));
    CalledFrame(w, key, billingKey, draw, links, b);
    CalledFrame(w, key, billingKey, draw, links, w.b);
    var (called, result) := PgCalled(w, key, billingKey, draw, links);
    if result.Approved? {
      FinishedClosed(called.(b := b), key, Some(result.pgTxId), result.approval);
    }
  }

  /** What the backend's call makes of a first charge. */
  lemma CalledExactly(w: World, key: Key, billingKey: BillingKey, draw: Draw, links: Links)
    requires key !in w.g.txs && key !in w.c.txs && key.amount > 0
    ensures var (w', result) := PgCalled(w, key, billingKey, draw, links);
            && (result.Approved? <==> links.pg.Received? && links.card.Received? && KeyUsable(w.g, w.c, billingKey))
            && (result.Approved? ==> result == Approved(draw.pgTx, Issued(draw.approval)))
            && (links.pg.NotDelivered? ==> w'.g == w.g && w'.c == w.c)
            && (!links.pg.NotDelivered? ==> (w'.g, w'.c) == (Charge(w.g, w.c, billingKey, key, draw, links.card).0, Charge(w.g, w.c, billingKey, key, draw, links.card).1))
  {
    ChargeExactly(w.g, w.c, billingKey, key, draw, links.card);
    UnderstoodExactly(Heard(Charge(w.g, w.c, billingKey, key, draw, links.card).2, links.pg));
  }

  lemma CardIs(w: World, key: Key, draw: Draw, links: Links)
    requires key !in w.b.txs && QuotedAt(w.b.quotes, key) && OfThisCar(w, key) && key.amount > 0 && HasActiveKey(w.b, key.car)
    ensures Payment(w, key.car, key.ref, key.amount, key.currency, draw, links) == CardPayment(w, key, w.b.billingKeys[key.car].billingKey, draw, links)
  {
  }

  ghost predicate NewCardPayment(w: World, key: Key, draw: Draw) {
    && Base(w, {}) && key !in w.b.txs && QuotedAt(w.b.quotes, key) && OfThisCar(w, key) && key.amount > 0 && HasActiveKey(w.b, key.car)
    && forall k | k in w.b.txs :: w.b.txs[k].txId != Uuid4(draw.tx)
  }

  lemma NewInLedgers(w: World, key: Key, draw: Draw)
    requires NewCardPayment(w, key, draw)
    ensures key !in w.g.txs && key !in w.c.txs && Uuid4(draw.tx) !in w.b.outbox
  {
    FreshOutboxId(w, key, Uuid4(draw.tx));
  }

  /** A new card payment succeeds if and only if both answers were heard and PG and card company have an active key and token for it;
      and this is its row, with the ids and the approval number the others drew. */
  lemma CardPaymentExactly(w: World, key: Key, draw: Draw, links: Links)
    requires NewCardPayment(w, key, draw)
    ensures var (w', r) := Payment(w, key.car, key.ref, key.amount, key.currency, draw, links);
            var billingKey := w.b.billingKeys[key.car].billingKey;
            var success := links.pg.Received? && links.card.Received? && KeyUsable(w.g, w.c, billingKey);
            && r == Replied(if success then Success else Failed, Uuid4(draw.tx), if success then Some(Issued(draw.approval)) else None)
            && w'.b.txs == w.b.txs[key := Tx(Uuid4(draw.tx), key.ref.id, key.car, Some(billingKey), key.amount, key.currency, r.status,
                                             if success then Some(draw.pgTx) else None, r.approval)]
  {
    var billingKey := w.b.billingKeys[key.car].billingKey;
    NewInLedgers(w, key, draw);
    CardIs(w, key, draw, links);
    CalledExactly(w, key, billingKey, draw, links);
    CardSettledRow(w, key, billingKey, draw, links);
    var w1 := CardSettled(w, key, billingKey, draw, links);
    NotifiedFrame(w1, NoticeFor(w1.b, key), links.pms);
  }

  /** A successful one closes the session, queues the notice to the car and tells the PMS; a failed one leaves them alone. */
  lemma CardPaymentLeaves(w: World, key: Key, draw: Draw, links: Links)
    requires NewCardPayment(w, key, draw)
    ensures var (w', r) := Payment(w, key.car, key.ref, key.amount, key.currency, draw, links);
            && r.Replied?
            && (r.status == Success ==>
                  && SessionClosed(w.b.sessions, w'.b.sessions, key.ref.id, w.now) && NoticeTold(w', key, links.pms)
                  && w'.b.outbox == w.b.outbox[Uuid4(draw.tx) := Payload(key.ref, key.car, w.b.sessions[key.ref.id].slot.lot, key.amount, key.currency, Issued(draw.approval))])
            && (r.status != Success ==> w'.b.sessions == w.b.sessions && w'.b.outbox == w.b.outbox && w'.b.retries == w.b.retries && w'.p == w.p)
  {
    var billingKey := w.b.billingKeys[key.car].billingKey;
    NewInLedgers(w, key, draw);
    CardIs(w, key, draw, links);
    CalledExactly(w, key, billingKey, draw, links);
    CardLeaves(w, key, billingKey, draw, links);
  }

  lemma CardLeaves(w: World, key: Key, billingKey: BillingKey, draw: Draw, links: Links)
    requires OfThisCar(w, key) && Uuid4(draw.tx) !in w.b.outbox && Linked(w.b.sessions, w.p.sessions)
    ensures var ((w', r), result) := (CardPayment(w, key, billingKey, draw, links), PgCalled(w, key, billingKey, draw, links).1);
            && r.Replied? && (r.status == Success <==> result.Approved?)
            && (result.Approved? ==>
                  && SessionClosed(w.b.sessions, w'.b.sessions, key.ref.id, w.now) && NoticeTold(w', key, links.pms)
                  && w'.b.outbox == w.b.outbox[Uuid4(draw.tx) := Payload(key.ref, key.car, w.b.sessions[key.ref.id].slot.lot, key.amount, key.currency, result.approval)])
            && (!result.Approved? ==> w'.b.sessions == w.b.sessions && w'.b.outbox == w.b.outbox && w'.b.retries == w.b.retries && w'.p == w.p)
  {
    CardSettledRow(w, key, billingKey, draw, links);
    CardSettledRest(w, key, billingKey, draw, links);
    var w1 := CardSettled(w, key, billingKey, draw, links);
    if w1.b.txs[key].status == Success {
      LinkedKept(w.b.sessions, w1.b.sessions, w.p.sessions);
      TellingTold(w1, key, links.pms);
      NotifiedFrame(w1, NoticeFor(w1.b, key), links.pms);
    }
  }

  /** A success and the ledgers it rests on name each other: the backend's PG id is the PG row's, the PG row's card id the card row's. */
  lemma LedgersNameEachOther(w: World, key: Key, draw: Draw, links: Links)
    requires NewCardPayment(w, key, draw)
    requires Payment(w, key.car, key.ref, key.amount, key.currency, draw, links).1.status == Success
    ensures var w' := Payment(w, key.car, key.ref, key.amount, key.currency, draw, links).0;
            && key in w'.b.txs && key in w'.g.txs && key in w'.c.txs
            && w'.b.txs[key].pgTxId == Some(w'.g.txs[key].txId) && w'.g.txs[key].cardTxId == Some(w'.c.txs[key].txId)
            && w'.g.txs[key].txId == draw.pgTx && w'.c.txs[key].txId == draw.cardTx
            && w'.b.txs[key].billingKey == Some(w'.g.txs[key].billingKey) && w'.g.txs[key].token == w'.c.txs[key].token
  {
    var billingKey := w.b.billingKeys[key.car].billingKey;
    NewInLedgers(w, key, draw);
    CardPaymentExactly(w, key, draw, links);
    CardIs(w, key, draw, links);
    CalledExactly(w, key, billingKey, draw, links);
    ChargeExactly(w.g, w.c, billingKey, key, draw, links.card);
    ChargeRows(w.g, w.c, billingKey, key, draw, links.card);
    CardSettledRest(w, key, billingKey, draw, links);
    var w1 := CardSettled(w, key, billingKey, draw, links);
    NotifiedFrame(w1, NoticeFor(w1.b, key), links.pms);
  }

  /** The success commit queues a transaction's notice once: a row that is there stays as it is. */
  lemma QueuedOnce(b: Backend, key: Key, pgTxId: Option<nat>, approval: ApprovalNo, payload: Payload)
    requires key in b.txs
    ensures var b' := MarkedSuccess(b, key, pgTxId, approval, payload); var id := b.txs[key].txId;
            && b'.outbox.Keys == b.outbox.Keys + {id} && b'.outbox[id] == (if id in b.outbox then b.outbox[id] else payload)
            && (forall t | t in b.outbox :: b'.outbox[t] == b.outbox[t])
            && b'.txs == b.txs[key := b'.txs[key]] && b'.txs[key].status == Success && b'.txs[key].approval == Some(approval) && b'.txs[key].pgTxId == pgTxId
            && b' == b.(txs := b'.txs, outbox := b'.outbox)
  {
  }

  /** The failure update leaves no PG id and no approval number behind, whatever the row said, and touches no other row. */
  lemma FailureClears(b: Backend, key: Key)
    requires key in b.txs
    ensures var b' := MarkedFailed(b, key);
            && b' == b.(txs := b'.txs) && b'.txs.Keys == b.txs.Keys && (forall k | k in b.txs && k != key :: b'.txs[k] == b.txs[k])
            && b'.txs[key].status == Failed && b'.txs[key].pgTxId == None && b'.txs[key].approval == None
            && b'.txs[key].txId == b.txs[key].txId && b'.txs[key].billingKey == b.txs[key].billingKey && b'.txs[key].amount == b.txs[key].amount
  {
  }

  /** A repeat of a success tells the PMS again and writes nothing else; a repeat of a failure writes nothing. */
  lemma RepeatTells(w: World, key: Key, draw: Draw, links: Links)
    requires Base(w, {}) && key in w.b.txs && QuotedAt(w.b.quotes, key)
    ensures var (w', r) := Payment(w, key.car, key.ref, key.amount, key.currency, draw, links);
            && r == Replied(w.b.txs[key].status, w.b.txs[key].txId, w.b.txs[key].approval)
            && (r.status == Success ==> NoticeTold(w', key, links.pms)) && (r.status != Success ==> w' == w)
  {
    if w.b.txs[key].status == Success {
      TellingTold(w, key, links.pms);
    }
  }

  // ----- fee requests

  /** A fee request that is answered is answered with the quote that is then stored; one that is refused stores nothing. */
  lemma AnswerIsTheQuote(w: World, car: CarId, ref: SessionRef, atSlot: Option<PmsId>, link: Delivery)
    ensures var (w', r) := FeeAsked(w, car, ref, atSlot, link);
            && (r.Quoted? <==> ref in w'.b.quotes)
            && (r.Quoted? ==> r == Quoted(w'.b.quotes[ref].amount, w'.b.quotes[ref].duration, w'.b.quotes[ref].currency))
            && (ref in w.b.quotes ==> w' == w)
            && (!r.Quoted? ==> w' == w)
  {
  }

  /** What each refusal means: the session is unknown, not ongoing, another car's, or the PMS was not heard or does not owe an answer. */
  lemma FeeRefusedExactly(w: World, car: CarId, ref: SessionRef, atSlot: Option<PmsId>, link: Delivery)
    requires SafelyReachable(w) && Possible(w, AskFee(car, ref, atSlot, link))
    ensures var r := FeeAsked(w, car, ref, atSlot, link).1; var unquoted := ref !in w.b.quotes;
            && (r == QSessionNotFound <==> unquoted && ref.id !in w.b.sessions)
            && (r == QNotActive <==> unquoted && ref.id in w.b.sessions && w.b.sessions[ref.id].status == Completed)
            && (r == QCarMismatch <==> unquoted && ref.id in w.b.sessions && w.b.sessions[ref.id].status == Ongoing && w.b.sessions[ref.id].car != car)
            && (r == QPmsFailed <==> unquoted && ref.id in w.b.sessions && w.b.sessions[ref.id].status == Ongoing && w.b.sessions[ref.id].car == car
                                     && (!link.Received? || w.now <= w.b.sessions[ref.id].entry - 60))
  {
    ReachableGood(w);
    if AsksPms(w.b, car, ref) {
      LookupOwn(w.b.sessions, w.p.sessions, ref.id, atSlot);
    }
    RefusedBy(w, car, ref, atSlot, link);
  }

  lemma RefusedBy(w: World, car: CarId, ref: SessionRef, atSlot: Option<PmsId>, link: Delivery)
    requires AsksPms(w.b, car, ref) ==> atSlot.Some? && atSlot.value in w.p.sessions && w.p.sessions[atSlot.value].status == PmsStatus.Active
                                        && w.p.sessions[atSlot.value].entry == w.b.sessions[ref.id].entry
    ensures var r := FeeAsked(w, car, ref, atSlot, link).1; var unquoted := ref !in w.b.quotes;
            && (r == QSessionNotFound <==> unquoted && ref.id !in w.b.sessions)
            && (r == QNotActive <==> unquoted && ref.id in w.b.sessions && w.b.sessions[ref.id].status == Completed)
            && (r == QCarMismatch <==> unquoted && ref.id in w.b.sessions && w.b.sessions[ref.id].status == Ongoing && w.b.sessions[ref.id].car != car)
            && (r == QPmsFailed <==> AsksPms(w.b, car, ref) && (!link.Received? || w.now <= w.b.sessions[ref.id].entry - 60))
  {
    if AsksPms(w.b, car, ref) {
      Fees.FeeDefined(w.p.rate, w.b.sessions[ref.id].entry, w.now);
    }
  }

  /** A new quote is the fee of the session's own entry time now, in won, for fifteen minutes. */
  lemma NewQuoteExactly(w: World, car: CarId, ref: SessionRef, atSlot: Option<PmsId>, link: Delivery)
    requires SafelyReachable(w) && Possible(w, AskFee(car, ref, atSlot, link)) && ref !in w.b.quotes
    requires FeeAsked(w, car, ref, atSlot, link).1.Quoted?
    ensures var (w', r) := FeeAsked(w, car, ref, atSlot, link);
            && ref.id in w.b.sessions
            && Fees.Calculate(w.p.rate, w.b.sessions[ref.id].entry, w.now) == Fees.Fee(r.amount, r.duration) && r.currency == KRW
            && w' == w.(b := w.b.(quotes := w.b.quotes[ref := Quote(r.amount, r.duration, KRW, w.now, w.now + 900)]))
  {
    ReachableGood(w);
    LookupOwn(w.b.sessions, w.p.sessions, ref.id, atSlot);
    NewQuoteOf(w, car, ref, atSlot, link);
  }

  lemma NewQuoteOf(w: World, car: CarId, ref: SessionRef, atSlot: Option<PmsId>, link: Delivery)
    requires ref !in w.b.quotes && FeeAsked(w, car, ref, atSlot, link).1.Quoted? && atSlot.Some? && atSlot.value in w.p.sessions
    ensures var (w', r) := FeeAsked(w, car, ref, atSlot, link);
            && Fees.Calculate(w.p.rate, w.p.sessions[atSlot.value].entry, w.now) == Fees.Fee(r.amount, r.duration) && r.currency == KRW
            && w' == w.(b := w.b.(quotes := w.b.quotes[ref := Quote(r.amount, r.duration, KRW, w.now, w.now + 900)]))
  {
  }

  /** The PMS answers a fee query for the active session found at the slot, else for the one with the id if that is active. */
  lemma FeeOwedExactly(p: Pms, id: PmsId, atSlot: Option<PmsId>, now: Time)
    requires atSlot.Some? ==> atSlot.value in p.sessions
    ensures var r, found := FeeOwed(p, id, atSlot, now), if atSlot.Some? then atSlot.value else id;
            && (r == SessionNotFound <==> found !in p.sessions)
            && (r == SessionNotActive <==> found in p.sessions && p.sessions[found].status != PmsStatus.Active)
            && (r == BadTime <==> found in p.sessions && p.sessions[found].status == PmsStatus.Active && now <= p.sessions[found].entry - 60)
            && (r.Owed? ==> Fees.Calculate(p.rate, p.sessions[found].entry, now) == Fees.Fee(r.amount, r.duration))
  {
    if (if atSlot.Some? then atSlot.value else id) in p.sessions {
      Fees.FeeDefined(p.rate, p.sessions[if atSlot.Some? then atSlot.value else id].entry, now);
    }
  }

  /** An accepted amount is a whole number of half-hour blocks: the ones the session had used up at some time of the last fifteen
      minutes, when the quote was made. */
  lemma AcceptedAmountInBlocks(w: World, key: Key, draw: Draw, links: Links) returns (quoted: Time, n: nat)
    requires SafelyReachable(w) && Payment(w, key.car, key.ref, key.amount, key.currency, draw, links).1.Replied?
    ensures key.ref.id in w.b.sessions && quoted <= w.now < quoted + 900 && key.amount == n * w.p.rate && key.currency == KRW
    ensures var entry := w.b.sessions[key.ref.id].entry;
            if n == 0 then quoted - entry < 60 else entry + 60 * (30 * (n - 1) + 1) <= quoted < entry + 60 * (30 * n + 1)
  {
    ReachableGood(w);
    RepliedExactly(w, key, draw, links);
    quoted := w.b.quotes[key.ref].createdAt;
    Fees.FeeDefined(w.p.rate, w.b.sessions[key.ref.id].entry, quoted);
    n := Fees.FeeIsBlocks(w.p.rate, w.b.sessions[key.ref.id].entry, quoted);
  }
}
