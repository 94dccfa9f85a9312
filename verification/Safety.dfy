/** Every step keeps the invariants, so every run does. */
module Safety {
  import opened Ledgers
  import opened CardCompany
  import opened PaymentGateway
  import opened ParkingSystem
  import opened CarPayIn
  import opened Protocol
  import opened Invariants
  import opened BackendTables
  import opened LedgerTables
  import opened ExitLane
  import Fees

  // ----- notices

  /** What a delivered notice does to the PMS, as far as the backend's tables are concerned. */
  lemma RecordedTables(w: World, n: Notice)
    requires Linked(w.b.sessions, w.p.sessions) && Requests(w.b.sessions, w.b.txs, w.p.requests)
    requires NoticeOf(w.b.sessions, w.b.txs, n)
    ensures var (p', r) := Recording(w.p, n, w.now);
            && r == Recorded && n.key in p'.requests && p'.rate == w.p.rate
            && (forall k | k in w.p.requests :: k in p'.requests)
            && Linked(w.b.sessions, p'.sessions) && Requests(w.b.sessions, w.b.txs, p'.requests)
  {
    assert n.key.ref.id in w.b.sessions;
  }

  lemma NoneForgottenAfter(now: Time, txs: map<Key, Tx>, retries: map<TxId, RetryEvent>, retries': map<TxId, RetryEvent>,
                           requests: map<Key, Notice>, requests': map<Key, Notice>, h: History, h': History, open: set<Key>, key: Key)
    requires TxIds(txs) && NoneForgotten(now, txs, retries, requests, h, open) && open <= {key} && Succeeded(txs, key)
    requires forall k | k in requests :: k in requests'
    requires forall t | t in retries && t != txs[key].txId :: t in retries'
    requires forall t | t in h.retryUntil && t != txs[key].txId :: t in h'.retryUntil && h'.retryUntil[t] == h.retryUntil[t]
    requires key in requests' || txs[key].txId in retries'
    ensures NoneForgotten(now, txs, retries', requests', h', {})
  {
    forall k | Succeeded(txs, k) ensures Remembered(now, txs, retries', requests', h', k) {
      if k != key {
        assert k !in open && txs[k].txId != txs[key].txId;
        assert Remembered(now, txs, retries, requests, h, k);
      }
    }
  }

  lemma RetriesRecorded(now: Time, s: map<SessionId, Session>, txs: map<Key, Tx>, retries: map<TxId, RetryEvent>, h: History, n: Notice, until: Time)
    requires RetryEvents(now, s, txs, retries, h) && NoticeOf(s, txs, n) && now < until
    ensures RetryEvents(now, s, txs, retries[n.txId := RetryEvent(n, until)], h.(retryUntil := h.retryUntil[n.txId := until]))
  {
  }

  /** Base after a handler that touched only the PMS and the retry events. */
  lemma BaseAfterNotice(w: World, w': World, open: set<Key>)
    requires Base(w, open)
    requires w' == w.(p := w'.p, b := w.b.(retries := w'.b.retries), h := w.h.(retryUntil := w'.h.retryUntil))
    requires Linked(w.b.sessions, w'.p.sessions) && Requests(w.b.sessions, w.b.txs, w'.p.requests)
    requires RetryEvents(w.now, w.b.sessions, w.b.txs, w'.b.retries, w'.h)
    requires NoneForgotten(w.now, w.b.txs, w'.b.retries, w'.p.requests, w'.h, {})
    ensures Base(w', {})
  {
  }

  ghost predicate NoticeTables(w: World) {
    && TxIds(w.b.txs) && Linked(w.b.sessions, w.p.sessions) && Requests(w.b.sessions, w.b.txs, w.p.requests)
    && RetryEvents(w.now, w.b.sessions, w.b.txs, w.b.retries, w.h)
  }

  /** What telling the PMS may have done to the tables: the event of n cleared, recorded afresh, or left as it was. */
  ghost predicate Told(w: World, w': World, n: Notice) {
    && w'.now == w.now && w'.b.sessions == w.b.sessions && w'.b.txs == w.b.txs
    && Linked(w.b.sessions, w'.p.sessions) && Requests(w.b.sessions, w.b.txs, w'.p.requests)
    && (forall k | k in w.p.requests :: k in w'.p.requests)
    && (|| (n.key in w'.p.requests && w'.b.retries == w.b.retries - {n.txId} && w'.h.retryUntil == w.h.retryUntil)
        || (var until := w.now + PAYMENT_NOTIFY_RETRY_TTL_SECONDS;
            w'.b.retries == w.b.retries[n.txId := RetryEvent(n, until)] && w'.h.retryUntil == w.h.retryUntil[n.txId := until])
        || (n.txId in w.b.retries && w'.b.retries == w.b.retries && w'.h.retryUntil == w.h.retryUntil))
  }

  lemma ToldTables(w: World, w': World, n: Notice, open: set<Key>)
    requires NoticeTables(w) && NoneForgotten(w.now, w.b.txs, w.b.retries, w.p.requests, w.h, open) && open <= {n.key}
    requires NoticeOf(w.b.sessions, w.b.txs, n) && Told(w, w', n)
    ensures NoticeTables(w') && NoneForgotten(w'.now, w'.b.txs, w'.b.retries, w'.p.requests, w'.h, {})
  {
    RetriesRecorded(w.now, w.b.sessions, w.b.txs, w.b.retries, w.h, n, w.now + PAYMENT_NOTIFY_RETRY_TTL_SECONDS);
    NoneForgottenAfter(w.now, w.b.txs, w.b.retries, w'.b.retries, w.p.requests, w'.p.requests, w.h, w'.h, open, n.key);
  }

  /** The PMS's side of a notice, delivered or not. */
  lemma HeardTables(w: World, n: Notice, p: Pms)
    requires Linked(w.b.sessions, w.p.sessions) && Requests(w.b.sessions, w.b.txs, w.p.requests)
    requires NoticeOf(w.b.sessions, w.b.txs, n) && (p == w.p || p == Recording(w.p, n, w.now).0)
    ensures Linked(w.b.sessions, p.sessions) && Requests(w.b.sessions, w.b.txs, p.requests) && forall k | k in w.p.requests :: k in p.requests
  {
    RecordedTables(w, n);
  }

  lemma RecordedTold(w: World, n: Notice, p: Pms)
    requires Linked(w.b.sessions, p.sessions) && Requests(w.b.sessions, w.b.txs, p.requests) && forall k | k in w.p.requests :: k in p.requests
    ensures Told(w, RetryRecorded(w.(p := p), n), n)
  {
  }

  lemma ClearedTold(w: World, n: Notice, p: Pms)
    requires Linked(w.b.sessions, p.sessions) && Requests(w.b.sessions, w.b.txs, p.requests) && forall k | k in w.p.requests :: k in p.requests
    requires n.key in p.requests
    ensures Told(w, w.(p := p, b := w.b.(retries := w.b.retries - {n.txId})), n)
  {
  }

  lemma NotifiedTold(w: World, n: Notice, link: Delivery)
    requires Linked(w.b.sessions, w.p.sessions) && Requests(w.b.sessions, w.b.txs, w.p.requests)
    requires NoticeOf(w.b.sessions, w.b.txs, n)
    ensures Told(w, Notified(w, n, link), n)
  {
    var p := if link.NotDelivered? then w.p else Recording(w.p, n, w.now).0;
    RecordedTables(w, n);
    HeardTables(w, n, p);
    if link.Received? {
      ClearedTold(w, n, p);
    } else {
      assert w.(p := w.p) == w;
      RecordedTold(w, n, p);
    }
  }

  lemma NotifiedTables(w: World, n: Notice, link: Delivery, open: set<Key>)
    requires NoticeTables(w) && NoneForgotten(w.now, w.b.txs, w.b.retries, w.p.requests, w.h, open) && open <= {n.key}
    requires NoticeOf(w.b.sessions, w.b.txs, n)
    ensures var w' := Notified(w, n, link);
            && NoticeTables(w') && NoneForgotten(w'.now, w'.b.txs, w'.b.retries, w'.p.requests, w'.h, {})
  {
    NotifiedTold(w, n, link);
    ToldTables(w, Notified(w, n, link), n, open);
  }

  lemma NotifiedFrame(w: World, n: Notice, link: Delivery)
    ensures var w' := Notified(w, n, link);
            w' == w.(p := w'.p, b := w.b.(retries := w'.b.retries), h := w.h.(retryUntil := w'.h.retryUntil))
  {
    if link.NotDelivered? {
      RecordedFrame(w, n);
    } else {
      RecordedFrame(w.(p := Recording(w.p, n, w.now).0), n);
    }
  }

  lemma RecordedFrame(w: World, n: Notice)
    ensures var w' := RetryRecorded(w, n);
            w' == w.(b := w.b.(retries := w'.b.retries), h := w.h.(retryUntil := w'.h.retryUntil))
  {
  }

  lemma NotifiedBase(w: World, n: Notice, link: Delivery)
    requires Base(w, {n.key}) && NoticeOf(w.b.sessions, w.b.txs, n)
    ensures Base(Notified(w, n, link), {})
  {
    NotifiedFrame(w, n, link);
    NotifiedTables(w, n, link, {n.key});
    BaseAfterNotice(w, Notified(w, n, link), {n.key});
  }

  lemma BaseWeaker(w: World, open: set<Key>)
    requires Base(w, {})
    ensures Base(w, open)
  {
  }

  lemma RetriedTold(w: World, txId: TxId, link: Delivery)
    requires Linked(w.b.sessions, w.p.sessions) && Requests(w.b.sessions, w.b.txs, w.p.requests)
    requires txId in w.b.retries && w.b.retries[txId].notice.txId == txId && NoticeOf(w.b.sessions, w.b.txs, w.b.retries[txId].notice)
    ensures Told(w, Retried(w, txId, link), w.b.retries[txId].notice)
  {
    RecordedTables(w, w.b.retries[txId].notice);
  }

  lemma RetriedTables(w: World, txId: TxId, link: Delivery)
    requires NoticeTables(w) && NoneForgotten(w.now, w.b.txs, w.b.retries, w.p.requests, w.h, {}) && txId in w.b.retries
    ensures var w' := Retried(w, txId, link);
            && NoticeTables(w') && NoneForgotten(w'.now, w'.b.txs, w'.b.retries, w'.p.requests, w'.h, {})
  {
    RetriedTold(w, txId, link);
    ToldTables(w, Retried(w, txId, link), w.b.retries[txId].notice, {});
  }

  lemma RetriedFrame(w: World, txId: TxId, link: Delivery)
    ensures var w' := Retried(w, txId, link);
            w' == w.(p := w'.p, b := w.b.(retries := w'.b.retries), h := w.h.(retryUntil := w'.h.retryUntil))
    ensures txId !in w.b.retries ==> Retried(w, txId, link) == w
  {
  }

  lemma RetriedBase(w: World, txId: TxId, link: Delivery)
    requires Base(w, {})
    ensures Base(Retried(w, txId, link), {})
  {
    RetriedFrame(w, txId, link);
    if txId in w.b.retries {
      RetriedTables(w, txId, link);
      BaseAfterNotice(w, Retried(w, txId, link), {});
    }
  }

  // ----- payments

  /** The world after a new transaction of key has become the final row t, before the PMS is told. */
  ghost predicate Committed(w: World, w': World, key: Key, t: Tx) {
    && w'.now == w.now && w'.p == w.p && w'.h.retryUntil == w.h.retryUntil
    && SessionsKept(w.b.sessions, w'.b.sessions) && w'.b.sessions.Keys == w.b.sessions.Keys
    && w'.b.txs == w.b.txs[key := t] && w'.b.quotes == w.b.quotes && w'.b.retries == w.b.retries
    && FinalRow(w.b.sessions, key, t) && FreshTxId(w.b.txs, key, t.txId)
    && (forall i | i in w.b.sessions && w'.b.sessions[i].status == Completed :: w.b.sessions[i].status == Completed || (i == key.ref.id && t.status == Success))
    && (if t.status == Success
        then && w'.b.sessions[key.ref.id].status == Completed
             && t.txId in w'.b.outbox && w'.b.outbox == w.b.outbox[t.txId := w'.b.outbox[t.txId]]
             && PayloadOf(w'.b.sessions, w'.b.txs, key, w'.b.outbox[t.txId])
        else w'.b.outbox == w.b.outbox)
  }

  lemma CommittedBase(w: World, w': World, key: Key, t: Tx)
    requires Base(w, {}) && Committed(w, w', key, t) && key !in w.b.txs && QuotedAt(w.b.quotes, key)
    requires LedgerOk(w'.b.txs, w'.g.txs, w'.c.txs, w'.h)
    ensures Base(w', {key}) && (t.status != Success ==> Base(w', {}))
  {
    var s, s', txs := w.b.sessions, w'.b.sessions, w.b.txs;
    RowsAdded(s, s', txs, key, t);
    TxIdsAdded(txs, key, t);
    UnpaidRef(s, txs, w.b.quotes, key);
    SettlesAdded(s, s', txs, w.b.quotes, key, t);
    OneSuccessAdded(txs, key, t);
    if t.status == Success {
      OutboxAdded(s, s', txs, w.b.outbox, key, t, w'.b.outbox[t.txId]);
    } else {
      OutboxUnchanged(s, s', txs, w.b.outbox, key, t);
    }
    CompletedAdded(s, s', txs, key, t);
    RequestsKept(s, s', txs, w.p.requests, key, t);
    RetriesKept(w.now, s, s', txs, w.b.retries, w.h, w'.h, key, t);
    LinkedKept(s, s', w.p.sessions);
    NoneForgottenAdded(w.now, txs, w.b.retries, w.p.requests, w.h, w'.h, key, t);
  }

  lemma FinishedCommitted(w: World, w1: World, key: Key, txId: TxId, billingKey: Option<BillingKey>, pgTxId: Option<nat>, approval: ApprovalNo)
    requires key.ref.id in w.b.sessions && w.b.sessions[key.ref.id].car == key.car && key.amount >= 0
    requires key !in w.b.txs && FreshTxId(w.b.txs, key, txId) && txId !in w.b.outbox
    requires w1.b == Inserted(w.b, key, txId, billingKey) && w1.p == w.p && w1.now == w.now && w1.h.retryUntil == w.h.retryUntil
    ensures var w' := Finished(w1, key, pgTxId, approval);
            && Committed(w, w', key, w'.b.txs[key]) && w'.b.txs[key].txId == txId && w'.b.txs[key].status == Success
            && w'.b.txs[key].approval == Some(approval) && w'.b.txs[key].billingKey == billingKey
            && w'.g == w1.g && w'.c == w1.c && w'.h == w1.h
  {
    var w' := Finished(w1, key, pgTxId, approval);
    assert w'.b.txs == w.b.txs[key := w'.b.txs[key]];
  }

  lemma FreshOutboxId(w: World, key: Key, txId: TxId)
    requires OutboxRows(w.b.sessions, w.b.txs, w.b.outbox) && FreshTxId(w.b.txs, key, txId)
    ensures txId !in w.b.outbox
  {
  }

  /** The preconditions the checks of a payment request establish for a new key. */
  ghost predicate Accepted(w: World, key: Key) {
    && key !in w.b.txs && key.ref.id in w.b.sessions && w.b.sessions[key.ref.id].car == key.car
    && QuotedAt(w.b.quotes, key) && key.amount >= 0
  }

  lemma FreeBase(w: World, key: Key, links: Links)
    requires Base(w, {}) && Accepted(w, key) && key.amount == 0 && FreshTxId(w.b.txs, key, Uuid5(key))
    ensures Base(FreePayment(w, key, links).0, {})
  {
    var w1 := w.(b := Inserted(w.b, key, Uuid5(key), None));
    var w2 := Finished(w1, key, None, FREE);
    FreshOutboxId(w, key, Uuid5(key));
    FinishedCommitted(w, w1, key, Uuid5(key), None, None, FREE);
    FreeLedgers(w.b.txs, w.g.txs, w.c.txs, w.h, key, w2.b.txs[key]);
    CommittedBase(w, w2, key, w2.b.txs[key]);
    assert Succeeded(w2.b.txs, key);
    NotifiedBase(w2, NoticeFor(w2.b, key), links.pms);
  }

  lemma CalledFrame(w: World, key: Key, billingKey: BillingKey, draw: Draw, links: Links, b: Backend)
    ensures var (w', r) := PgCalled(w, key, billingKey, draw, links);
            && w'.b == w.b && w'.p == w.p && w'.now == w.now && w'.h.retryUntil == w.h.retryUntil
            && PgCalled(w.(b := b), key, billingKey, draw, links) == (w'.(b := b), r)
  {
  }

  lemma FinishedFollows(w: World, key: Key, pgTxId: Option<nat>, approval: ApprovalNo)
    requires key in w.b.txs && key.ref.id in w.b.sessions
    ensures var w' := Finished(w, key, pgTxId, approval);
            && w' == w.(b := w'.b) && w'.b.txs == w.b.txs[key := w'.b.txs[key]]
            && w'.b.txs[key].status == Success && w'.b.txs[key].approval == Some(approval)
  {
  }

  /** A card payment's final row follows the PG's answer, and its other ledgers are those after the call. */
  lemma CardSettledFollows(w: World, key: Key, billingKey: BillingKey, draw: Draw, links: Links)
    requires key.ref.id in w.b.sessions
    ensures var (w', (called, result)) := (CardSettled(w, key, billingKey, draw, links), PgCalled(w, key, billingKey, draw, links));
            && w'.b.txs == w.b.txs[key := w'.b.txs[key]] && Follows(w'.b.txs[key], result)
            && w'.g == called.g && w'.c == called.c && w'.h == called.h
  {
    var b := Inserted(w.b, key, Uuid4(draw.tx), Some(billingKey));
    CalledFrame(w, key, billingKey, draw, links, b);
    var (called, result) := PgCalled(w.(b := b), key, billingKey, draw, links);
    if result.Approved? {
      FinishedFollows(called, key, Some(result.pgTxId), result.approval);
    }
    var txs := CardSettled(w, key, billingKey, draw, links).b.txs;
    assert txs == w.b.txs[key := txs[key]];
  }

  lemma CardLedgers(w: World, key: Key, billingKey: BillingKey, draw: Draw, links: Links)
    requires LedgerOk(w.b.txs, w.g.txs, w.c.txs, w.h)
    requires key !in w.b.txs && key.amount > 0 && key.ref.id in w.b.sessions
    ensures var w' := CardSettled(w, key, billingKey, draw, links);
            LedgerOk(w'.b.txs, w'.g.txs, w'.c.txs, w'.h)
  {
    CardSettledFollows(w, key, billingKey, draw, links);
    ChargedLedgers(w, key, billingKey, draw, links, CardSettled(w, key, billingKey, draw, links).b.txs[key]);
  }

  lemma CardCommitted(w: World, key: Key, billingKey: BillingKey, draw: Draw, links: Links)
    requires Accepted(w, key) && FreshTxId(w.b.txs, key, Uuid4(draw.tx)) && Uuid4(draw.tx) !in w.b.outbox
    ensures var w' := CardSettled(w, key, billingKey, draw, links);
            Committed(w, w', key, w'.b.txs[key]) && w'.b.txs[key].txId == Uuid4(draw.tx)
  {
    var txId := Uuid4(draw.tx);
    var w1 := w.(b := Inserted(w.b, key, txId, Some(billingKey)));
    var (w2, result) := PgCalled(w1, key, billingKey, draw, links);
    CalledFrame(w1, key, billingKey, draw, links, w.b);
    if result.Approved? {
      FinishedCommitted(w, w2, key, txId, Some(billingKey), Some(result.pgTxId), result.approval);
    } else {
      var w3 := w2.(b := MarkedFailed(w2.b, key));
      assert w3.b.txs == w.b.txs[key := w3.b.txs[key]];
    }
  }

  lemma CardBase(w: World, key: Key, billingKey: BillingKey, draw: Draw, links: Links)
    requires Base(w, {}) && Accepted(w, key) && key.amount > 0 && FreshTxId(w.b.txs, key, Uuid4(draw.tx))
    ensures Base(CardPayment(w, key, billingKey, draw, links).0, {})
  {
    var w' := CardSettled(w, key, billingKey, draw, links);
    FreshOutboxId(w, key, Uuid4(draw.tx));
    CardCommitted(w, key, billingKey, draw, links);
    CardLedgers(w, key, billingKey, draw, links);
    CommittedBase(w, w', key, w'.b.txs[key]);
    if w'.b.txs[key].status == Success {
      assert Succeeded(w'.b.txs, key);
      NotifiedBase(w', NoticeFor(w'.b, key), links.pms);
    }
  }

  lemma FreeIdFresh(w: World, key: Key)
    requires TxIds(w.b.txs) && key !in w.b.txs
    ensures FreshTxId(w.b.txs, key, Uuid5(key))
  {
  }

  /** A payment request is rejected or answered from the table, tells the PMS again, or makes a new free or card payment. */
  lemma PaymentCases(w: World, key: Key, draw: Draw, links: Links)
    requires Rows(w.b.sessions, w.b.txs)
    ensures var w' := Payment(w, key.car, key.ref, key.amount, key.currency, draw, links).0;
            || w' == w
            || (Succeeded(w.b.txs, key) && w' == Notified(w, NoticeFor(w.b, key), links.pms))
            || (Accepted(w, key) && key.amount == 0 && w' == FreePayment(w, key, links).0)
            || (Accepted(w, key) && key.amount > 0 && w' == CardPayment(w, key, w.b.billingKeys[key.car].billingKey, draw, links).0)
  {
  }

  lemma PaymentBase(w: World, car: CarId, ref: SessionRef, amount: int, currency: Currency, draw: Draw, links: Links)
    requires Base(w, {}) && forall k | k in w.b.txs :: w.b.txs[k].txId != Uuid4(draw.tx)
    ensures Base(Payment(w, car, ref, amount, currency, draw, links).0, {})
  {
    var key := Key(ref, car, amount, currency);
    var w' := Payment(w, car, ref, amount, currency, draw, links).0;
    PaymentCases(w, key, draw, links);
    if w' == w {
    } else if Succeeded(w.b.txs, key) {
      BaseWeaker(w, {key});
      NotifiedBase(w, NoticeFor(w.b, key), links.pms);
    } else if key.amount == 0 {
      FreeIdFresh(w, key);
      FreeBase(w, key, links);
    } else {
      CardBase(w, key, w.b.billingKeys[car].billingKey, draw, links);
    }
  }

  // ----- the other steps

  /** Base looks at the PMS only through its sessions and requests, and not at registrations or keys. */
  lemma BaseFrame(w: World, w': World)
    requires Base(w, {})
    requires w'.now == w.now && w'.h == w.h && w'.g.txs == w.g.txs && w'.c.txs == w.c.txs
    requires w'.b == w.b.(preNotify := w'.b.preNotify, billingKeys := w'.b.billingKeys)
    requires Linked(w.b.sessions, w'.p.sessions) && w'.p.requests == w.p.requests
    ensures Base(w', {})
  {
  }

  lemma SessionAddedTables(s: map<SessionId, Session>, s': map<SessionId, Session>, sid: SessionId, txs: map<Key, Tx>,
                           quotes: map<SessionRef, Quote>, outbox: map<TxId, Payload>, now: Time)
    requires Rows(s, txs) && Settles(s, txs, quotes) && QuotesLive(now, s, quotes) && OutboxRows(s, txs, outbox)
    requires SessionAdded(s, s', sid)
    ensures Rows(s', txs) && Settles(s', txs, quotes) && QuotesLive(now, s', quotes) && OutboxRows(s', txs, outbox)
  {
  }

  lemma SessionAddedCompleted(s: map<SessionId, Session>, s': map<SessionId, Session>, sid: SessionId, txs: map<Key, Tx>)
    requires CompletedByPayment(s, txs) && SessionAdded(s, s', sid) && s'[sid].status == Ongoing
    ensures CompletedByPayment(s', txs)
  {
  }

  lemma SessionAddedNotices(s: map<SessionId, Session>, s': map<SessionId, Session>, sid: SessionId, txs: map<Key, Tx>,
                            requests: map<Key, Notice>, retries: map<TxId, RetryEvent>, h: History, now: Time)
    requires Requests(s, txs, requests) && RetryEvents(now, s, txs, retries, h)
    requires SessionAdded(s, s', sid)
    ensures Requests(s', txs, requests) && RetryEvents(now, s', txs, retries, h)
  {
  }

  ghost predicate SessionAdded(s: map<SessionId, Session>, s': map<SessionId, Session>, sid: SessionId) {
    sid !in s && s'.Keys == s.Keys + {sid} && forall i | i in s :: s'[i] == s[i]
  }

  /** What a car's entry adds: at most one PMS session and at most one backend session, for each other. */
  lemma EnteredBackend(w: World, step: Step)
    requires step.Enter? && Possible(w, step)
    ensures var w' := Next(w, step);
            && w'.b == w.b.(sessions := w'.b.sessions, preNotify := w'.b.preNotify)
            && (w'.b.sessions == w.b.sessions ||
                (&& SessionAdded(w.b.sessions, w'.b.sessions, step.sid) && step.existing.None?
                 && var s := w'.b.sessions[step.sid]; s.status == Ongoing && s.pmsId == step.id && s.slot == step.slot && s.entry == step.entry))
  {
  }

  lemma EnteredPms(w: World, step: Step)
    requires step.Enter? && Possible(w, step)
    ensures var p' := Next(w, step).p;
            && p'.requests == w.p.requests && p'.rate == w.p.rate
            && p'.sessions == if step.existing.Some? then w.p.sessions
                              else w.p.sessions[step.id := PmsSession(step.slot, step.entry, PmsStatus.Active, None)]
  {
  }

  lemma EnteredLinked(s: map<SessionId, Session>, s': map<SessionId, Session>, sid: SessionId, pms: map<PmsId, PmsSession>, id: PmsId, row: PmsSession)
    requires Linked(s, pms) && id !in pms
    requires s' == s || (SessionAdded(s, s', sid) && s'[sid].pmsId == id && s'[sid].slot == row.slot && s'[sid].entry == row.entry)
    requires forall i | i in s :: s[i].pmsId != id
    ensures Linked(s', pms[id := row])
  {
  }

  lemma EnteredBase(w: World, step: Step)
    requires Base(w, {}) && step.Enter? && Possible(w, step)
    ensures Base(Next(w, step), {})
  {
    var w' := Next(w, step);
    EnteredBackend(w, step);
    EnteredPms(w, step);
    if step.existing.None? {
      EnteredLinked(w.b.sessions, w'.b.sessions, step.sid, w.p.sessions, step.id, w'.p.sessions[step.id]);
    }
    if w'.b.sessions == w.b.sessions {
      BaseFrame(w, w');
    } else {
      SessionAddedTables(w.b.sessions, w'.b.sessions, step.sid, w.b.txs, w.b.quotes, w.b.outbox, w.now);
      SessionAddedCompleted(w.b.sessions, w'.b.sessions, step.sid, w.b.txs);
      SessionAddedNotices(w.b.sessions, w'.b.sessions, step.sid, w.b.txs, w.p.requests, w.b.retries, w.h, w.now);
    }
  }

  /** What a fee request may add: one quote, for an ongoing session that had none. */
  lemma FeeAskedFrame(w: World, car: CarId, ref: SessionRef, atSlot: Option<PmsId>, link: Delivery)
    ensures var w' := FeeAsked(w, car, ref, atSlot, link).0;
            || w' == w
            || (&& ref in w'.b.quotes && w' == w.(b := w.b.(quotes := w.b.quotes[ref := w'.b.quotes[ref]]))
                && NewQuote(w.now, w.b.sessions, ref, w'.b.quotes[ref]))
  {
    forall e | Fees.Calculate(w.p.rate, e, w.now).Fee? ensures Fees.Calculate(w.p.rate, e, w.now).amount >= 0 {
      FeeNonNegative(w.p.rate, e, w.now);
    }
  }

  ghost predicate NewQuote(now: Time, s: map<SessionId, Session>, ref: SessionRef, q: Quote) {
    && ref.id in s && s[ref.id].status == Ongoing && q.amount >= 0
    && q.createdAt == now && q.expiresAt == now + Fees.FEE_QUOTE_TTL_SECONDS
  }

  /** A new quote is for an ongoing session, hence for one with no success under any spelling. */
  lemma QuoteAddedBase(w: World, w': World, ref: SessionRef, q: Quote)
    requires Base(w, {}) && NewQuote(w.now, w.b.sessions, ref, q) && w' == w.(b := w.b.(quotes := w.b.quotes[ref := q]))
    ensures Base(w', {})
  {
    assert Settles(w.b.sessions, w.b.txs, w'.b.quotes);
    assert QuotesLive(w.now, w.b.sessions, w'.b.quotes);
  }

  lemma FeeAskedBase(w: World, car: CarId, ref: SessionRef, atSlot: Option<PmsId>, link: Delivery)
    requires Base(w, {})
    ensures Base(FeeAsked(w, car, ref, atSlot, link).0, {})
  {
    var w' := FeeAsked(w, car, ref, atSlot, link).0;
    FeeAskedFrame(w, car, ref, atSlot, link);
    if w' != w {
      QuoteAddedBase(w, w', ref, w'.b.quotes[ref]);
    }
  }

  lemma FeeNonNegative(rate: nat, entry: Time, current: Time)
    requires Fees.Calculate(rate, entry, current).Fee?
    ensures Fees.Calculate(rate, entry, current).amount >= 0
  {
    Fees.MultipleMonotone(0, (Fees.TruncatedMinutes(current - entry) + Fees.MINUTES_PER_BLOCK - 1) / Fees.MINUTES_PER_BLOCK, rate);
  }

  lemma WaitedFrame(w: World, seconds: nat)
    ensures var w' := Next(w, Wait(seconds));
            && w'.now == w.now + seconds && w'.g == w.g && w'.c == w.c && w'.h == w.h
            && w'.p.sessions == w.p.sessions && w'.p.requests == w.p.requests
            && w'.b == w.b.(preNotify := w'.b.preNotify, quotes := w'.b.quotes, retries := w'.b.retries)
            && (forall r | r in w'.b.quotes :: r in w.b.quotes && w'.b.quotes[r] == w.b.quotes[r] && w'.b.quotes[r].expiresAt > w'.now)
            && (forall t | t in w'.b.retries :: t in w.b.retries && w'.b.retries[t] == w.b.retries[t] && w'.b.retries[t].expiresAt > w'.now)
            && (forall t | t in w.b.retries && w.b.retries[t].expiresAt > w'.now :: t in w'.b.retries)
  {
  }

  /** Whoever loses its retry event to the clock is remembered as expired. */
  lemma ExpiredRemembered(now: Time, later: Time, s: map<SessionId, Session>, txs: map<Key, Tx>, retries: map<TxId, RetryEvent>,
                          retries': map<TxId, RetryEvent>, requests: map<Key, Notice>, h: History)
    requires now <= later && RetryEvents(now, s, txs, retries, h) && NoneForgotten(now, txs, retries, requests, h, {})
    requires forall t | t in retries && retries[t].expiresAt > later :: t in retries'
    ensures NoneForgotten(later, txs, retries', requests, h, {})
  {
    forall k | Succeeded(txs, k) ensures Remembered(later, txs, retries', requests, h, k) {
      assert Remembered(now, txs, retries, requests, h, k);
    }
  }

  lemma WaitedBase(w: World, seconds: nat)
    requires Base(w, {})
    ensures Base(Next(w, Wait(seconds)), {})
  {
    var w' := Next(w, Wait(seconds));
    WaitedFrame(w, seconds);
    ExpiredRemembered(w.now, w'.now, w.b.sessions, w.b.txs, w.b.retries, w'.b.retries, w.p.requests, w.h);
    WaitedQuotes(w, w');
    assert RetryEvents(w'.now, w.b.sessions, w.b.txs, w'.b.retries, w.h);
  }

  lemma WaitedQuotes(w: World, w': World)
    requires Settles(w.b.sessions, w.b.txs, w.b.quotes) && QuotesLive(w.now, w.b.sessions, w.b.quotes) && w.now <= w'.now
    requires forall r | r in w'.b.quotes :: r in w.b.quotes && w'.b.quotes[r] == w.b.quotes[r] && w'.b.quotes[r].expiresAt > w'.now
    ensures Settles(w.b.sessions, w.b.txs, w'.b.quotes) && QuotesLive(w'.now, w.b.sessions, w'.b.quotes)
  {
  }

  lemma QuotesLostFrame(w: World, refs: set<SessionRef>)
    ensures var w' := Next(w, LoseQuotes(refs));
            w' == w.(b := w.b.(quotes := w'.b.quotes)) && forall r | r in w'.b.quotes :: r in w.b.quotes && w'.b.quotes[r] == w.b.quotes[r]
  {
  }

  lemma QuotesLostBase(w: World, refs: set<SessionRef>)
    requires Base(w, {})
    ensures Base(Next(w, LoseQuotes(refs)), {})
  {
    QuotesLostFrame(w, refs);
    WaitedQuotes(w, Next(w, LoseQuotes(refs)));
  }

  lemma LeftTables(w: World, slot: Slot, paid: Option<PmsId>)
    requires Linked(w.b.sessions, w.p.sessions)
    ensures var p' := LprExit(w.p, slot, paid, w.now).0;
            Linked(w.b.sessions, p'.sessions) && p'.requests == w.p.requests
  {
  }

  lemma LeftBase(w: World, slot: Slot, paid: Option<PmsId>)
    requires Base(w, {})
    ensures Base(Next(w, Leave(slot, paid)), {})
  {
    LeftTables(w, slot, paid);
    BaseFrame(w, Next(w, Leave(slot, paid)));
  }

  /** The steps that touch no table Base speaks of. */
  ghost predicate Unrelated(w: World, w': World) {
    && w'.now == w.now && w'.h == w.h && w'.g.txs == w.g.txs && w'.c.txs == w.c.txs
    && w'.b == w.b.(preNotify := w'.b.preNotify, billingKeys := w'.b.billingKeys)
    && w'.p.sessions == w.p.sessions && w'.p.requests == w.p.requests
  }

  lemma EnvironmentFrame(w: World, step: Step)
    requires step.PreRegister? || step.LoseCache? || step.SetBillingKeys? || step.SetPgKeys? || step.SetTokens?
    ensures Unrelated(w, Next(w, step))
  {
  }

  lemma UnrelatedBase(w: World, w': World)
    requires Base(w, {}) && Unrelated(w, w')
    ensures Base(w', {})
  {
    BaseFrame(w, w');
  }

  lemma StepBase(w: World, step: Step)
    requires Base(w, {}) && Possible(w, step)
    ensures Base(Next(w, step), {})
  {
    match step
    case Enter(_, _, _, _, _, _, _, _) => EnteredBase(w, step);
    case AskFee(car, ref, atSlot, link) => FeeAskedBase(w, car, ref, atSlot, link);
    case Pay(car, ref, amount, currency, draw, links) => PaymentBase(w, car, ref, amount, currency, draw, links);
    case Retry(txId, link) => RetriedBase(w, txId, link);
    case Leave(slot, paid) => LeftBase(w, slot, paid);
    case Wait(seconds) => WaitedBase(w, seconds);
    case LoseQuotes(refs) => QuotesLostBase(w, refs);
    case _ => EnvironmentFrame(w, step); UnrelatedBase(w, Next(w, step));
  }

  /** The base invariant of every run. */
  lemma {:induction false} RunBase(w: World, steps: seq<Step>)
    requires Base(w, {}) && PossibleRun(w, steps)
    ensures Base(Run(w, steps), {})
    decreases |steps|
  {
    if steps != [] {
      StepBase(w, steps[0]);
      RunBase(Next(w, steps[0]), steps[1..]);
    }
  }
}
