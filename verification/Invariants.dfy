/** What every reachable state of the protocol satisfies, split so that each part speaks of few tables.

    Base holds in every run. Exits holds as long as every notice the PMS records finds its session still active. */
module Invariants {
  import opened Ledgers
  import opened CardCompany
  import opened PaymentGateway
  import opened ParkingSystem
  import opened CarPayIn
  import opened Protocol
  import Fees

  // ----- backend tables

  ghost predicate Succeeded(txs: map<Key, Tx>, k: Key) {
    k in txs && txs[k].status == Success
  }

  /** A transaction row repeats its key's fields, for a session of that car. */
  ghost predicate Rows(sessions: map<SessionId, Session>, txs: map<Key, Tx>) {
    forall k | k in txs ::
      && k.ref.id in sessions && sessions[k.ref.id].car == k.car
      && txs[k].sid == k.ref.id && txs[k].car == k.car && txs[k].amount == k.amount && txs[k].currency == k.currency
      && k.amount >= 0
      && txs[k].status != Pending
      && (txs[k].status == Success ==> txs[k].approval.Some?)
  }

  ghost predicate TxIds(txs: map<Key, Tx>) {
    && (forall k, l | k in txs && l in txs && txs[k].txId == txs[l].txId :: k == l)
    && (forall k | k in txs && txs[k].txId.Uuid5? :: txs[k].txId.key == k)
  }

  /** A paid spelling of a session: the session is completed and a live quote is the paid one. */
  ghost predicate Settles(sessions: map<SessionId, Session>, txs: map<Key, Tx>, quotes: map<SessionRef, Quote>) {
    forall k | Succeeded(txs, k) && k.ref.id in sessions ::
      && sessions[k.ref.id].status == Completed
      && (k.ref in quotes ==> quotes[k.ref].amount == k.amount && quotes[k.ref].currency == k.currency)
  }

  ghost predicate OneSuccess(txs: map<Key, Tx>) {
    forall k, l | Succeeded(txs, k) && Succeeded(txs, l) && k.ref == l.ref :: k == l
  }

  /** A session is completed only by a payment of it. */
  ghost predicate CompletedByPayment(sessions: map<SessionId, Session>, txs: map<Key, Tx>) {
    forall s | s in sessions && sessions[s].status == Completed :: exists k :: Succeeded(txs, k) && k.ref.id == s
  }

  ghost predicate QuotesLive(now: Time, sessions: map<SessionId, Session>, quotes: map<SessionRef, Quote>) {
    forall r | r in quotes ::
      && r.id in sessions && quotes[r].amount >= 0
      && quotes[r].createdAt <= now < quotes[r].expiresAt == quotes[r].createdAt + Fees.FEE_QUOTE_TTL_SECONDS
  }

  ghost predicate PayloadOf(sessions: map<SessionId, Session>, txs: map<Key, Tx>, k: Key, p: Payload) {
    && k in txs && k.ref.id in sessions
    && p.ref == k.ref && p.car == k.car && p.lot == sessions[k.ref.id].slot.lot && p.amount == k.amount && p.currency == k.currency
    && txs[k].approval == Some(p.approval)
  }

  /** Success transactions and outbox rows correspond one to one. */
  ghost predicate OutboxRows(sessions: map<SessionId, Session>, txs: map<Key, Tx>, outbox: map<TxId, Payload>) {
    && (forall k | Succeeded(txs, k) :: txs[k].txId in outbox && PayloadOf(sessions, txs, k, outbox[txs[k].txId]))
    && (forall t | t in outbox :: exists k :: Succeeded(txs, k) && txs[k].txId == t)
  }

  // ----- the three payment ledgers

  ghost predicate PgPaid(g: map<Key, PgTx>, k: Key) {
    k in g && g[k].status == Success
  }

  ghost predicate CardPaid(c: map<Key, CardTx>, k: Key) {
    k in c && c[k].status == Success
  }

  /** Every PG row is the backend's request under that key; every card row is the PG's. */
  ghost predicate LedgerKeys(txs: map<Key, Tx>, g: map<Key, PgTx>, c: map<Key, CardTx>, h: History) {
    && (forall k | k in g :: k in txs && k.amount > 0 && g[k].amount == k.amount && g[k].currency == k.currency && g[k].status != Pending)
    && (forall k | k in c :: k in g && c[k].amount == k.amount && c[k].currency == k.currency && c[k].status != Pending)
    && (forall k | k in h.pgLost || k in h.cardLost :: k in txs)
  }

  /** A backend success is free, or is a PG success with the same approval number; a PG success is a card success with it. */
  ghost predicate LedgerBacked(txs: map<Key, Tx>, g: map<Key, PgTx>, c: map<Key, CardTx>) {
    && (forall k | Succeeded(txs, k) ::
          if k.amount == 0 then txs[k].approval == Some(FREE) && txs[k].billingKey == None
          else PgPaid(g, k) && g[k].approval == txs[k].approval)
    && (forall k | PgPaid(g, k) :: CardPaid(c, k) && c[k].approval == g[k].approval && c[k].approval.Some?)
    && (forall k | CardPaid(c, k) :: c[k].approval.Some?)
  }

  /** Along each link a success is missing on the caller's side exactly when the answer was lost. */
  ghost predicate LedgerLosses(txs: map<Key, Tx>, g: map<Key, PgTx>, c: map<Key, CardTx>, h: History) {
    && (forall k | PgPaid(g, k) :: Succeeded(txs, k) <==> k !in h.pgLost)
    && (forall k | CardPaid(c, k) :: PgPaid(g, k) <==> k !in h.cardLost)
  }

  // ----- backend and PMS

  /** Each backend session is one PMS session of the same slot and entry time. */
  ghost predicate Linked(sessions: map<SessionId, Session>, pms: map<PmsId, PmsSession>) {
    && (forall s | s in sessions ::
          sessions[s].pmsId in pms && pms[sessions[s].pmsId].slot == sessions[s].slot && pms[sessions[s].pmsId].entry == sessions[s].entry)
    && (forall s, t | s in sessions && t in sessions && sessions[s].pmsId == sessions[t].pmsId :: s == t)
  }

  ghost predicate NoticeOf(sessions: map<SessionId, Session>, txs: map<Key, Tx>, n: Notice) {
    && Succeeded(txs, n.key) && n.key.ref.id in sessions
    && n.pmsId == sessions[n.key.ref.id].pmsId && n.ref == n.key.ref && n.txId == txs[n.key].txId
    && n.amount == n.key.amount && n.currency == n.key.currency && n.approval == txs[n.key].approval
  }

  /** The PMS holds only payment requests of backend successes, under their own keys. */
  ghost predicate Requests(sessions: map<SessionId, Session>, txs: map<Key, Tx>, requests: map<Key, Notice>) {
    forall k | k in requests :: requests[k].key == k && NoticeOf(sessions, txs, requests[k])
  }

  /** Every pending retry event is the notice of a success, kept until the recorded time. */
  ghost predicate RetryEvents(now: Time, sessions: map<SessionId, Session>, txs: map<Key, Tx>, retries: map<TxId, RetryEvent>, h: History) {
    forall t | t in retries ::
      && retries[t].notice.txId == t && NoticeOf(sessions, txs, retries[t].notice)
      && t in h.retryUntil && retries[t].expiresAt == h.retryUntil[t] > now
  }

  /** The success under k is known to the PMS, or its notice waits, or its retry event has expired. */
  ghost predicate Remembered(now: Time, txs: map<Key, Tx>, retries: map<TxId, RetryEvent>, requests: map<Key, Notice>, h: History, k: Key)
    requires k in txs
  {
    || k in requests
    || txs[k].txId in retries
    || (txs[k].txId in h.retryUntil && h.retryUntil[txs[k].txId] <= now)
  }

  ghost predicate NoneForgotten(now: Time, txs: map<Key, Tx>, retries: map<TxId, RetryEvent>, requests: map<Key, Notice>, h: History, open: set<Key>) {
    forall k | Succeeded(txs, k) && k !in open :: Remembered(now, txs, retries, requests, h, k)
  }

  /** The invariant of every run. open holds the keys whose notice is still to be sent by the running handler. */
  ghost predicate Base(w: World, open: set<Key>) {
    && Rows(w.b.sessions, w.b.txs) && TxIds(w.b.txs)
    && Settles(w.b.sessions, w.b.txs, w.b.quotes) && OneSuccess(w.b.txs) && QuotesLive(w.now, w.b.sessions, w.b.quotes)
    && OutboxRows(w.b.sessions, w.b.txs, w.b.outbox) && CompletedByPayment(w.b.sessions, w.b.txs)
    && LedgerKeys(w.b.txs, w.g.txs, w.c.txs, w.h) && LedgerBacked(w.b.txs, w.g.txs, w.c.txs) && LedgerLosses(w.b.txs, w.g.txs, w.c.txs, w.h)
    && Linked(w.b.sessions, w.p.sessions) && Requests(w.b.sessions, w.b.txs, w.p.requests)
    && RetryEvents(w.now, w.b.sessions, w.b.txs, w.b.retries, w.h)
    && NoneForgotten(w.now, w.b.txs, w.b.retries, w.p.requests, w.h, open)
  }

  // ----- exits, as long as no session is recorded as paid twice

  /** An ongoing backend session is active at the PMS. */
  ghost predicate InStep(sessions: map<SessionId, Session>, pms: map<PmsId, PmsSession>) {
    forall s | s in sessions && sessions[s].status == Ongoing :: pms.Keys >= {sessions[s].pmsId} && pms[sessions[s].pmsId].status == PmsStatus.Active
  }

  /** A PMS session has left "active" exactly when a payment request for it was saved. */
  ghost predicate PaidByRequest(pms: map<PmsId, PmsSession>, requests: map<Key, Notice>) {
    && (forall k | k in requests :: requests[k].pmsId in pms && pms[requests[k].pmsId].status != PmsStatus.Active)
    && (forall id | id in pms && pms[id].status != PmsStatus.Active :: exists k :: k in requests && requests[k].pmsId == id)
  }

  ghost predicate OneRequestEach(requests: map<Key, Notice>) {
    forall k, l | k in requests && l in requests && requests[k].pmsId == requests[l].pmsId :: k == l
  }

  ghost predicate OneActivePerPlate(pms: map<PmsId, PmsSession>) {
    forall i, j | i in pms && j in pms && pms[i].status == PmsStatus.Active && pms[j].status == PmsStatus.Active && pms[i].slot.plate == pms[j].slot.plate :: i == j
  }

  /** The session cache agrees with the table, and an active session's slot holds itself or nothing. */
  ghost predicate CacheAgrees(pms: map<PmsId, PmsSession>, cache: map<Slot, CacheEntry>) {
    && (forall s | s in cache ::
          cache[s].pmsId in pms && pms[cache[s].pmsId].slot == s && cache[s].status == pms[cache[s].pmsId].status && cache[s].status != Exited)
    && (forall id | id in pms && pms[id].status == PmsStatus.Active && pms[id].slot in cache :: cache[pms[id].slot].pmsId == id)
  }

  /** The barrier log is exactly what the statuses say: one opening when paid, one more when exited. */
  ghost predicate BarrierLog(pms: map<PmsId, PmsSession>, openings: seq<Opening>) {
    && (forall i, j | 0 <= i < j < |openings| :: openings[i] != openings[j])
    && (forall id :: OnPayment(id) in openings <==> id in pms && pms[id].status != PmsStatus.Active)
    && (forall id :: OnExit(id) in openings <==> id in pms && pms[id].status == Exited)
  }

  /** A live quote is the fee of its own session at the time it was made. */
  ghost predicate QuotesPriced(rate: nat, sessions: map<SessionId, Session>, quotes: map<SessionRef, Quote>) {
    forall r | r in quotes && r.id in sessions ::
      var fee := Fees.Calculate(rate, sessions[r.id].entry, quotes[r].createdAt);
      fee.Fee? && fee.amount == quotes[r].amount && quotes[r].currency == KRW
  }

  ghost predicate Exits(w: World) {
    && InStep(w.b.sessions, w.p.sessions)
    && PaidByRequest(w.p.sessions, w.p.requests)
    && OneRequestEach(w.p.requests)
    && OneActivePerPlate(w.p.sessions)
    && CacheAgrees(w.p.sessions, w.p.cache)
    && BarrierLog(w.p.sessions, w.p.openings)
    && QuotesPriced(w.p.rate, w.b.sessions, w.b.quotes)
  }
}
