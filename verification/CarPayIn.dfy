/** The Car Pay-in backend's own tables and Redis keys, and what each commit does to them. As in the PMS,
    a Redis map holds the live keys only. */
module CarPayIn {
  import opened Ledgers
  import opened ParkingSystem
  import Fees

  const PAYMENT_NOTIFY_RETRY_TTL_SECONDS := 7 * 24 * 60 * 60
  const PRE_NOTIFY_TTL_SECONDS := 60 * 60

  datatype SessionStatus = Ongoing | Completed

  datatype Session = Session(pmsId: PmsId, car: CarId, slot: Slot, entry: Time, status: SessionStatus, exitTime: Option<Time>)

  /** billingKey is None for a free payment, which stores the text FREE instead. */
  datatype Tx = Tx(txId: TxId, sid: SessionId, car: CarId, billingKey: Option<BillingKey>, amount: int, currency: Currency,
                   status: TxStatus, pgTxId: Option<nat>, approval: Option<ApprovalNo>)

  datatype Quote = Quote(amount: int, duration: int, currency: Currency, createdAt: Time, expiresAt: Time)

  datatype RetryEvent = RetryEvent(notice: Notice, expiresAt: Time)

  datatype PreNotify = PreNotify(car: CarId, expiresAt: Time)

  datatype BillingKeyRow = BillingKeyRow(billingKey: BillingKey, active: bool)

  /** The payload of an outbox row; the table has at most one row per transaction. */
  datatype Payload = Payload(ref: SessionRef, car: CarId, lot: LotId, amount: int, currency: Currency, approval: ApprovalNo)

  datatype Backend = Backend(sessions: map<SessionId, Session>, txs: map<Key, Tx>, quotes: map<SessionRef, Quote>,
                             retries: map<TxId, RetryEvent>, preNotify: map<Slot, PreNotify>,
                             billingKeys: map<CarId, BillingKeyRow>, outbox: map<TxId, Payload>)

  function Purged(b: Backend, now: Time): Backend {
    b.(quotes := map r | r in b.quotes && now < b.quotes[r].expiresAt :: b.quotes[r],
       retries := map t | t in b.retries && now < b.retries[t].expiresAt :: b.retries[t],
       preNotify := map s | s in b.preNotify && now < b.preNotify[s].expiresAt :: b.preNotify[s])
  }

  // ----- transactions

  function Inserted(b: Backend, key: Key, txId: TxId, billingKey: Option<BillingKey>): Backend
    requires key.ref.id in b.sessions
  {
    b.(txs := b.txs[key := Tx(txId, key.ref.id, b.sessions[key.ref.id].car, billingKey, key.amount, key.currency, Pending, None, None)])
  }

  function MarkedFailed(b: Backend, key: Key): Backend
    requires key in b.txs
  {
    b.(txs := b.txs[key := b.txs[key].(status := Failed, pgTxId := None, approval := None)])
  }

  /** The success update and the outbox insert are one commit; a second outbox row is never added. */
  function MarkedSuccess(b: Backend, key: Key, pgTxId: Option<nat>, approval: ApprovalNo, payload: Payload): Backend
    requires key in b.txs
  {
    var txId := b.txs[key].txId;
    b.(txs := b.txs[key := b.txs[key].(status := Success, pgTxId := pgTxId, approval := Some(approval))],
       outbox := if txId in b.outbox then b.outbox else b.outbox[txId := payload])
  }

  function CompletedSession(b: Backend, id: SessionId, now: Time): Backend
    requires id in b.sessions
  {
    var s := b.sessions[id];
    b.(sessions := b.sessions[id := s.(status := Completed, exitTime := if s.exitTime.None? then Some(now) else s.exitTime)])
  }

  function PayloadFor(b: Backend, key: Key, approval: ApprovalNo): Payload
    requires key.ref.id in b.sessions
  {
    Payload(key.ref, key.car, b.sessions[key.ref.id].slot.lot, key.amount, key.currency, approval)
  }

  function NoticeFor(b: Backend, key: Key): Notice
    requires key.ref.id in b.sessions && key in b.txs
  {
    Notice(b.sessions[key.ref.id].pmsId, key.ref, b.txs[key].txId, key.amount, key.currency, b.txs[key].approval, key)
  }

  // ----- sessions

  ghost predicate ByPmsId(sessions: map<SessionId, Session>, id: PmsId, answer: Option<SessionId>) {
    match answer
    case Some(s) => s in sessions && sessions[s].pmsId == id
    case None => forall s | s in sessions :: sessions[s].pmsId != id
  }

  ghost predicate OngoingByCar(sessions: map<SessionId, Session>, car: CarId, answer: Option<SessionId>) {
    match answer
    case Some(s) => s in sessions && sessions[s].car == car && sessions[s].status == Ongoing
    case None => forall s | s in sessions :: !(sessions[s].car == car && sessions[s].status == Ongoing)
  }

  datatype EntryReply = InvalidSignature | InvalidEntryTime | NotRegistered | Confirmed(id: SessionId)

  /** The PMS's entry webhook. known is the session table's answer for the PMS id, ongoing its answer for the
      pre-notified car, id the new random id. */
  function EntryConfirmed(b: Backend, hook: EntryWebhook, id: SessionId, known: Option<SessionId>, ongoing: Option<SessionId>)
    : (Backend, EntryReply)
  {
    if known.Some? then (b, Confirmed(known.value))
    else if hook.slot !in b.preNotify then (b, NotRegistered)
    else
      var car := b.preNotify[hook.slot].car;
      if ongoing.Some? then (b, Confirmed(ongoing.value))
      else
        (b.(sessions := b.sessions[id := Session(hook.pmsId, car, hook.slot, hook.entry, Ongoing, None)],
            preNotify := b.preNotify - {hook.slot}),
         Confirmed(id))
  }

  // ----- fee quotes

  datatype FeeReply = Quoted(amount: int, duration: int, currency: Currency) | QSessionNotFound | QNotActive | QCarMismatch | QPmsFailed

  /** Whether a fee request gets as far as asking the PMS. */
  predicate AsksPms(b: Backend, car: CarId, ref: SessionRef) {
    ref !in b.quotes && ref.id in b.sessions && b.sessions[ref.id].status == Ongoing && b.sessions[ref.id].car == car
  }

  /** owed is what the PMS answered; a query whose answer is lost, or that failed there, raises. */
  function FeeQuoted(b: Backend, car: CarId, ref: SessionRef, owed: FeeQuery, link: Delivery, now: Time): (Backend, FeeReply)
  {
    if ref in b.quotes then
      (b, Quoted(b.quotes[ref].amount, b.quotes[ref].duration, b.quotes[ref].currency))
    else if ref.id !in b.sessions then (b, QSessionNotFound)
    else if b.sessions[ref.id].status != Ongoing then (b, QNotActive)
    else if b.sessions[ref.id].car != car then (b, QCarMismatch)
    else if !link.Received? || !owed.Owed? then (b, QPmsFailed)
    else
      (b.(quotes := b.quotes[ref := Quote(owed.amount, owed.duration, KRW, now, now + Fees.FEE_QUOTE_TTL_SECONDS)]),
       Quoted(owed.amount, owed.duration, KRW))
  }
}
