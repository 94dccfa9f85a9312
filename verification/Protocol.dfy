/** The four services together, one handler at a time. A step is one request with the fate of its remote
    calls, one retry, or a move of the environment; a run is any sequence of steps. */
module Protocol {
  import opened Ledgers
  import opened CardCompany
  import opened PaymentGateway
  import opened ParkingSystem
  import opened CarPayIn

  /** What happened on the wire: keys whose card or PG answer was lost, and until when the last recorded
      retry event of a transaction is kept. No handler reads it. */
  datatype History = History(cardLost: set<Key>, pgLost: set<Key>, retryUntil: map<TxId, Time>)

  datatype World = World(now: Time, b: Backend, p: Pms, g: Pg, c: Card, h: History)

  // ----- one payment

  datatype PayError = QuoteNotFound | AmountCurrencyMismatch | PSessionNotFound | SessionCarMismatch | InvalidAmount | NoActiveBillingKey

  datatype PayResult = Rejected(error: PayError) | Replied(status: TxStatus, txId: TxId, approval: Option<ApprovalNo>)

  function RetryRecorded(w: World, n: Notice): World {
    var until := w.now + PAYMENT_NOTIFY_RETRY_TTL_SECONDS;
    w.(b := w.b.(retries := w.b.retries[n.txId := RetryEvent(n, until)]),
       h := w.h.(retryUntil := w.h.retryUntil[n.txId := until]))
  }

  /** Telling the PMS: any failure records a retry event, an answer clears it. */
  function Notified(w: World, n: Notice, link: Delivery): World {
    if link.NotDelivered? then RetryRecorded(w, n)
    else
      var (p', r) := Recording(w.p, n, w.now);
      var w' := w.(p := p');
      if link.Received? && r.Recorded? then w'.(b := w.b.(retries := w.b.retries - {n.txId}))
      else RetryRecorded(w', n)
  }

  /** The charge request and what the backend's client makes of it. */
  function PgCalled(w: World, key: Key, billingKey: BillingKey, draw: Draw, links: Links): (World, PgResult) {
    if links.pg.NotDelivered? then (w, ClientRaised)
    else
      var (g', c', r) := Charge(w.g, w.c, billingKey, key, draw, links.card);
      (w.(g := g', c := c',
          h := w.h.(cardLost := if links.card.ResponseLost? then w.h.cardLost + {key} else w.h.cardLost,
                    pgLost := if links.pg.ResponseLost? then w.h.pgLost + {key} else w.h.pgLost)),
       Understood(Heard(r, links.pg)))
  }

  /** Success commit, then session completion. */
  function Finished(w: World, key: Key, pgTxId: Option<nat>, approval: ApprovalNo): World
    requires key in w.b.txs && key.ref.id in w.b.sessions
  {
    w.(b := CompletedSession(MarkedSuccess(w.b, key, pgTxId, approval, PayloadFor(w.b, key, approval)), key.ref.id, w.now))
  }

  function FreePayment(w: World, key: Key, links: Links): (World, PayResult)
    requires key.ref.id in w.b.sessions
  {
    var w1 := w.(b := Inserted(w.b, key, Uuid5(key), None));
    var w2 := Finished(w1, key, None, FREE);
    (Notified(w2, NoticeFor(w2.b, key), links.pms), Replied(Success, Uuid5(key), Some(FREE)))
  }

  /** A card payment up to the point where the PMS is told: insert, charge, and either the success
      commits or the failure commit. */
  function CardSettled(w: World, key: Key, billingKey: BillingKey, draw: Draw, links: Links): (w': World)
    requires key.ref.id in w.b.sessions
    ensures key in w'.b.txs && key.ref.id in w'.b.sessions
  {
    var w1 := w.(b := Inserted(w.b, key, Uuid4(draw.tx), Some(billingKey)));
    var (w2, result) := PgCalled(w1, key, billingKey, draw, links);
    if result.Approved? then Finished(w2, key, Some(result.pgTxId), result.approval)
    else w2.(b := MarkedFailed(w2.b, key))
  }

  function CardPayment(w: World, key: Key, billingKey: BillingKey, draw: Draw, links: Links): (World, PayResult)
    requires key.ref.id in w.b.sessions
  {
    var w' := CardSettled(w, key, billingKey, draw, links);
    var t := w'.b.txs[key];
    (if t.status.Success? then Notified(w', NoticeFor(w'.b, key), links.pms) else w', Replied(t.status, t.txId, t.approval))
  }

  function Payment(w: World, car: CarId, ref: SessionRef, amount: int, currency: Currency, draw: Draw, links: Links): (World, PayResult)
  {
    if ref !in w.b.quotes then (w, Rejected(QuoteNotFound))
    else if w.b.quotes[ref].amount != amount || w.b.quotes[ref].currency != currency then (w, Rejected(AmountCurrencyMismatch))
    else if ref.id !in w.b.sessions then (w, Rejected(PSessionNotFound))
    else if w.b.sessions[ref.id].car != car then (w, Rejected(SessionCarMismatch))
    else
      var key := Key(ref, car, amount, currency);
      if key in w.b.txs then
        var t := w.b.txs[key];
        (if t.status.Success? then Notified(w, NoticeFor(w.b, key), links.pms) else w,
         Replied(t.status, t.txId, t.approval))
      else if amount < 0 then (w, Rejected(InvalidAmount))
      else if amount == 0 then FreePayment(w, key, links)
      else if car !in w.b.billingKeys || !w.b.billingKeys[car].active then (w, Rejected(NoActiveBillingKey))
      else CardPayment(w, key, w.b.billingKeys[car].billingKey, draw, links)
  }

  /** One retry event, sent again by the worker: deleted when the PMS answers, otherwise kept as it is. */
  function Retried(w: World, txId: TxId, link: Delivery): World {
    if txId !in w.b.retries || link.NotDelivered? then w
    else
      var (p', r) := Recording(w.p, w.b.retries[txId].notice, w.now);
      var w' := w.(p := p');
      if link.Received? && r.Recorded? then w'.(b := w.b.(retries := w.b.retries - {txId})) else w'
  }

  // ----- steps

  /** Arguments named id are fresh random ids; existing, known, ongoing, paid and atSlot are answers of
      the session tables. */
  datatype Step =
    | PreRegister(car: CarId, slot: Slot, link: Delivery)
    | Enter(slot: Slot, entry: Time, id: PmsId, existing: Option<PmsId>,
            link: Delivery, sid: SessionId, known: Option<SessionId>, ongoing: Option<SessionId>)
    | AskFee(car: CarId, ref: SessionRef, atSlot: Option<PmsId>, link: Delivery)
    | Pay(car: CarId, ref: SessionRef, amount: int, currency: Currency, draw: Draw, links: Links)
    | Retry(txId: TxId, link: Delivery)
    | Leave(slot: Slot, paid: Option<PmsId>)
    | Wait(seconds: nat)                                       // time passes, Redis drops what has expired
    | LoseCache(slots: set<Slot>)                              // the PMS's Redis restarts or evicts,
    | LoseQuotes(refs: set<SessionRef>)                        // the backend's Redis evicts fee quotes
    | SetBillingKeys(billingKeys: map<CarId, BillingKeyRow>)   // any card registration or deactivation:
    | SetPgKeys(keys: map<BillingKey, PgKey>)                  // in the backend, in the PG,
    | SetTokens(tokens: map<CardToken, bool>)                  // at the card company

  /** What the databases and the id generators guarantee of a step's arguments. */
  ghost predicate Possible(w: World, step: Step) {
    match step
    case Enter(slot, entry, id, existing, link, sid, known, ongoing) =>
      && ActiveByPlate(w.p.sessions, slot.plate, existing)
      && id !in w.p.sessions
      && (forall s | s in w.b.sessions :: w.b.sessions[s].pmsId != id)
      && sid !in w.b.sessions
      && ByPmsId(w.b.sessions, id, known)
      && (slot in w.b.preNotify ==> OngoingByCar(w.b.sessions, w.b.preNotify[slot].car, ongoing))
    case AskFee(car, ref, atSlot, _) =>
      AsksPms(w.b, car, ref) ==> WithStatusAt(w.p.sessions, w.b.sessions[ref.id].slot, PmsStatus.Active, atSlot)
    case Pay(_, _, _, _, draw, _) => forall k | k in w.b.txs :: w.b.txs[k].txId != Uuid4(draw.tx)
    case Leave(slot, paid) => slot !in w.p.cache ==> WithStatusAt(w.p.sessions, slot, Paid, paid)
    case _ => true
  }

  function Entered(w: World, step: Step): World
    requires step.Enter?
  {
    var (p', _, webhook) := LprEntry(w.p, step.slot, step.entry, step.id, step.existing, w.now);
    w.(p := p',
       b := if webhook.Some? && !step.link.NotDelivered?
            then EntryConfirmed(w.b, webhook.value, step.sid, step.known, step.ongoing).0 else w.b)
  }

  function PreRegistered(w: World, car: CarId, slot: Slot, link: Delivery): World {
    if car !in w.b.billingKeys || !w.b.billingKeys[car].active then w
    else
      w.(b := w.b.(preNotify := w.b.preNotify[slot := PreNotify(car, w.now + PRE_NOTIFY_TTL_SECONDS)]),
         p := if link.NotDelivered? then w.p
              else w.p.(preRegistrations := w.p.preRegistrations[slot := w.now + PRE_REG_TTL_SECONDS]))
  }

  function FeeAsked(w: World, car: CarId, ref: SessionRef, atSlot: Option<PmsId>, link: Delivery): (World, FeeReply) {
    var owed := if AsksPms(w.b, car, ref) && (atSlot.Some? ==> atSlot.value in w.p.sessions)
                then FeeOwed(w.p, w.b.sessions[ref.id].pmsId, atSlot, w.now) else SessionNotFound;
    var (b', r) := FeeQuoted(w.b, car, ref, owed, link, w.now);
    (w.(b := b'), r)
  }

  function Next(w: World, step: Step): World {
    match step
    case PreRegister(car, slot, link) => PreRegistered(w, car, slot, link)
    case Enter(_, _, _, _, _, _, _, _) => Entered(w, step)
    case AskFee(car, ref, atSlot, link) => FeeAsked(w, car, ref, atSlot, link).0
    case Pay(car, ref, amount, currency, draw, links) => Payment(w, car, ref, amount, currency, draw, links).0
    case Retry(txId, link) => Retried(w, txId, link)
    case Leave(slot, paid) => w.(p := LprExit(w.p, slot, paid, w.now).0)
    case Wait(seconds) =>
      w.(now := w.now + seconds, b := Purged(w.b, w.now + seconds), p := CacheExpired(w.p, w.now + seconds))
    case LoseQuotes(refs) => w.(b := w.b.(quotes := w.b.quotes - refs))
    case LoseCache(slots) => w.(p := w.p.(cache := w.p.cache - slots))
    case SetBillingKeys(billingKeys) => w.(b := w.b.(billingKeys := billingKeys))
    case SetPgKeys(keys) => w.(g := w.g.(keys := keys))
    case SetTokens(tokens) => w.(c := w.c.(tokens := tokens))
  }

  // ----- runs

  function Start(now: Time, rate: nat): World {
    World(now, Backend(map[], map[], map[], map[], map[], map[], map[]),
          Pms(map[], map[], map[], map[], [], rate), Pg(map[], map[]), Card(map[], map[]), History({}, {}, map[]))
  }

  function Run(w: World, steps: seq<Step>): World
    decreases |steps|
  {
    if steps == [] then w else Run(Next(w, steps[0]), steps[1..])
  }

  ghost predicate PossibleRun(w: World, steps: seq<Step>)
    decreases |steps|
  {
    steps != [] ==> Possible(w, steps[0]) && PossibleRun(Next(w, steps[0]), steps[1..])
  }

  /** A payment spells its session id as this table says. Spelling every id canonically is the table that is always 0. */
  predicate Spells(step: Step, spelling: SessionId -> nat) {
    step.Pay? ==> step.ref.spelling == spelling(step.ref.id)
  }

  /** All payments of a session in the run spell its id in one way. */
  predicate ConsistentRun(steps: seq<Step>, spelling: SessionId -> nat) {
    forall i | 0 <= i < |steps| :: Spells(steps[i], spelling)
  }
}
