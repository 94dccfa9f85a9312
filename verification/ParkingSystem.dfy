/** The parking management system (PMS): its session table, its payment requests, and the Redis
    session cache that the exit lane reads first. The cache map holds the live keys only; letting
    an expired key go is a step of Redis itself (CacheExpired). */
module ParkingSystem {
  import opened Ledgers
  import Fees

  const SESSION_TTL_SECONDS := 72 * 60 * 60
  const PRE_REG_TTL_SECONDS := 60 * 60

  datatype PmsStatus = Active | Paid | Exited

  datatype PmsSession = PmsSession(slot: Slot, entry: Time, status: PmsStatus, exitTime: Option<Time>)

  datatype CacheEntry = CacheEntry(pmsId: PmsId, entry: Time, status: PmsStatus, expiresAt: Time)

  /** The body of the backend's payment notice. */
  datatype Notice = Notice(pmsId: PmsId, ref: SessionRef, txId: TxId, amount: int, currency: Currency,
                           approval: Option<ApprovalNo>, key: Key)

  /** An opening of the exit barrier, by what caused it. */
  datatype Opening = OnPayment(pmsId: PmsId) | OnExit(pmsId: PmsId)

  /** requests holds the payment request saved under each idempotency key. openings is the log of
      commands sent to the exit barrier. rate is the price of a block. */
  datatype Pms = Pms(sessions: map<PmsId, PmsSession>, requests: map<Key, Notice>, cache: map<Slot, CacheEntry>,
                     preRegistrations: map<Slot, Time>, openings: seq<Opening>, rate: nat)

  // ----- the answers the session table may give

  ghost predicate ActiveByPlate(sessions: map<PmsId, PmsSession>, plate: Plate, answer: Option<PmsId>) {
    match answer
    case Some(id) => id in sessions && sessions[id].slot.plate == plate && sessions[id].status == Active
    case None => forall id | id in sessions :: !(sessions[id].slot.plate == plate && sessions[id].status == Active)
  }

  ghost predicate WithStatusAt(sessions: map<PmsId, PmsSession>, slot: Slot, status: PmsStatus, answer: Option<PmsId>) {
    match answer
    case Some(id) => id in sessions && sessions[id].slot == slot && sessions[id].status == status
    case None => forall id | id in sessions :: !(sessions[id].slot == slot && sessions[id].status == status)
  }

  // ----- the cache

  function CacheStatusUpdated(cache: map<Slot, CacheEntry>, slot: Slot, status: PmsStatus, now: Time): map<Slot, CacheEntry> {
    if slot !in cache then cache
    else
      var ttl := cache[slot].expiresAt - now;
      cache[slot := cache[slot].(status := status, expiresAt := now + if ttl > 0 then ttl else SESSION_TTL_SECONDS)]
  }

  function CacheExpired(p: Pms, now: Time): Pms {
    p.(cache := map s | s in p.cache && now < p.cache[s].expiresAt :: p.cache[s],
       preRegistrations := map s | s in p.preRegistrations && now < p.preRegistrations[s] :: p.preRegistrations[s])
  }

  // ----- the handlers

  datatype EntryResult = Existing(id: PmsId) | Created(id: PmsId)

  datatype EntryWebhook = EntryWebhook(pmsId: PmsId, slot: Slot, entry: Time)

  /** A car at the entry lane. existing is the session table's answer for its plate, id the new random id.
      The third result is the webhook the handler sends last, if the plate was pre-registered. */
  function LprEntry(p: Pms, slot: Slot, entry: Time, id: PmsId, existing: Option<PmsId>, now: Time)
    : (Pms, EntryResult, Option<EntryWebhook>)
  {
    match existing
    case Some(id0) => (p, Existing(id0), None)
    case None =>
      var q := p.(sessions := p.sessions[id := PmsSession(slot, entry, Active, None)],
                  cache := p.cache[slot := CacheEntry(id, entry, Active, now + SESSION_TTL_SECONDS)]);
      if slot in p.preRegistrations then
        (q.(preRegistrations := p.preRegistrations - {slot}), Created(id), Some(EntryWebhook(id, slot, entry)))
      else
        (q, Created(id), None)
  }

  datatype RecordResult = RecordRaised | Recorded

  /** A payment notice. Saving it for an unknown session breaks a foreign key, so nothing is written. */
  function Recording(p: Pms, n: Notice, now: Time): (Pms, RecordResult)
  {
    if n.key in p.requests then (p, Recorded)
    else if n.pmsId !in p.sessions then (p, RecordRaised)
    else
      var s := p.sessions[n.pmsId];
      (p.(requests := p.requests[n.key := n],
          sessions := p.sessions[n.pmsId := s.(status := Paid)],
          cache := CacheStatusUpdated(p.cache, s.slot, Paid, now),
          openings := p.openings + [OnPayment(n.pmsId)]),
       Recorded)
  }

  datatype ExitResult = NotPaid | NotFound | Opened(id: PmsId) | ExitRaised

  function OpenedAndExited(p: Pms, id: PmsId, slot: Slot, fromRedis: bool, now: Time): (Pms, ExitResult)
  {
    var q := p.(openings := p.openings + [OnExit(id)], cache := if fromRedis then p.cache - {slot} else p.cache);
    if id !in p.sessions then (q, ExitRaised)
    else (q.(sessions := p.sessions[id := p.sessions[id].(status := Exited, exitTime := Some(now))]), Opened(id))
  }

  /** A car at the exit lane: the cache decides; only when it has no entry is the table asked.
      paid is the table's answer for a paid session of that slot. */
  function LprExit(p: Pms, slot: Slot, paid: Option<PmsId>, now: Time): (Pms, ExitResult)
  {
    if slot in p.cache then
      if p.cache[slot].status == Paid then OpenedAndExited(p, p.cache[slot].pmsId, slot, true, now)
      else (p, NotPaid)
    else
      match paid
      case Some(id) => OpenedAndExited(p, id, slot, false, now)
      case None => (p, NotFound)
  }

  datatype FeeQuery = SessionNotFound | SessionNotActive | BadTime | Owed(amount: int, duration: int)

  /** The session a fee query is about: by lot and plate first, by id as a fallback.
      atSlot is the table's answer for an active session of that slot. */
  function FoundSession(p: Pms, id: PmsId, atSlot: Option<PmsId>): Option<PmsId> {
    if atSlot.Some? then atSlot
    else if id in p.sessions then Some(id)
    else None
  }

  function FeeOwed(p: Pms, id: PmsId, atSlot: Option<PmsId>, now: Time): FeeQuery
    requires atSlot.Some? ==> atSlot.value in p.sessions
  {
    match FoundSession(p, id, atSlot)
    case None => SessionNotFound
    case Some(found) =>
      if p.sessions[found].status != Active then SessionNotActive
      else
        match Fees.Calculate(p.rate, p.sessions[found].entry, now)
        case InvalidCurrentTime => BadTime
        case Fee(amount, duration) => Owed(amount, duration)
  }

  class PmsService {
    var sessions: map<PmsId, PmsSession>
    var requests: map<Key, Notice>
    var cache: map<Slot, CacheEntry>
    var preRegistrations: map<Slot, Time>
    var openings: seq<Opening>
    const rate: nat

    constructor (rate: nat)
      ensures View() == Pms(map[], map[], map[], map[], [], rate)
    {
      this.rate := rate;
      sessions, requests, cache, preRegistrations, openings := map[], map[], map[], map[], [];
    }

    function View(): Pms
      reads this
    {
      Pms(sessions, requests, cache, preRegistrations, openings, rate)
    }

    // ----- session table

    method GetActiveSessionByPlate(plate: Plate) returns (answer: Option<PmsId>)
      ensures ActiveByPlate(sessions, plate, answer)
    {
      if id :| id in sessions && sessions[id].slot.plate == plate && sessions[id].status == Active {
        answer := Some(id);
      } else {
        answer := None;
      }
    }

    method GetSessionByLotAndPlate(slot: Slot, status: PmsStatus) returns (answer: Option<PmsId>)
      ensures WithStatusAt(sessions, slot, status, answer)
    {
      if id :| id in sessions && sessions[id].slot == slot && sessions[id].status == status {
        answer := Some(id);
      } else {
        answer := None;
      }
    }

    method MarkPaid(id: PmsId) returns (found: bool)
      modifies this`sessions
      ensures found <==> id in old(sessions)
      ensures sessions == if found then old(sessions)[id := old(sessions)[id].(status := Paid)] else old(sessions)
    {
      if id !in sessions {
        return false;
      }
      sessions := sessions[id := sessions[id].(status := Paid)];
      return true;
    }

    method MarkExited(id: PmsId, now: Time) returns (found: bool)
      modifies this`sessions
      ensures found <==> id in old(sessions)
      ensures sessions == if found then old(sessions)[id := old(sessions)[id].(status := Exited, exitTime := Some(now))] else old(sessions)
    {
      if id !in sessions {
        return false;
      }
      sessions := sessions[id := sessions[id].(status := Exited, exitTime := Some(now))];
      return true;
    }

    // ----- session cache

    method SaveSession(slot: Slot, id: PmsId, entry: Time, now: Time)
      modifies this`cache
      ensures cache == old(cache)[slot := CacheEntry(id, entry, Active, now + SESSION_TTL_SECONDS)]
    {
      cache := cache[slot := CacheEntry(id, entry, Active, now + SESSION_TTL_SECONDS)];
    }

    method UpdateStatus(slot: Slot, status: PmsStatus, now: Time)
      modifies this`cache
      ensures cache == CacheStatusUpdated(old(cache), slot, status, now)
    {
      if slot !in cache {
        return;
      }
      var entry := cache[slot].(status := status);
      var ttl := cache[slot].expiresAt - now;
      var ex := if ttl > 0 then ttl else SESSION_TTL_SECONDS;
      cache := cache[slot := entry.(expiresAt := now + ex)];
    }

    method DeleteSession(slot: Slot)
      modifies this`cache
      ensures cache == old(cache) - {slot}
    {
      cache := cache - {slot};
    }

    method OpenExit(opening: Opening)
      modifies this`openings
      ensures openings == old(openings) + [opening]
    {
      openings := openings + [opening];
    }

    // ----- handlers

    method HandleLprEntry(slot: Slot, entry: Time, id: PmsId, now: Time)
      returns (r: EntryResult, webhook: Option<EntryWebhook>, ghost existing: Option<PmsId>)
      modifies this
      ensures ActiveByPlate(old(sessions), slot.plate, existing)
      ensures (View(), r, webhook) == LprEntry(old(View()), slot, entry, id, existing, now)
    {
      webhook := None;
      var active := GetActiveSessionByPlate(slot.plate);
      existing := active;
      if active.Some? {
        return Existing(active.value), None, existing;
      }
      sessions := sessions[id := PmsSession(slot, entry, Active, None)];
      SaveSession(slot, id, entry, now);
      if slot in preRegistrations {
        preRegistrations := preRegistrations - {slot};
        webhook := Some(EntryWebhook(id, slot, entry));
      }
      r := Created(id);
    }

    method RecordPaymentComplete(n: Notice, now: Time) returns (r: RecordResult)
      modifies this
      ensures (View(), r) == Recording(old(View()), n, now)
    {
      if n.key in requests {
        return Recorded;
      }
      if n.pmsId !in sessions {
        return RecordRaised;
      }
      requests := requests[n.key := n];
      var session := sessions[n.pmsId];
      var marked := MarkPaid(n.pmsId);
      UpdateStatus(session.slot, Paid, now);
      OpenExit(OnPayment(n.pmsId));
      return Recorded;
    }

    method HandleLprExit(slot: Slot, now: Time) returns (r: ExitResult, ghost paid: Option<PmsId>)
      modifies this
      ensures slot !in old(cache) ==> WithStatusAt(old(sessions), slot, Paid, paid)
      ensures (View(), r) == LprExit(old(View()), slot, paid, now)
    {
      paid := None;
      if slot in cache {
        if cache[slot].status == Paid {
          r := OpenAndExit(cache[slot].pmsId, slot, true, now);
        } else {
          r := NotPaid;
        }
        return;
      }
      var row := GetSessionByLotAndPlate(slot, Paid);
      paid := row;
      if row.Some? {
        r := OpenAndExit(row.value, slot, false, now);
      } else {
        r := NotFound;
      }
    }

    method OpenAndExit(id: PmsId, slot: Slot, fromRedis: bool, now: Time) returns (r: ExitResult)
      modifies this
      ensures (View(), r) == OpenedAndExited(old(View()), id, slot, fromRedis, now)
    {
      OpenExit(OnExit(id));
      if fromRedis {
        DeleteSession(slot);
      }
      var exited := MarkExited(id, now);
      return if exited then Opened(id) else ExitRaised;
    }

    method CalculateFee(id: PmsId, slot: Slot, now: Time) returns (r: FeeQuery, ghost atSlot: Option<PmsId>)
      ensures WithStatusAt(sessions, slot, Active, atSlot)
      ensures r == FeeOwed(View(), id, atSlot, now)
    {
      var row := GetSessionByLotAndPlate(slot, Active);
      atSlot := row;
      if row.None? {
        if id !in sessions {
          return SessionNotFound, atSlot;
        }
        row := Some(id);
      }
      var session := sessions[row.value];
      if session.status != Active {
        return SessionNotActive, atSlot;
      }
      match Fees.Calculate(rate, session.entry, now)
      case InvalidCurrentTime => r := BadTime;
      case Fee(amount, duration) => r := Owed(amount, duration);
    }
  }
}
