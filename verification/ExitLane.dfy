/** The PMS alone: what its handlers keep between the session table, the session cache, the payment requests
    and the barrier log. */
module ExitLane {
  import opened Ledgers
  import opened ParkingSystem
  import opened Invariants

  ghost predicate PmsOk(p: Pms) {
    && PaidByRequest(p.sessions, p.requests) && OneRequestEach(p.requests) && OneActivePerPlate(p.sessions)
    && CacheAgrees(p.sessions, p.cache) && BarrierLog(p.sessions, p.openings)
  }

  /** The request table after a save, for one session that now has one. */
  lemma PaidByOneMore(pms: map<PmsId, PmsSession>, pms': map<PmsId, PmsSession>, requests: map<Key, Notice>, n: Notice)
    requires PaidByRequest(pms, requests) && n.pmsId in pms && n.key !in requests
    requires pms' == pms[n.pmsId := pms[n.pmsId].(status := Paid)]
    ensures PaidByRequest(pms', requests[n.key := n])
    ensures OneRequestEach(requests) && pms[n.pmsId].status == PmsStatus.Active ==> OneRequestEach(requests[n.key := n])
  {
    var requests' := requests[n.key := n];
    forall id | id in pms' && pms'[id].status != PmsStatus.Active ensures exists k :: k in requests' && requests'[k].pmsId == id {
      if id == n.pmsId {
        assert n.key in requests';
      } else {
        var k :| k in requests && requests[k].pmsId == id;
        assert k in requests';
      }
    }
  }

  lemma LogAppended(pms: map<PmsId, PmsSession>, pms': map<PmsId, PmsSession>, openings: seq<Opening>, id: PmsId, status: PmsStatus, exitTime: Option<Time>)
    requires BarrierLog(pms, openings) && id in pms && pms' == pms[id := pms[id].(status := status, exitTime := exitTime)]
    requires (pms[id].status == PmsStatus.Active && status == Paid) || (pms[id].status == Paid && status == Exited)
    ensures BarrierLog(pms', openings + [if status == Paid then OnPayment(id) else OnExit(id)])
  {
    var opening := if status == Paid then OnPayment(id) else OnExit(id);
    var openings' := openings + [opening];
    assert opening !in openings;
    forall o ensures o in openings' <==> o in openings || o == opening {
    }
    forall i ensures OnPayment(i) in openings' <==> i in pms' && pms'[i].status != PmsStatus.Active {
      assert OnPayment(i) in openings' <==> OnPayment(i) in openings || OnPayment(i) == opening;
    }
    forall i ensures OnExit(i) in openings' <==> i in pms' && pms'[i].status == Exited {
      assert OnExit(i) in openings' <==> OnExit(i) in openings || OnExit(i) == opening;
    }
  }

  /** A notice for an active session: its table row and cache entry become paid together, the barrier opens once. */
  lemma ActiveRecorded(p: Pms, n: Notice, now: Time)
    requires PmsOk(p) && n.key !in p.requests && n.pmsId in p.sessions && p.sessions[n.pmsId].status == PmsStatus.Active
    ensures PmsOk(Recording(p, n, now).0)
  {
    var p' := Recording(p, n, now).0;
    var s := p.sessions[n.pmsId];
    PaidByOneMore(p.sessions, p'.sessions, p.requests, n);
    assert p'.sessions == p.sessions[n.pmsId := s.(status := Paid, exitTime := s.exitTime)];
    LogAppended(p.sessions, p'.sessions, p.openings, n.pmsId, Paid, s.exitTime);
    assert CacheAgrees(p'.sessions, p'.cache);
  }

  /** The PMS stays in agreement if and only if a new notice finds its session active. mark_paid does not look. */
  lemma RecordedExactly(p: Pms, n: Notice, now: Time)
    requires PmsOk(p) && n.key !in p.requests && n.pmsId in p.sessions
    ensures PmsOk(Recording(p, n, now).0) <==> p.sessions[n.pmsId].status == PmsStatus.Active
  {
    if p.sessions[n.pmsId].status == PmsStatus.Active {
      ActiveRecorded(p, n, now);
    } else {
      var p' := Recording(p, n, now).0;
      var k :| k in p.requests && p.requests[k].pmsId == n.pmsId;
      assert k in p'.requests && n.key in p'.requests && p'.requests[k].pmsId == p'.requests[n.key].pmsId;
    }
  }

  /** The exit lane would open for this session. */
  ghost predicate LetsOut(p: Pms, id: PmsId) {
    exists slot, paid, now :: (slot !in p.cache ==> WithStatusAt(p.sessions, slot, Paid, paid)) && LprExit(p, slot, paid, now).1 == Opened(id)
  }

  ghost predicate Requested(p: Pms, id: PmsId) {
    exists k :: k in p.requests && p.requests[k].pmsId == id
  }

  /** An exit can open for an unpaid session right after a new notice if and only if the notice's slot is taken in the cache by
      another car's active session: the entry is marked paid in the place of the notice's own. */
  lemma UnpaidExitExactly(p: Pms, n: Notice, now: Time)
    requires PmsOk(p) && n.key !in p.requests && n.pmsId in p.sessions
    ensures var p', slot := Recording(p, n, now).0, p.sessions[n.pmsId].slot;
            (exists id :: LetsOut(p', id) && !Requested(p', id))
            <==> slot in p.cache && p.cache[slot].status == PmsStatus.Active && p.cache[slot].pmsId != n.pmsId
  {
    var p', slot := Recording(p, n, now).0, p.sessions[n.pmsId].slot;
    if slot in p.cache && p.cache[slot].status == PmsStatus.Active && p.cache[slot].pmsId != n.pmsId {
      var id := p.cache[slot].pmsId;
      assert LprExit(p', slot, None, now).1 == Opened(id);
      assert LetsOut(p', id) && !Requested(p', id);
    }
    forall id | LetsOut(p', id) && !Requested(p', id)
      ensures slot in p.cache && p.cache[slot].status == PmsStatus.Active && p.cache[slot].pmsId != n.pmsId
    {
      UnpaidExitOnly(p, n, now, id);
    }
  }

  lemma WhoIsLetOut(p: Pms, id: PmsId)
    requires LetsOut(p, id)
    ensures (exists at :: at in p.cache && p.cache[at].status == Paid && p.cache[at].pmsId == id) || (id in p.sessions && p.sessions[id].status == Paid)
  {
    var at, paid, t :| (at !in p.cache ==> WithStatusAt(p.sessions, at, Paid, paid)) && LprExit(p, at, paid, t).1 == Opened(id);
  }

  lemma PaidIsRequested(p: Pms, n: Notice, now: Time, id: PmsId)
    requires PaidByRequest(p.sessions, p.requests) && n.key !in p.requests && n.pmsId in p.sessions
    requires id == n.pmsId || (id in p.sessions && p.sessions[id].status != PmsStatus.Active)
    ensures Requested(Recording(p, n, now).0, id)
  {
    var p' := Recording(p, n, now).0;
    if id == n.pmsId {
      assert n.key in p'.requests && p'.requests[n.key].pmsId == id;
    } else {
      var k :| k in p.requests && p.requests[k].pmsId == id;
      assert k in p'.requests && p'.requests[k].pmsId == id;
    }
  }

  lemma UnpaidExitOnly(p: Pms, n: Notice, now: Time, id: PmsId)
    requires PmsOk(p) && n.key !in p.requests && n.pmsId in p.sessions
    requires LetsOut(Recording(p, n, now).0, id) && !Requested(Recording(p, n, now).0, id)
    ensures var slot := p.sessions[n.pmsId].slot; slot in p.cache && p.cache[slot].status == PmsStatus.Active && p.cache[slot].pmsId != n.pmsId
  {
    WhoIsLetOut(Recording(p, n, now).0, id);
    if id == n.pmsId || (id in p.sessions && p.sessions[id].status != PmsStatus.Active) {
      PaidIsRequested(p, n, now, id);
    }
  }

  /** Whoever the exit lane lets through is a paid session of that very slot. */
  lemma ExitOpensPaid(p: Pms, slot: Slot, paid: Option<PmsId>, now: Time)
    requires PmsOk(p) && (slot !in p.cache ==> WithStatusAt(p.sessions, slot, Paid, paid))
    ensures var r := LprExit(p, slot, paid, now).1;
            && r != ExitRaised
            && (r.Opened? ==> r.id in p.sessions && p.sessions[r.id].slot == slot && p.sessions[r.id].status == Paid)
            && (r == NotPaid ==> exists id :: id in p.sessions && p.sessions[id].slot == slot && p.sessions[id].status == PmsStatus.Active)
            && (r == NotFound ==> forall id | id in p.sessions && p.sessions[id].slot == slot :: p.sessions[id].status != Paid)
  {
    if slot in p.cache {
      assert p.cache[slot].pmsId in p.sessions;
    }
  }

  lemma PaidByRequestExited(pms: map<PmsId, PmsSession>, requests: map<Key, Notice>, id: PmsId, s: PmsSession)
    requires PaidByRequest(pms, requests) && id in pms && pms[id].status == Paid && s.status == Exited
    ensures PaidByRequest(pms[id := s], requests)
  {
  }

  /** A paid session may leave the table's "paid" only if its cache entry is gone as well. */
  lemma CacheAgreesExited(pms: map<PmsId, PmsSession>, cache: map<Slot, CacheEntry>, cache': map<Slot, CacheEntry>, id: PmsId, s: PmsSession)
    requires CacheAgrees(pms, cache) && id in pms && pms[id].status == Paid && s.status == Exited && s.slot == pms[id].slot
    requires cache' == cache - {pms[id].slot} || (cache' == cache && pms[id].slot !in cache)
    ensures CacheAgrees(pms[id := s], cache')
  {
  }

  lemma ExitKept(p: Pms, slot: Slot, paid: Option<PmsId>, now: Time)
    requires PmsOk(p) && (slot !in p.cache ==> WithStatusAt(p.sessions, slot, Paid, paid))
    ensures PmsOk(LprExit(p, slot, paid, now).0)
  {
    var (p', r) := LprExit(p, slot, paid, now);
    ExitOpensPaid(p, slot, paid, now);
    if r.Opened? {
      var s := p.sessions[r.id].(status := Exited, exitTime := Some(now));
      LogAppended(p.sessions, p'.sessions, p.openings, r.id, Exited, Some(now));
      PaidByRequestExited(p.sessions, p.requests, r.id, s);
      CacheAgreesExited(p.sessions, p.cache, p'.cache, r.id, s);
    }
  }

  /** A new active session of a plate that had none takes over its slot's cache entry. */
  lemma ActiveAdded(p: Pms, id: PmsId, s: PmsSession, e: CacheEntry)
    requires OneActivePerPlate(p.sessions) && CacheAgrees(p.sessions, p.cache) && ActiveByPlate(p.sessions, s.slot.plate, None)
    requires id !in p.sessions && s.status == PmsStatus.Active && e.pmsId == id && e.status == PmsStatus.Active
    ensures OneActivePerPlate(p.sessions[id := s]) && CacheAgrees(p.sessions[id := s], p.cache[s.slot := e])
  {
  }

  lemma ActiveUnrecorded(p: Pms, id: PmsId, s: PmsSession)
    requires PaidByRequest(p.sessions, p.requests) && BarrierLog(p.sessions, p.openings) && id !in p.sessions && s.status == PmsStatus.Active
    ensures PaidByRequest(p.sessions[id := s], p.requests) && BarrierLog(p.sessions[id := s], p.openings)
  {
  }

  lemma EntryKept(p: Pms, slot: Slot, entry: Time, id: PmsId, existing: Option<PmsId>, now: Time)
    requires PmsOk(p) && ActiveByPlate(p.sessions, slot.plate, existing) && id !in p.sessions
    ensures PmsOk(LprEntry(p, slot, entry, id, existing, now).0)
  {
    var p' := LprEntry(p, slot, entry, id, existing, now).0;
    if existing.None? {
      ActiveAdded(p, id, p'.sessions[id], p'.cache[slot]);
      ActiveUnrecorded(p, id, p'.sessions[id]);
    }
  }

  lemma CacheShrunk(p: Pms, cache: map<Slot, CacheEntry>, preRegistrations: map<Slot, Time>)
    requires PmsOk(p) && forall s | s in cache :: s in p.cache && cache[s] == p.cache[s]
    ensures PmsOk(p.(cache := cache, preRegistrations := preRegistrations))
  {
  }
}
