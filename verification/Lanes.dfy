/** The two lanes and what the backend makes of an entry: exactly when a car gets a session, and exactly when it is let out. */
module Lanes {
  import opened Ledgers
  import opened CardCompany
  import opened PaymentGateway
  import opened ParkingSystem
  import opened CarPayIn
  import opened Protocol
  import opened Invariants
  import opened BackendTables
  import opened ExitLane
  import opened Safety
  import opened Theorems

  // ----- in

  /** Whatever the entry lane answers is an active session of the plate, and with one active session per plate the only one. */
  lemma EntryAnswersTheActive(p: Pms, slot: Slot, entry: Time, id: PmsId, existing: Option<PmsId>, now: Time)
    requires ActiveByPlate(p.sessions, slot.plate, existing) && id !in p.sessions
    ensures var (p', r, _) := LprEntry(p, slot, entry, id, existing, now);
            && r.id in p'.sessions && p'.sessions[r.id].slot.plate == slot.plate && p'.sessions[r.id].status == PmsStatus.Active
            && (OneActivePerPlate(p.sessions) ==>
                  forall i | i in p'.sessions && p'.sessions[i].slot.plate == slot.plate && p'.sessions[i].status == PmsStatus.Active :: i == r.id)
  {
  }

  /** A session is made exactly when the plate has no active one; it is active at the slot from the entry time on, takes over the
      slot's cache entry for three days, and a registration of the slot is used up for a webhook. */
  lemma EntryExactly(p: Pms, slot: Slot, entry: Time, id: PmsId, existing: Option<PmsId>, now: Time)
    requires ActiveByPlate(p.sessions, slot.plate, existing) && id !in p.sessions
    ensures var (p', r, hook) := LprEntry(p, slot, entry, id, existing, now);
            && (r.Created? <==> forall i | i in p.sessions && p.sessions[i].slot.plate == slot.plate :: p.sessions[i].status != PmsStatus.Active)
            && (r.Existing? ==> p' == p && hook == None)
            && (r.Created? ==> r.id == id && p'.sessions == p.sessions[id := PmsSession(slot, entry, PmsStatus.Active, None)]
                               && p'.cache == p.cache[slot := CacheEntry(id, entry, PmsStatus.Active, now + 259200)]
                               && hook == (if slot in p.preRegistrations then Some(EntryWebhook(id, slot, entry)) else None)
                               && p'.preRegistrations == p.preRegistrations - {slot}
                               && p'.requests == p.requests && p'.openings == p.openings)
  {
    assert slot !in p.preRegistrations ==> p.preRegistrations - {slot} == p.preRegistrations;
  }

  /** The backend makes a session of an entry exactly when the plate had none active, the slot was registered at both sides, the webhook
      arrived, and the registered car has no other session going on. It is that car's, for that PMS session. */
  lemma BackendSessionExactly(w: World, step: Step)
    requires step.Enter? && Possible(w, step)
    ensures var w' := Next(w, step);
            && (step.sid in w'.b.sessions <==>
                  && step.existing.None? && step.slot in w.p.preRegistrations && !step.link.NotDelivered? && step.slot in w.b.preNotify
                  && forall s | s in w.b.sessions && w.b.sessions[s].car == w.b.preNotify[step.slot].car :: w.b.sessions[s].status == Completed)
            && (step.sid in w'.b.sessions ==>
                  w'.b == w.b.(sessions := w.b.sessions[step.sid := Session(step.id, w.b.preNotify[step.slot].car, step.slot, step.entry, Ongoing, None)],
                               preNotify := w.b.preNotify - {step.slot}))
            && (step.sid !in w'.b.sessions ==> w'.b == w.b)
  {
  }

  /** What an entry webhook is answered: the session of that PMS id if there is one, else "not registered" without a pre-notice, else the
      car's session that is going on, else the new one; only the last changes anything. */
  lemma WebhookExactly(b: Backend, hook: EntryWebhook, id: SessionId, known: Option<SessionId>, ongoing: Option<SessionId>)
    requires ByPmsId(b.sessions, hook.pmsId, known) && id !in b.sessions
    requires hook.slot in b.preNotify ==> OngoingByCar(b.sessions, b.preNotify[hook.slot].car, ongoing)
    ensures var (b', r) := EntryConfirmed(b, hook, id, known, ongoing);
            && (r.Confirmed? ==> r.id in b'.sessions)
            && (r == NotRegistered <==> hook.slot !in b.preNotify && forall s | s in b.sessions :: b.sessions[s].pmsId != hook.pmsId)
            && (r.Confirmed? || r == NotRegistered)
            && ((exists s :: s in b.sessions && b.sessions[s].pmsId == hook.pmsId) ==> b' == b && r.Confirmed? && b.sessions[r.id].pmsId == hook.pmsId)
            && (r.Confirmed? && b'.sessions[r.id].pmsId != hook.pmsId ==> b' == b && b'.sessions[r.id].status == Ongoing)
            && (b' != b ==> r == Confirmed(id) && b'.sessions == b.sessions[id := b'.sessions[id]] && b'.sessions[id].pmsId == hook.pmsId)
  {
  }

  /** A webhook that made a session is answered with the same session however often it comes again, and changes nothing more. */
  lemma WebhookAgain(b: Backend, hook: EntryWebhook, id: SessionId, known: Option<SessionId>, ongoing: Option<SessionId>,
                     id': SessionId, known': Option<SessionId>, ongoing': Option<SessionId>)
    requires ByPmsId(b.sessions, hook.pmsId, None) && id !in b.sessions && known == None && EntryConfirmed(b, hook, id, known, ongoing).0 != b
    requires ByPmsId(EntryConfirmed(b, hook, id, known, ongoing).0.sessions, hook.pmsId, known')
    ensures var (b', r) := EntryConfirmed(b, hook, id, known, ongoing); EntryConfirmed(b', hook, id', known', ongoing') == (b', r)
  {
    var b' := EntryConfirmed(b, hook, id, known, ongoing).0;
    assert id in b'.sessions && b'.sessions[id].pmsId == hook.pmsId;
  }

  ghost predicate OneOngoingPerCar(sessions: map<SessionId, Session>) {
    forall s, t | s in sessions && t in sessions && sessions[s].status == Ongoing && sessions[t].status == Ongoing && sessions[s].car == sessions[t].car :: s == t
  }

  lemma OngoingStep(w: World, step: Step)
    requires OneOngoingPerCar(w.b.sessions) && Possible(w, step)
    ensures OneOngoingPerCar(Next(w, step).b.sessions)
  {
    match step
    case Enter(_, _, _, _, _, _, _, _) => BackendSessionExactly(w, step);
    case Pay(car, ref, amount, currency, draw, links) => PaymentSessions(w, Key(ref, car, amount, currency), draw, links);
    case AskFee(car, ref, atSlot, link) => FeeAskedFrame(w, car, ref, atSlot, link);
    case Retry(txId, link) => RetriedFrame(w, txId, link);
    case Wait(seconds) => WaitedFrame(w, seconds);
    case _ =>
  }

  /** A payment makes no sessions and reopens none. */
  lemma PaymentSessions(w: World, key: Key, draw: Draw, links: Links)
    ensures var s' := Payment(w, key.car, key.ref, key.amount, key.currency, draw, links).0.b.sessions;
            s'.Keys == w.b.sessions.Keys && SessionsKept(w.b.sessions, s')
  {
    PaymentGrown(w, key.car, key.ref, key.amount, key.currency, draw, links);
    if QuotedAt(w.b.quotes, key) && key.ref.id in w.b.sessions && w.b.sessions[key.ref.id].car == key.car {
      if key in w.b.txs {
        NotifiedFrame(w, NoticeFor(w.b, key), links.pms);
      } else if key.amount == 0 {
        var w2 := Finished(w.(b := Inserted(w.b, key, Uuid5(key), None)), key, None, FREE);
        NotifiedFrame(w2, NoticeFor(w2.b, key), links.pms);
      } else if key.amount > 0 && key.car in w.b.billingKeys && w.b.billingKeys[key.car].active {
        var w1 := CardSettled(w, key, w.b.billingKeys[key.car].billingKey, draw, links);
        CardSettledKeys(w, key, w.b.billingKeys[key.car].billingKey, draw, links);
        NotifiedFrame(w1, NoticeFor(w1.b, key), links.pms);
      }
    }
  }

  lemma CardSettledKeys(w: World, key: Key, billingKey: BillingKey, draw: Draw, links: Links)
    requires key.ref.id in w.b.sessions
    ensures CardSettled(w, key, billingKey, draw, links).b.sessions.Keys == w.b.sessions.Keys
  {
    CalledFrame(w, key, billingKey, draw, links, Inserted(w.b, key, Uuid4(draw.tx), Some(billingKey)));
  }

  lemma {:induction false} OngoingRun(w: World, steps: seq<Step>)
    requires OneOngoingPerCar(w.b.sessions) && PossibleRun(w, steps)
    ensures OneOngoingPerCar(Run(w, steps).b.sessions)
    decreases |steps|
  {
    if steps != [] {
      OngoingStep(w, steps[0]);
      OngoingRun(Next(w, steps[0]), steps[1..]);
    }
  }

  /** In every run a car has at most one session going on at the backend. */
  lemma OneSessionPerCar(w: World, s: SessionId, t: SessionId)
    requires Reachable(w) && s in w.b.sessions && t in w.b.sessions && w.b.sessions[s].car == w.b.sessions[t].car
    requires w.b.sessions[s].status == Ongoing && w.b.sessions[t].status == Ongoing
    ensures s == t
  {
    var now, rate, steps :| PossibleRun(Start(now, rate), steps) && w == Run(Start(now, rate), steps);
    OngoingRun(Start(now, rate), steps);
  }

  // ----- out

  /** In agreement, the exit lane opens exactly when the slot has a paid session and the cache does not hold an active one there. */
  lemma ExitExactly(p: Pms, slot: Slot, paid: Option<PmsId>, now: Time)
    requires PmsOk(p) && (slot !in p.cache ==> WithStatusAt(p.sessions, slot, Paid, paid))
    ensures var r := LprExit(p, slot, paid, now).1;
            && (r.Opened? <==> (exists id :: id in p.sessions && p.sessions[id].slot == slot && p.sessions[id].status == Paid)
                               && !(slot in p.cache && p.cache[slot].status == PmsStatus.Active))
            && (r == NotPaid <==> slot in p.cache && p.cache[slot].status == PmsStatus.Active)
            && (r == NotFound <==> slot !in p.cache && forall id | id in p.sessions && p.sessions[id].slot == slot :: p.sessions[id].status != Paid)
  {
    if slot in p.cache {
      assert p.cache[slot].pmsId in p.sessions;
    }
  }

  /** Whoever is let out has left: its session is exited now, its slot's cache entry gone, the opening logged; else nothing changes. */
  lemma ExitLeaves(p: Pms, slot: Slot, paid: Option<PmsId>, now: Time)
    requires slot !in p.cache ==> WithStatusAt(p.sessions, slot, Paid, paid)
    ensures var (p', r) := LprExit(p, slot, paid, now);
            && (r.Opened? ==>
                  && r.id in p.sessions && p'.sessions == p.sessions[r.id := p.sessions[r.id].(status := Exited, exitTime := Some(now))]
                  && p'.cache == p.cache - {slot} && p'.openings == p.openings + [OnExit(r.id)])
            && (!r.Opened? && r != ExitRaised ==> p' == p)
            && p'.requests == p.requests && p'.preRegistrations == p.preRegistrations && p'.rate == p.rate
  {
    assert slot !in p.cache ==> p.cache - {slot} == p.cache;
  }

  /** A notice is answered unless it is new and its session unknown; a known one changes nothing. */
  lemma RecordingExactly(p: Pms, n: Notice, now: Time)
    ensures var (p', r) := Recording(p, n, now);
            && (r == RecordRaised <==> n.key !in p.requests && n.pmsId !in p.sessions)
            && (n.key in p.requests || n.pmsId !in p.sessions ==> p' == p)
            && (n.key !in p.requests && n.pmsId in p.sessions ==>
                  && p'.requests == p.requests[n.key := n] && p'.openings == p.openings + [OnPayment(n.pmsId)]
                  && p'.sessions == p.sessions[n.pmsId := p.sessions[n.pmsId].(status := Paid)])
  {
  }
}
