/** As long as every notice the PMS records finds its session still active, the backend and the PMS stay in step and the
    exit lane opens for paid sessions only. */
module ExitSafety {
  import opened Ledgers
  import opened CardCompany
  import opened PaymentGateway
  import opened ParkingSystem
  import opened CarPayIn
  import opened Protocol
  import opened Invariants
  import opened BackendTables
  import opened LedgerTables
  import opened ExitLane
  import opened Safety
  import Fees

  // ----- the two lookups of a fee query

  /** For an ongoing session the lookup by lot and plate finds the PMS session it was made for, and it is active. */
  lemma LookupOwn(s: map<SessionId, Session>, pms: map<PmsId, PmsSession>, id: SessionId, atSlot: Option<PmsId>)
    requires Linked(s, pms) && InStep(s, pms) && OneActivePerPlate(pms) && id in s && s[id].status == Ongoing
    requires WithStatusAt(pms, s[id].slot, PmsStatus.Active, atSlot)
    ensures atSlot == Some(s[id].pmsId) && s[id].pmsId in pms && pms[s[id].pmsId].status == PmsStatus.Active && pms[s[id].pmsId].entry == s[id].entry
  {
    assert s[id].pmsId in pms && pms[s[id].pmsId].slot == s[id].slot;
  }

  // ----- notices

  /** Whatever request is new in p' was for a session that p held as active. */
  ghost predicate FirstNotices(p: Pms, p': Pms) {
    forall k | k in p'.requests && k !in p.requests && p'.requests[k].pmsId in p.sessions :: p.sessions[p'.requests[k].pmsId].status == PmsStatus.Active
  }

  lemma InStepRecorded(s: map<SessionId, Session>, pms: map<PmsId, PmsSession>, id: SessionId, row: PmsSession)
    requires Linked(s, pms) && InStep(s, pms) && id in s && s[id].status == Completed
    ensures InStep(s, pms[s[id].pmsId := row])
  {
  }

  lemma RecordingExits(w: World, n: Notice)
    requires Settles(w.b.sessions, w.b.txs, w.b.quotes) && Linked(w.b.sessions, w.p.sessions)
    requires Exits(w) && NoticeOf(w.b.sessions, w.b.txs, n) && FirstNotices(w.p, Recording(w.p, n, w.now).0)
    ensures Exits(w.(p := Recording(w.p, n, w.now).0))
  {
    assert n.key.ref.id in w.b.sessions && n.pmsId in w.p.sessions;
    if n.key !in w.p.requests {
      assert n.key in Recording(w.p, n, w.now).0.requests;
      ActiveRecorded(w.p, n, w.now);
      var s := w.p.sessions[n.pmsId];
      InStepRecorded(w.b.sessions, w.p.sessions, n.key.ref.id, s.(status := Paid));
    } else {
      assert w.(p := w.p) == w;
    }
  }

  /** Exits does not look at retry events, registrations, other services or histories. */
  ghost predicate SameExitTables(w: World, w': World) {
    && w'.b.sessions == w.b.sessions && w'.b.txs == w.b.txs && w'.b.quotes == w.b.quotes
    && w'.p == w.p.(preRegistrations := w'.p.preRegistrations)
  }

  lemma ExitsFrame(w: World, w': World)
    requires Exits(w) && SameExitTables(w, w')
    ensures Exits(w')
  {
  }

  lemma NotifiedIsRecording(w: World, n: Notice, link: Delivery)
    ensures SameExitTables(if link.NotDelivered? then w else w.(p := Recording(w.p, n, w.now).0), Notified(w, n, link))
  {
  }

  lemma NotifiedExits(w: World, n: Notice, link: Delivery)
    requires Settles(w.b.sessions, w.b.txs, w.b.quotes) && Linked(w.b.sessions, w.p.sessions)
    requires Exits(w) && NoticeOf(w.b.sessions, w.b.txs, n) && FirstNotices(w.p, Notified(w, n, link).p)
    ensures Exits(Notified(w, n, link))
  {
    NotifiedIsRecording(w, n, link);
    if !link.NotDelivered? {
      RecordingExits(w, n);
    }
    ExitsFrame(if link.NotDelivered? then w else w.(p := Recording(w.p, n, w.now).0), Notified(w, n, link));
  }

  lemma RetriedIsRecording(w: World, txId: TxId, link: Delivery)
    requires txId in w.b.retries && !link.NotDelivered?
    ensures SameExitTables(w.(p := Recording(w.p, w.b.retries[txId].notice, w.now).0), Retried(w, txId, link))
  {
  }

  lemma RetriedExits(w: World, txId: TxId, link: Delivery)
    requires Base(w, {}) && Exits(w) && FirstNotices(w.p, Retried(w, txId, link).p)
    ensures Exits(Retried(w, txId, link))
  {
    if txId in w.b.retries && !link.NotDelivered? {
      var n := w.b.retries[txId].notice;
      RetriedIsRecording(w, txId, link);
      RecordingExits(w, n);
      ExitsFrame(w.(p := Recording(w.p, n, w.now).0), Retried(w, txId, link));
    }
  }

  // ----- payments

  lemma CommittedExits(w: World, w': World, key: Key, t: Tx)
    requires Exits(w) && Linked(w.b.sessions, w.p.sessions) && Committed(w, w', key, t)
    ensures Exits(w')
  {
    forall s | s in w'.b.sessions && w'.b.sessions[s].status == Ongoing ensures w.b.sessions[s].status == Ongoing && w'.b.sessions[s].pmsId == w.b.sessions[s].pmsId {
      assert s in w.b.sessions;
    }
    forall r | r in w'.b.quotes && r.id in w'.b.sessions ensures r.id in w.b.sessions && w'.b.sessions[r.id].entry == w.b.sessions[r.id].entry {
    }
  }

  lemma FreeExits(w: World, key: Key, links: Links)
    requires Base(w, {}) && Exits(w) && Accepted(w, key) && key.amount == 0 && FreshTxId(w.b.txs, key, Uuid5(key))
    requires FirstNotices(w.p, FreePayment(w, key, links).0.p)
    ensures Exits(FreePayment(w, key, links).0)
  {
    var w1 := w.(b := Inserted(w.b, key, Uuid5(key), None));
    var w2 := Finished(w1, key, None, FREE);
    FreshOutboxId(w, key, Uuid5(key));
    FinishedCommitted(w, w1, key, Uuid5(key), None, None, FREE);
    CommittedExits(w, w2, key, w2.b.txs[key]);
    FreeLedgers(w.b.txs, w.g.txs, w.c.txs, w.h, key, w2.b.txs[key]);
    CommittedBase(w, w2, key, w2.b.txs[key]);
    assert Succeeded(w2.b.txs, key);
    NotifiedExits(w2, NoticeFor(w2.b, key), links.pms);
  }

  lemma CardExits(w: World, key: Key, billingKey: BillingKey, draw: Draw, links: Links)
    requires Base(w, {}) && Exits(w) && Accepted(w, key) && key.amount > 0 && FreshTxId(w.b.txs, key, Uuid4(draw.tx))
    requires FirstNotices(w.p, CardPayment(w, key, billingKey, draw, links).0.p)
    ensures Exits(CardPayment(w, key, billingKey, draw, links).0)
  {
    var w' := CardSettled(w, key, billingKey, draw, links);
    FreshOutboxId(w, key, Uuid4(draw.tx));
    CardCommitted(w, key, billingKey, draw, links);
    CardLedgers(w, key, billingKey, draw, links);
    CommittedExits(w, w', key, w'.b.txs[key]);
    CommittedBase(w, w', key, w'.b.txs[key]);
    if w'.b.txs[key].status == Success {
      assert Succeeded(w'.b.txs, key);
      NotifiedExits(w', NoticeFor(w'.b, key), links.pms);
    }
  }

  lemma PaymentExits(w: World, car: CarId, ref: SessionRef, amount: int, currency: Currency, draw: Draw, links: Links)
    requires Base(w, {}) && Exits(w) && forall k | k in w.b.txs :: w.b.txs[k].txId != Uuid4(draw.tx)
    requires FirstNotices(w.p, Payment(w, car, ref, amount, currency, draw, links).0.p)
    ensures Exits(Payment(w, car, ref, amount, currency, draw, links).0)
  {
    var key := Key(ref, car, amount, currency);
    var w' := Payment(w, car, ref, amount, currency, draw, links).0;
    PaymentCases(w, key, draw, links);
    if w' == w {
    } else if Succeeded(w.b.txs, key) {
      NotifiedExits(w, NoticeFor(w.b, key), links.pms);
    } else if key.amount == 0 {
      FreeIdFresh(w, key);
      FreeExits(w, key, links);
    } else {
      CardExits(w, key, w.b.billingKeys[car].billingKey, draw, links);
    }
  }

  // ----- the other steps

  lemma EnteredInStep(s: map<SessionId, Session>, s': map<SessionId, Session>, sid: SessionId, pms: map<PmsId, PmsSession>, id: PmsId, row: PmsSession)
    requires InStep(s, pms) && id !in pms && row.status == PmsStatus.Active
    requires s' == s || (SessionAdded(s, s', sid) && s'[sid].pmsId == id)
    ensures InStep(s', pms[id := row])
  {
  }

  lemma EnteredExits(w: World, step: Step)
    requires Base(w, {}) && Exits(w) && step.Enter? && Possible(w, step)
    ensures Exits(Next(w, step))
  {
    var w' := Next(w, step);
    EnteredBackend(w, step);
    EnteredPms(w, step);
    EntryKept(w.p, step.slot, step.entry, step.id, step.existing, w.now);
    if step.existing.None? {
      EnteredInStep(w.b.sessions, w'.b.sessions, step.sid, w.p.sessions, step.id, w'.p.sessions[step.id]);
    }
    forall r | r in w.b.quotes ensures r.id in w.b.sessions {
    }
  }

  /** What a fee request may add: one quote, for an ongoing session that had none, of what its own entry time owes now. */
  lemma QuoteAdded(w: World, car: CarId, ref: SessionRef, atSlot: Option<PmsId>, link: Delivery)
    requires Linked(w.b.sessions, w.p.sessions) && InStep(w.b.sessions, w.p.sessions) && OneActivePerPlate(w.p.sessions)
    requires Possible(w, AskFee(car, ref, atSlot, link))
    ensures var w' := FeeAsked(w, car, ref, atSlot, link).0;
            || w' == w
            || (&& w' == w.(b := w.b.(quotes := w.b.quotes[ref := w'.b.quotes[ref]]))
                && ref !in w.b.quotes && ref.id in w.b.sessions && w.b.sessions[ref.id].status == Ongoing
                && w'.b.quotes[ref].createdAt == w.now && w'.b.quotes[ref].currency == KRW
                && var fee := Fees.Calculate(w.p.rate, w.b.sessions[ref.id].entry, w.now);
                   fee.Fee? && fee.amount == w'.b.quotes[ref].amount)
  {
    if AsksPms(w.b, car, ref) {
      LookupOwn(w.b.sessions, w.p.sessions, ref.id, atSlot);
    }
  }

  lemma FeeAskedExits(w: World, car: CarId, ref: SessionRef, atSlot: Option<PmsId>, link: Delivery)
    requires Linked(w.b.sessions, w.p.sessions) && Exits(w) && Possible(w, AskFee(car, ref, atSlot, link))
    ensures Exits(FeeAsked(w, car, ref, atSlot, link).0)
  {
    QuoteAdded(w, car, ref, atSlot, link);
  }

  lemma LeftExits(w: World, slot: Slot, paid: Option<PmsId>)
    requires Exits(w) && Possible(w, Leave(slot, paid))
    ensures Exits(Next(w, Leave(slot, paid)))
  {
    ExitKept(w.p, slot, paid, w.now);
    ExitOpensPaid(w.p, slot, paid, w.now);
  }

  lemma WaitedExits(w: World, seconds: nat)
    requires Exits(w)
    ensures Exits(Next(w, Wait(seconds)))
  {
    var w' := Next(w, Wait(seconds));
    CacheShrunk(w.p, w'.p.cache, w'.p.preRegistrations);
  }

  lemma CacheLostExits(w: World, slots: set<Slot>)
    requires Exits(w)
    ensures Exits(Next(w, LoseCache(slots)))
  {
    var w' := Next(w, LoseCache(slots));
    CacheShrunk(w.p, w'.p.cache, w.p.preRegistrations);
  }

  lemma RegistrationsExits(w: World, step: Step)
    requires Exits(w) && (step.PreRegister? || step.SetBillingKeys? || step.SetPgKeys? || step.SetTokens?)
    ensures Exits(Next(w, step))
  {
    assert SameExitTables(w, Next(w, step));
    ExitsFrame(w, Next(w, step));
  }

  /** Every notice the step makes the PMS record finds its session active. */
  ghost predicate FirstNotice(w: World, step: Step) {
    FirstNotices(w.p, Next(w, step).p)
  }

  lemma StepExits(w: World, step: Step)
    requires Base(w, {}) && Exits(w) && Possible(w, step) && FirstNotice(w, step)
    ensures Exits(Next(w, step))
  {
    match step
    case Enter(_, _, _, _, _, _, _, _) => EnteredExits(w, step);
    case AskFee(car, ref, atSlot, link) => FeeAskedExits(w, car, ref, atSlot, link);
    case Pay(car, ref, amount, currency, draw, links) => PaymentExits(w, car, ref, amount, currency, draw, links);
    case Retry(txId, link) => RetriedExits(w, txId, link);
    case Leave(slot, paid) => LeftExits(w, slot, paid);
    case Wait(seconds) => WaitedExits(w, seconds);
    case LoseCache(slots) => CacheLostExits(w, slots);
    case LoseQuotes(refs) => QuotesLostFrame(w, refs);
    case _ => RegistrationsExits(w, step);
  }

  ghost predicate Good(w: World) {
    Base(w, {}) && Exits(w)
  }

  lemma StepGood(w: World, step: Step)
    requires Good(w) && Possible(w, step) && FirstNotice(w, step)
    ensures Good(Next(w, step))
  {
    StepBase(w, step);
    StepExits(w, step);
  }

  ghost predicate FirstNoticeRun(w: World, steps: seq<Step>)
    decreases |steps|
  {
    steps != [] ==> FirstNotice(w, steps[0]) && FirstNoticeRun(Next(w, steps[0]), steps[1..])
  }

  lemma {:induction false} RunGood(w: World, steps: seq<Step>)
    requires Good(w) && PossibleRun(w, steps) && FirstNoticeRun(w, steps)
    ensures Good(Run(w, steps))
    decreases |steps|
  {
    if steps != [] {
      StepGood(w, steps[0]);
      RunGood(Next(w, steps[0]), steps[1..]);
    }
  }
}
