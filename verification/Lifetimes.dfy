/** How long Redis keeps what the protocol rests on, in seconds, and what that means over runs. */
module Lifetimes {
  import opened Ledgers
  import opened CardCompany
  import opened PaymentGateway
  import opened ParkingSystem
  import opened CarPayIn
  import opened Protocol
  import opened Invariants
  import opened BackendTables
  import opened Safety
  import opened Theorems
  import opened Answers

  // ----- to the second

  /** A new quote is kept for 900 seconds. */
  lemma QuoteLivesExactly(w: World, car: CarId, ref: SessionRef, atSlot: Option<PmsId>, link: Delivery, seconds: nat)
    requires ref !in w.b.quotes && ref in FeeAsked(w, car, ref, atSlot, link).0.b.quotes
    ensures ref in Next(FeeAsked(w, car, ref, atSlot, link).0, Wait(seconds)).b.quotes <==> seconds < 900
  {
  }

  /** A retry event is kept for 604800 seconds. */
  lemma RetryEventLivesExactly(w: World, n: Notice, seconds: nat)
    ensures n.txId in Next(RetryRecorded(w, n), Wait(seconds)).b.retries <==> seconds < 604800
  {
  }

  /** A registration is kept for 3600 seconds, at the backend and, if it arrived, at the PMS; and only a car with an active key
      registers. */
  lemma RegistrationLivesExactly(w: World, car: CarId, slot: Slot, link: Delivery, seconds: nat)
    requires slot !in w.b.preNotify && slot !in w.p.preRegistrations
    ensures var w' := Next(PreRegistered(w, car, slot, link), Wait(seconds));
            && (slot in w'.b.preNotify <==> HasActiveKey(w.b, car) && seconds < 3600)
            && (slot in w'.b.preNotify ==> w'.b.preNotify[slot].car == car)
            && (slot in w'.p.preRegistrations <==> HasActiveKey(w.b, car) && !link.NotDelivered? && seconds < 3600)
  {
  }

  /** A new session's cache entry is kept for 259200 seconds. */
  lemma CacheEntryLivesExactly(p: Pms, slot: Slot, entry: Time, id: PmsId, now: Time, later: Time)
    ensures slot in CacheExpired(LprEntry(p, slot, entry, id, None, now).0, later).cache <==> later < now + 259200
  {
  }

  /** Marking a live entry as paid does not lengthen its life. */
  lemma MarkingKeepsLife(cache: map<Slot, CacheEntry>, slot: Slot, now: Time, later: Time)
    requires slot in cache && now < cache[slot].expiresAt
    ensures var e := CacheStatusUpdated(cache, slot, Paid, now)[slot]; e == cache[slot].(status := Paid)
    ensures CacheStatusUpdated(cache, slot, Paid, now) == cache[slot := cache[slot].(status := Paid)]
  {
  }

  /** An entry whose time is up, or that never had one, gets three days anew when it is marked. */
  lemma MarkingRenewsLife(cache: map<Slot, CacheEntry>, slot: Slot, now: Time)
    requires slot in cache && cache[slot].expiresAt <= now
    ensures CacheStatusUpdated(cache, slot, Paid, now) == cache[slot := cache[slot].(status := Paid, expiresAt := now + 259200)]
  {
  }

  /** The retry worker drops an event exactly when the PMS answered it and was heard; else it keeps it with its time. */
  lemma RetriedExactly(w: World, txId: TxId, link: Delivery)
    requires Linked(w.b.sessions, w.p.sessions) && txId in w.b.retries && NoticeOf(w.b.sessions, w.b.txs, w.b.retries[txId].notice)
    ensures var w' := Retried(w, txId, link);
            && w'.b == w.b.(retries := if link.Received? then w.b.retries - {txId} else w.b.retries)
            && (!link.NotDelivered? ==> w.b.retries[txId].notice.key in w'.p.requests)
            && (link.NotDelivered? ==> w'.p == w.p)
  {
    assert w.b.retries[txId].notice.key.ref.id in w.b.sessions;
  }

  // ----- an unanswered notice

  /** What a step may do to the event of transaction id: leave its time, set it anew to seven days, drop it when its time has come,
      or drop it because the PMS holds the request. */
  ghost predicate Fate(w: World, w': World, id: TxId) {
    id in w.b.retries ==>
      || (id in w'.b.retries && (w'.b.retries[id].expiresAt == w.b.retries[id].expiresAt || w'.b.retries[id].expiresAt == w.now + 604800))
      || w'.now >= w.b.retries[id].expiresAt
      || exists k :: k in w'.p.requests && k in w'.b.txs && w'.b.txs[k].txId == id
  }

  lemma TellingFate(w: World, w1: World, key: Key, link: Delivery, id: TxId)
    requires w1.now == w.now && w1.b.retries == w.b.retries && key in w1.b.txs && key.ref.id in w1.b.sessions && Linked(w1.b.sessions, w1.p.sessions)
    ensures Fate(w, Notified(w1, NoticeFor(w1.b, key), link), id)
  {
    TellingTold(w1, key, link);
    NotifiedFrame(w1, NoticeFor(w1.b, key), link);
    OtherEvents(w1, NoticeFor(w1.b, key), link, id);
  }

  /** Another transaction's event stays as it is when n is told. */
  lemma OtherEvents(w: World, n: Notice, link: Delivery, id: TxId)
    ensures var w' := Notified(w, n, link);
            id != n.txId ==> (id in w'.b.retries <==> id in w.b.retries) && (id in w.b.retries ==> w'.b.retries[id] == w.b.retries[id])
  {
  }

  lemma CardFate(w: World, key: Key, billingKey: BillingKey, draw: Draw, links: Links, id: TxId)
    requires Linked(w.b.sessions, w.p.sessions) && OfThisCar(w, key) && Uuid4(draw.tx) !in w.b.outbox
    ensures Fate(w, CardPayment(w, key, billingKey, draw, links).0, id)
  {
    var w1 := CardSettled(w, key, billingKey, draw, links);
    CardSettledRest(w, key, billingKey, draw, links);
    if w1.b.txs[key].status == Success {
      CardSettledRow(w, key, billingKey, draw, links);
      LinkedKept(w.b.sessions, w1.b.sessions, w.p.sessions);
      TellingFate(w, w1, key, links.pms, id);
    }
  }

  lemma FreeFate(w: World, key: Key, links: Links, id: TxId)
    requires Linked(w.b.sessions, w.p.sessions) && Uuid5(key) !in w.b.outbox && OfThisCar(w, key) && key.amount == 0
    ensures Fate(w, FreePayment(w, key, links).0, id)
  {
    var w1 := FreeSettled(w, key);
    FinishedRetries(w, key);
    TellingFate(w, w1, key, links.pms, id);
  }

  lemma FinishedRetries(w: World, key: Key)
    requires key.ref.id in w.b.sessions
    ensures Finished(w.(b := Inserted(w.b, key, Uuid5(key), None)), key, None, FREE).b.retries == w.b.retries
  {
  }

  lemma PayingFate(w: World, key: Key, draw: Draw, links: Links, id: TxId)
    requires Rows(w.b.sessions, w.b.txs) && TxIds(w.b.txs) && OutboxRows(w.b.sessions, w.b.txs, w.b.outbox) && Linked(w.b.sessions, w.p.sessions)
    requires forall k | k in w.b.txs :: w.b.txs[k].txId != Uuid4(draw.tx)
    ensures Fate(w, Payment(w, key.car, key.ref, key.amount, key.currency, draw, links).0, id)
  {
    PaymentCases(w, key, draw, links);
    var w' := Payment(w, key.car, key.ref, key.amount, key.currency, draw, links).0;
    if w' == w {
    } else if Succeeded(w.b.txs, key) {
      TellingFate(w, w, key, links.pms, id);
    } else if key.amount == 0 {
      FreeIdFresh(w, key);
      FreshOutboxId(w, key, Uuid5(key));
      FreeFate(w, key, links, id);
    } else {
      FreshOutboxId(w, key, Uuid4(draw.tx));
      CardFate(w, key, w.b.billingKeys[key.car].billingKey, draw, links, id);
    }
  }

  lemma RetryingFate(w: World, txId: TxId, link: Delivery, id: TxId)
    requires Linked(w.b.sessions, w.p.sessions) && Requests(w.b.sessions, w.b.txs, w.p.requests)
    requires txId in w.b.retries ==> w.b.retries[txId].notice.txId == txId && NoticeOf(w.b.sessions, w.b.txs, w.b.retries[txId].notice)
    ensures Fate(w, Retried(w, txId, link), id)
  {
    RetriedFrame(w, txId, link);
    if txId in w.b.retries && txId == id {
      RecordedTables(w, w.b.retries[txId].notice);
      assert w.b.retries[txId].notice.key in w.b.txs;
    }
  }

  lemma StepFate(w: World, step: Step, id: TxId)
    requires Base(w, {}) && Possible(w, step)
    ensures Fate(w, Next(w, step), id)
  {
    match step
    case Enter(_, _, _, _, _, _, _, _) => EnteredBackend(w, step);
    case AskFee(car, ref, atSlot, link) => FeeAskedFrame(w, car, ref, atSlot, link);
    case Pay(car, ref, amount, currency, draw, links) => PayingFate(w, Key(ref, car, amount, currency), draw, links, id);
    case Retry(txId, link) => RetryingFate(w, txId, link, id);
    case Wait(seconds) => WaitedFrame(w, seconds);
    case Leave(_, _) =>
    case LoseQuotes(refs) => QuotesLostFrame(w, refs);
    case _ => EnvironmentFrame(w, step);
  }

  /** The PMS holds the request of key, or its event is kept until that time at least, or the time has come. */
  ghost predicate KeptUntil(w: World, key: Key, until: Time) {
    && key in w.b.txs
    && (|| key in w.p.requests || w.now >= until
        || (w.b.txs[key].txId in w.b.retries && w.b.retries[w.b.txs[key].txId].expiresAt >= until))
  }

  lemma StepKeeps(w: World, step: Step, key: Key, until: Time)
    requires Base(w, {}) && Possible(w, step) && KeptUntil(w, key, until) && until <= w.now + 604800
    ensures KeptUntil(Next(w, step), key, until)
  {
    StepFate(w, step, w.b.txs[key].txId);
    StepBase(w, step);
    StepGrown(w, step);
    KeptAfter(w, Next(w, step), key, until);
  }

  lemma KeptAfter(w: World, w': World, key: Key, until: Time)
    requires KeptUntil(w, key, until) && until <= w.now + 604800 && w.now <= w'.now
    requires Fate(w, w', w.b.txs[key].txId) && TxIds(w'.b.txs) && key in w'.b.txs && w'.b.txs[key] == w.b.txs[key]
    requires forall k | k in w.p.requests :: k in w'.p.requests
    ensures KeptUntil(w', key, until)
  {
  }

  lemma {:induction false} RunKeeps(w: World, steps: seq<Step>, key: Key, until: Time)
    requires Base(w, {}) && PossibleRun(w, steps) && KeptUntil(w, key, until) && until <= w.now + 604800
    ensures KeptUntil(Run(w, steps), key, until)
    decreases |steps|
  {
    if steps != [] {
      StepKeeps(w, steps[0], key, until);
      StepBase(w, steps[0]);
      StepGrown(w, steps[0]);
      RunKeeps(Next(w, steps[0]), steps[1..], key, until);
    }
  }

  /** A payment or a repeat answers with success at some time. In every later state of the run before 604800 seconds have passed, and
      for good if the notice was delivered, the PMS holds the request of it, or the identical event is pending. */
  lemma SevenDaysToTell(w: World, key: Key, draw: Draw, links: Links, steps: seq<Step>)
    requires Reachable(w) && forall k | k in w.b.txs :: w.b.txs[k].txId != Uuid4(draw.tx)
    requires var (w1, r) := Payment(w, key.car, key.ref, key.amount, key.currency, draw, links); r.Replied? && r.status == Success && PossibleRun(w1, steps)
    ensures var v := Run(Payment(w, key.car, key.ref, key.amount, key.currency, draw, links).0, steps);
            && key in v.b.txs && key.ref.id in v.b.sessions
            && (!links.pms.NotDelivered? ==> key in v.p.requests && v.p.requests[key] == NoticeFor(v.b, key))
            && (v.now < w.now + 604800 ==>
                  || (key in v.p.requests && v.p.requests[key] == NoticeFor(v.b, key))
                  || (v.b.txs[key].txId in v.b.retries && v.b.retries[v.b.txs[key].txId].notice == NoticeFor(v.b, key)))
  {
    ReachableBase(w);
    var w1 := Payment(w, key.car, key.ref, key.amount, key.currency, draw, links).0;
    PaymentBase(w, key.car, key.ref, key.amount, key.currency, draw, links);
    PaidIsTold(w, key, draw, links);
    RunBase(w1, steps);
    RunGrown(w1, steps);
    RunKeeps(w1, steps, key, w.now + 604800);
    var v := Run(w1, steps);
    PendingIsTheNotice(v.b.sessions, v.b.txs, v.b.retries, v.p.requests, v.h, v.now, key);
  }

  lemma PaidIsTold(w: World, key: Key, draw: Draw, links: Links)
    requires Base(w, {}) && forall k | k in w.b.txs :: w.b.txs[k].txId != Uuid4(draw.tx)
    requires var r := Payment(w, key.car, key.ref, key.amount, key.currency, draw, links).1; r.Replied? && r.status == Success
    ensures var w1 := Payment(w, key.car, key.ref, key.amount, key.currency, draw, links).0;
            NoticeTold(w1, key, links.pms) && w1.now == w.now && Succeeded(w1.b.txs, key)
  {
    RepliedExactly(w, key, draw, links);
    ReplyIsRow(w, key, draw, links);
    PaymentGrown(w, key.car, key.ref, key.amount, key.currency, draw, links);
    PaymentNow(w, key, draw, links);
    if key in w.b.txs {
      RepeatTells(w, key, draw, links);
    } else if key.amount == 0 {
      FreePaymentSucceeds(w, key, draw, links);
    } else {
      CardPaymentLeaves(w, key, draw, links);
    }
  }

  lemma PaymentNow(w: World, key: Key, draw: Draw, links: Links)
    ensures Payment(w, key.car, key.ref, key.amount, key.currency, draw, links).0.now == w.now
  {
  }

  lemma PendingIsTheNotice(s: map<SessionId, Session>, txs: map<Key, Tx>, retries: map<TxId, RetryEvent>, requests: map<Key, Notice>, h: History, now: Time, key: Key)
    requires TxIds(txs) && Requests(s, txs, requests) && RetryEvents(now, s, txs, retries, h) && Succeeded(txs, key) && key.ref.id in s
    ensures forall b: Backend | b.sessions == s && b.txs == txs ::
              && (key in requests ==> requests[key] == NoticeFor(b, key))
              && (txs[key].txId in retries ==> retries[txs[key].txId].notice == NoticeFor(b, key))
  {
    if txs[key].txId in retries {
      assert NoticeOf(s, txs, retries[txs[key].txId].notice);
    }
    if key in requests {
      assert NoticeOf(s, txs, requests[key]);
    }
  }
}
