/** The backend's handlers as they run: one commit, Redis write or remote call after another, each handler proved to
    leave the four services exactly as Protocol says. */
module BackendService {
  import opened Ledgers
  import opened CardCompany
  import opened PaymentGateway
  import opened ParkingSystem
  import opened CarPayIn
  import opened Protocol
  import opened Notices
  import Fees

  class Service {
    var sessions: map<SessionId, Session>
    var txs: map<Key, Tx>
    var quotes: map<SessionRef, Quote>
    var retries: map<TxId, RetryEvent>
    var preNotify: map<Slot, PreNotify>
    var billingKeys: map<CarId, BillingKeyRow>
    var outbox: map<TxId, Payload>
    ghost var history: History
    const pms: PmsService
    const pg: PgService

    constructor (pms: PmsService, pg: PgService)
      ensures this.pms == pms && this.pg == pg
      ensures View() == Backend(map[], map[], map[], map[], map[], map[], map[]) && history == History({}, {}, map[])
    {
      this.pms, this.pg := pms, pg;
      sessions, txs, quotes, retries, preNotify, billingKeys, outbox := map[], map[], map[], map[], map[], map[], map[];
      history := History({}, {}, map[]);
    }

    function View(): Backend
      reads this
    {
      Backend(sessions, txs, quotes, retries, preNotify, billingKeys, outbox)
    }

    /** All four services and the history of the wire. */
    ghost function All(now: Time): World
      reads this, pms, pg, pg.card
    {
      World(now, View(), pms.View(), pg.View(), pg.card.View(), history)
    }

    // ----- transaction and session tables

    /** The insert raises for an unknown session and aborts on the unique key. */
    method CreatePendingTransaction(key: Key, txId: TxId, billingKey: Option<BillingKey>) returns (stored: bool)
      modifies this`txs
      ensures stored <==> key.ref.id in sessions && key !in old(txs)
      ensures View() == if stored then Inserted(old(View()), key, txId, billingKey) else old(View())
    {
      if key.ref.id !in sessions || key in txs {
        return false;
      }
      var car := sessions[key.ref.id].car;
      txs := txs[key := Tx(txId, key.ref.id, car, billingKey, key.amount, key.currency, Pending, None, None)];
      return true;
    }

    method UpdateTransactionFailed(key: Key) returns (found: bool)
      modifies this`txs
      ensures found <==> key in old(txs)
      ensures View() == if found then MarkedFailed(old(View()), key) else old(View())
    {
      if key !in txs {
        return false;
      }
      txs := txs[key := txs[key].(status := Failed, pgTxId := None, approval := None)];
      return true;
    }

    method MarkSuccessAndEnqueuePaymentNotification(key: Key, pgTxId: Option<nat>, approval: ApprovalNo, payload: Payload) returns (found: bool)
      modifies this`txs, this`outbox
      ensures found <==> key in old(txs)
      ensures View() == if found then MarkedSuccess(old(View()), key, pgTxId, approval, payload) else old(View())
    {
      if key !in txs {
        return false;
      }
      var row := txs[key].(status := Success, pgTxId := pgTxId, approval := Some(approval));
      txs := txs[key := row];
      if row.txId !in outbox {
        outbox := outbox[row.txId := payload];
      }
      return true;
    }

    method UpdateSessionCompleted(id: SessionId, now: Time) returns (found: bool)
      modifies this`sessions
      ensures found <==> id in old(sessions)
      ensures View() == if found then CompletedSession(old(View()), id, now) else old(View())
    {
      if id !in sessions {
        return false;
      }
      var row := sessions[id].(status := Completed);
      if row.exitTime.None? {
        row := row.(exitTime := Some(now));
      }
      sessions := sessions[id := row];
      return true;
    }

    method GetSessionByPmsId(id: PmsId) returns (answer: Option<SessionId>)
      ensures ByPmsId(sessions, id, answer)
    {
      if s :| s in sessions && sessions[s].pmsId == id {
        answer := Some(s);
      } else {
        answer := None;
      }
    }

    method GetActiveSessionByCar(car: CarId) returns (answer: Option<SessionId>)
      ensures OngoingByCar(sessions, car, answer)
    {
      if s :| s in sessions && sessions[s].car == car && sessions[s].status == Ongoing {
        answer := Some(s);
      } else {
        answer := None;
      }
    }

    // ----- retry events

    method RecordRetryEvent(n: Notice, now: Time)
      modifies this`retries, this`history
      ensures All(now) == RetryRecorded(old(All(now)), n)
    {
      var until := now + PAYMENT_NOTIFY_RETRY_TTL_SECONDS;
      retries := retries[n.txId := RetryEvent(n, until)];
      history := history.(retryUntil := history.retryUntil[n.txId := until]);
    }

    /** Sends one notice. Anything but an answer of the PMS raises in the client. */
    method CallPms(n: Notice, link: Delivery, now: Time) returns (answered: bool)
      modifies pms
      ensures pms.View() == if link.NotDelivered? then old(pms.View()) else Recording(old(pms.View()), n, now).0
      ensures answered <==> link.Received? && Recording(old(pms.View()), n, now).1.Recorded?
    {
      if link.NotDelivered? {
        return false;
      }
      var r := pms.RecordPaymentComplete(n, now);
      answered := link.Received? && r.Recorded?;
    }

    method NotifyPmsPaymentComplete(n: Notice, link: Delivery, now: Time)
      modifies this`retries, this`history, pms
      ensures All(now) == Notified(old(All(now)), n, link)
    {
      var answered := CallPms(n, link, now);
      if !answered {
        RecordRetryEvent(n, now);
        return;
      }
      retries := retries - {n.txId};
    }

    // ----- payment

    /** The charge request through the backend's HTTP client. */
    method CallPg(key: Key, billingKey: BillingKey, draw: Draw, links: Links, ghost now: Time) returns (r: PgResult)
      modifies this`history, pg, pg.card
      ensures (All(now), r) == PgCalled(old(All(now)), key, billingKey, draw, links)
    {
      if links.pg.NotDelivered? {
        return ClientRaised;
      }
      var reply := pg.ChargeBillingKey(billingKey, key, draw, links.card);
      history := history.(cardLost := if links.card.ResponseLost? then history.cardLost + {key} else history.cardLost,
                          pgLost := if links.pg.ResponseLost? then history.pgLost + {key} else history.pgLost);
      return Understood(Heard(reply, links.pg));
    }

    method FinishPayment(key: Key, pgTxId: Option<nat>, approval: ApprovalNo, link: Delivery, now: Time)
      requires key in txs && key.ref.id in sessions
      modifies this`txs, this`outbox, this`sessions, this`retries, this`history, pms
      ensures var w := Finished(old(All(now)), key, pgTxId, approval);
              All(now) == Notified(w, NoticeFor(w.b, key), link)
    {
      var session := sessions[key.ref.id];
      var payload := Payload(key.ref, key.car, session.slot.lot, key.amount, key.currency, approval);
      var marked := MarkSuccessAndEnqueuePaymentNotification(key, pgTxId, approval, payload);
      var completed := UpdateSessionCompleted(key.ref.id, now);
      var notice := Notice(session.pmsId, key.ref, txs[key].txId, key.amount, key.currency, Some(approval), key);
      NotifyPmsPaymentComplete(notice, link, now);
    }

    method ProcessPayment(car: CarId, ref: SessionRef, amount: int, currency: Currency, draw: Draw, links: Links, now: Time)
      returns (r: PayResult)
      modifies this, pms, pg, pg.card
      ensures (All(now), r) == Payment(old(All(now)), car, ref, amount, currency, draw, links)
    {
      if ref !in quotes {
        return Rejected(QuoteNotFound);
      }
      if quotes[ref].amount != amount || quotes[ref].currency != currency {
        return Rejected(AmountCurrencyMismatch);
      }
      if ref.id !in sessions {
        return Rejected(PSessionNotFound);
      }
      var session := sessions[ref.id];
      if session.car != car {
        return Rejected(SessionCarMismatch);
      }
      var key := Key(ref, car, amount, currency);
      if key in txs {
        var existing := txs[key];
        if existing.status == Success {
          NotifyPmsPaymentComplete(Notice(session.pmsId, ref, existing.txId, amount, currency, existing.approval, key), links.pms, now);
        }
        return Replied(existing.status, existing.txId, existing.approval);
      }
      if amount < 0 {
        return Rejected(InvalidAmount);
      }
      if amount == 0 {
        var stored := CreatePendingTransaction(key, Uuid5(key), None);
        FinishPayment(key, None, FREE, links.pms, now);
        return Replied(Success, Uuid5(key), Some(FREE));
      }
      if car !in billingKeys || !billingKeys[car].active {
        return Rejected(NoActiveBillingKey);
      }
      var billingKey := billingKeys[car].billingKey;
      var stored := CreatePendingTransaction(key, Uuid4(draw.tx), Some(billingKey));
      var result := CallPg(key, billingKey, draw, links, now);
      match result {
        case Approved(pgTxId, approval) =>
          FinishPayment(key, Some(pgTxId), approval, links.pms, now);
          return Replied(Success, Uuid4(draw.tx), Some(approval));
        case Declined =>
          var failed := UpdateTransactionFailed(key);
          return Replied(Failed, Uuid4(draw.tx), None);
        case ClientRaised =>
          var failed := UpdateTransactionFailed(key);
          return Replied(Failed, Uuid4(draw.tx), None);
      }
    }

    // ----- fee quotes and entries

    method GetParkingFee(car: CarId, ref: SessionRef, link: Delivery, now: Time)
      returns (r: FeeReply, ghost atSlot: Option<PmsId>)
      modifies this`quotes
      ensures AsksPms(old(View()), car, ref) ==> WithStatusAt(pms.sessions, sessions[ref.id].slot, PmsStatus.Active, atSlot)
      ensures (All(now), r) == FeeAsked(old(All(now)), car, ref, atSlot, link)
    {
      atSlot := None;
      if ref in quotes {
        return Quoted(quotes[ref].amount, quotes[ref].duration, quotes[ref].currency), atSlot;
      }
      if ref.id !in sessions {
        return QSessionNotFound, atSlot;
      }
      var session := sessions[ref.id];
      if session.status != Ongoing {
        return QNotActive, atSlot;
      }
      if session.car != car {
        return QCarMismatch, atSlot;
      }
      var owed;
      owed, atSlot := pms.CalculateFee(session.pmsId, session.slot, now);
      if !link.Received? || !owed.Owed? {
        return QPmsFailed, atSlot;
      }
      quotes := quotes[ref := Quote(owed.amount, owed.duration, KRW, now, now + Fees.FEE_QUOTE_TTL_SECONDS)];
      return Quoted(owed.amount, owed.duration, KRW), atSlot;
    }

    /** signed is the authenticator's answer, dated whether the entry time is well-formed. */
    method HandleEntryWebhook(hook: EntryWebhook, id: SessionId, signed: bool, dated: bool)
      returns (r: EntryReply, ghost known: Option<SessionId>, ghost ongoing: Option<SessionId>)
      modifies this`sessions, this`preNotify
      ensures !signed ==> r == InvalidSignature && View() == old(View())
      ensures signed && !dated ==> r == InvalidEntryTime && View() == old(View())
      ensures signed && dated ==> ByPmsId(old(sessions), hook.pmsId, known)
      ensures signed && dated && known.None? && hook.slot in old(preNotify) ==> OngoingByCar(old(sessions), old(preNotify)[hook.slot].car, ongoing)
      ensures signed && dated ==> (View(), r) == EntryConfirmed(old(View()), hook, id, known, ongoing)
    {
      known, ongoing := None, None;
      if !signed {
        return InvalidSignature, known, ongoing;
      }
      if !dated {
        return InvalidEntryTime, known, ongoing;
      }
      var existing := GetSessionByPmsId(hook.pmsId);
      known := existing;
      if existing.Some? {
        return Confirmed(existing.value), known, ongoing;
      }
      if hook.slot !in preNotify {
        return NotRegistered, known, ongoing;
      }
      var car := preNotify[hook.slot].car;
      var active := GetActiveSessionByCar(car);
      ongoing := active;
      if active.Some? {
        return Confirmed(active.value), known, ongoing;
      }
      sessions := sessions[id := Session(hook.pmsId, car, hook.slot, hook.entry, Ongoing, None)];
      preNotify := preNotify - {hook.slot};
      return Confirmed(id), known, ongoing;
    }

    /** A car at the entry lane: the PMS's handler, and the webhook it sends last. */
    method CarEnters(slot: Slot, entry: Time, id: PmsId, link: Delivery, sid: SessionId, now: Time) returns (ghost step: Step)
      requires id !in pms.sessions && sid !in sessions && forall s | s in sessions :: sessions[s].pmsId != id
      modifies this`sessions, this`preNotify, pms
      ensures step.Enter? && Possible(old(All(now)), step) && All(now) == Next(old(All(now)), step)
      ensures step.slot == slot && step.entry == entry && step.id == id && step.link == link && step.sid == sid
    {
      var r, webhook;
      ghost var existing, known, ongoing := None, None, None;
      r, webhook, existing := pms.HandleLprEntry(slot, entry, id, now);
      if webhook.Some? && !link.NotDelivered? {
        var reply;
        reply, known, ongoing := HandleEntryWebhook(webhook.value, sid, true, true);
      } else if slot in preNotify {
        ongoing := GetActiveSessionByCar(preNotify[slot].car);
      }
      step := Enter(slot, entry, id, existing, link, sid, known, ongoing);
    }

    // ----- the retry worker

    method RetryPayment(txId: TxId, link: Delivery, now: Time)
      modifies this`retries, pms
      ensures All(now) == Retried(old(All(now)), txId, link)
    {
      if txId !in retries {
        return;
      }
      var answered := CallPms(retries[txId].notice, link, now);
      if answered {
        retries := retries - {txId};
      }
    }

    /** The cursor loop over SCAN's batches. links gives the fate of the calls in the order they are made. */
    method ProcessPaymentRetries(batches: seq<seq<TxId>>, links: seq<Delivery>, now: Time)
      requires |links| == |Flat(batches)|
      modifies this`retries, pms
      ensures All(now) == RetriedAll(old(All(now)), Flat(batches), links)
    {
      ghost var target := RetriedAll(All(now), Flat(batches), links);
      var i, called := 0, 0;
      while i < |batches|
        invariant 0 <= i <= |batches| && 0 <= called && called + |Flat(batches[i..])| == |links|
        invariant RetriedAll(All(now), Flat(batches[i..]), links[called..]) == target
        invariant unchanged(pg, pg.card) && history == old(history)
      {
        var keys := batches[i];
        FlatFirst(batches[i..]);
        assert batches[i..][1..] == batches[i + 1..];
        var j := 0;
        while j < |keys|
          invariant 0 <= j <= |keys| && called + |keys| - j + |Flat(batches[i + 1..])| == |links|
          invariant RetriedAll(All(now), keys[j..] + Flat(batches[i + 1..]), links[called..]) == target
          invariant unchanged(pg, pg.card) && history == old(history)
        {
          assert (keys[j..] + Flat(batches[i + 1..]))[1..] == keys[j + 1..] + Flat(batches[i + 1..]);
          assert links[called..][1..] == links[called + 1..];
          RetryPayment(keys[j], links[called], now);
          j, called := j + 1, called + 1;
        }
        assert keys[j..] + Flat(batches[i + 1..]) == Flat(batches[i + 1..]);
        i := i + 1;
      }
    }
  }

  function Flat<T>(batches: seq<seq<T>>): seq<T> {
    if batches == [] then [] else batches[0] + Flat(batches[1..])
  }

  lemma FlatFirst<T>(batches: seq<seq<T>>)
    requires batches != []
    ensures Flat(batches) == batches[0] + Flat(batches[1..])
  {
  }
}
