/** The backend's tables under one new transaction: each lemma speaks of the tables it needs. */
module BackendTables {
  import opened Ledgers
  import opened CarPayIn
  import opened ParkingSystem
  import opened Invariants
  import Protocol

  /** Sessions are never removed, never rewritten, and never reopened. */
  ghost predicate SessionsKept(s: map<SessionId, Session>, s': map<SessionId, Session>) {
    forall id | id in s ::
      && id in s' && s'[id].pmsId == s[id].pmsId && s'[id].car == s[id].car && s'[id].slot == s[id].slot && s'[id].entry == s[id].entry
      && (s[id].status == Completed ==> s'[id].status == Completed)
  }

  /** A transaction row as the handler leaves it. */
  ghost predicate FinalRow(s: map<SessionId, Session>, key: Key, t: Tx) {
    && key.ref.id in s && s[key.ref.id].car == key.car && key.amount >= 0
    && t.sid == key.ref.id && t.car == key.car && t.amount == key.amount && t.currency == key.currency
    && t.status != Pending && (t.status == Success ==> t.approval.Some?)
  }

  ghost predicate FreshTxId(txs: map<Key, Tx>, key: Key, txId: TxId) {
    && (forall k | k in txs :: txs[k].txId != txId)
    && (txId.Uuid5? ==> txId.key == key)
  }

  ghost predicate QuotedAt(quotes: map<SessionRef, Quote>, key: Key) {
    key.ref in quotes && quotes[key.ref].amount == key.amount && quotes[key.ref].currency == key.currency
  }

  lemma RowsAdded(s: map<SessionId, Session>, s': map<SessionId, Session>, txs: map<Key, Tx>, key: Key, t: Tx)
    requires Rows(s, txs) && SessionsKept(s, s') && FinalRow(s, key, t)
    ensures Rows(s', txs[key := t])
  {
  }

  lemma TxIdsAdded(txs: map<Key, Tx>, key: Key, t: Tx)
    requires TxIds(txs) && key !in txs && FreshTxId(txs, key, t.txId)
    ensures TxIds(txs[key := t])
  {
  }

  /** A paid spelling cannot be paid again: its live quote is the paid one, so the key would be the same. */
  lemma UnpaidRef(s: map<SessionId, Session>, txs: map<Key, Tx>, quotes: map<SessionRef, Quote>, key: Key)
    requires Rows(s, txs) && Settles(s, txs, quotes) && QuotedAt(quotes, key) && key !in txs
    requires key.ref.id in s && s[key.ref.id].car == key.car
    ensures forall k | Succeeded(txs, k) :: k.ref != key.ref
  {
    forall k | Succeeded(txs, k) && k.ref == key.ref ensures k == key {
      assert k.ref.id in s;
    }
  }

  lemma SettlesAdded(s: map<SessionId, Session>, s': map<SessionId, Session>, txs: map<Key, Tx>, quotes: map<SessionRef, Quote>, key: Key, t: Tx)
    requires Rows(s, txs) && Settles(s, txs, quotes) && SessionsKept(s, s') && QuotedAt(quotes, key)
    requires t.status == Success ==> key.ref.id in s' && s'[key.ref.id].status == Completed
    ensures Settles(s', txs[key := t], quotes)
  {
    forall k | Succeeded(txs[key := t], k) && k.ref.id in s'
      ensures s'[k.ref.id].status == Completed && (k.ref in quotes ==> quotes[k.ref].amount == k.amount && quotes[k.ref].currency == k.currency)
    {
      if k != key {
        assert Succeeded(txs, k) && k.ref.id in s;
      }
    }
  }

  lemma OneSuccessAdded(txs: map<Key, Tx>, key: Key, t: Tx)
    requires OneSuccess(txs) && forall k | Succeeded(txs, k) :: k.ref != key.ref
    ensures OneSuccess(txs[key := t])
  {
    forall k, l | Succeeded(txs[key := t], k) && Succeeded(txs[key := t], l) && k.ref == l.ref ensures k == l {
      if k != key { assert Succeeded(txs, k); }
      if l != key { assert Succeeded(txs, l); }
    }
  }

  lemma OutboxUnchanged(s: map<SessionId, Session>, s': map<SessionId, Session>, txs: map<Key, Tx>, outbox: map<TxId, Payload>, key: Key, t: Tx)
    requires OutboxRows(s, txs, outbox) && SessionsKept(s, s') && key !in txs && t.status != Success
    ensures OutboxRows(s', txs[key := t], outbox)
  {
    var txs' := txs[key := t];
    forall k | Succeeded(txs', k) ensures txs'[k].txId in outbox && PayloadOf(s', txs', k, outbox[txs'[k].txId]) {
      assert Succeeded(txs, k);
    }
    forall i | i in outbox ensures exists k :: Succeeded(txs', k) && txs'[k].txId == i {
      var k :| Succeeded(txs, k) && txs[k].txId == i;
      assert Succeeded(txs', k);
    }
  }

  lemma OutboxAdded(s: map<SessionId, Session>, s': map<SessionId, Session>, txs: map<Key, Tx>, outbox: map<TxId, Payload>, key: Key, t: Tx, p: Payload)
    requires OutboxRows(s, txs, outbox) && SessionsKept(s, s') && key !in txs && FreshTxId(txs, key, t.txId)
    requires t.status == Success && PayloadOf(s', txs[key := t], key, p)
    ensures t.txId !in outbox
    ensures OutboxRows(s', txs[key := t], outbox[t.txId := p])
  {
    var txs', outbox' := txs[key := t], outbox[t.txId := p];
    forall k | Succeeded(txs', k) ensures txs'[k].txId in outbox' && PayloadOf(s', txs', k, outbox'[txs'[k].txId]) {
      if k != key {
        assert Succeeded(txs, k);
      }
    }
    forall i | i in outbox' ensures exists k :: Succeeded(txs', k) && txs'[k].txId == i {
      if i == t.txId {
        assert Succeeded(txs', key);
      } else {
        var k :| Succeeded(txs, k) && txs[k].txId == i;
        assert Succeeded(txs', k);
      }
    }
  }

  lemma CompletedAdded(s: map<SessionId, Session>, s': map<SessionId, Session>, txs: map<Key, Tx>, key: Key, t: Tx)
    requires CompletedByPayment(s, txs) && key !in txs
    requires forall i | i in s' && s'[i].status == Completed :: (i in s && s[i].status == Completed) || (i == key.ref.id && t.status == Success)
    ensures CompletedByPayment(s', txs[key := t])
  {
    var txs' := txs[key := t];
    forall i | i in s' && s'[i].status == Completed ensures exists k :: Succeeded(txs', k) && k.ref.id == i {
      if i in s && s[i].status == Completed {
        var k :| Succeeded(txs, k) && k.ref.id == i;
        assert Succeeded(txs', k);
      } else {
        assert Succeeded(txs', key);
      }
    }
  }

  // ----- what other tables say of the transactions

  lemma NoticeKept(s: map<SessionId, Session>, s': map<SessionId, Session>, txs: map<Key, Tx>, key: Key, t: Tx, n: Notice)
    requires NoticeOf(s, txs, n) && SessionsKept(s, s') && key !in txs
    ensures NoticeOf(s', txs[key := t], n)
  {
  }

  lemma RequestsKept(s: map<SessionId, Session>, s': map<SessionId, Session>, txs: map<Key, Tx>, requests: map<Key, Notice>, key: Key, t: Tx)
    requires Requests(s, txs, requests) && SessionsKept(s, s') && key !in txs
    ensures Requests(s', txs[key := t], requests)
  {
    forall k | k in requests ensures requests[k].key == k && NoticeOf(s', txs[key := t], requests[k]) {
      NoticeKept(s, s', txs, key, t, requests[k]);
    }
  }

  lemma RetriesKept(now: Time, s: map<SessionId, Session>, s': map<SessionId, Session>, txs: map<Key, Tx>, retries: map<TxId, RetryEvent>,
                    h: Protocol.History, h': Protocol.History, key: Key, t: Tx)
    requires RetryEvents(now, s, txs, retries, h) && SessionsKept(s, s') && key !in txs && h'.retryUntil == h.retryUntil
    ensures RetryEvents(now, s', txs[key := t], retries, h')
  {
    forall i | i in retries ensures NoticeOf(s', txs[key := t], retries[i].notice) {
      NoticeKept(s, s', txs, key, t, retries[i].notice);
    }
  }

  lemma LinkedKept(s: map<SessionId, Session>, s': map<SessionId, Session>, pms: map<PmsId, PmsSession>)
    requires Linked(s, pms) && SessionsKept(s, s') && s'.Keys == s.Keys
    ensures Linked(s', pms)
  {
  }

  lemma NoneForgottenAdded(now: Time, txs: map<Key, Tx>, retries: map<TxId, RetryEvent>, requests: map<Key, Notice>,
                           h: Protocol.History, h': Protocol.History, key: Key, t: Tx)
    requires NoneForgotten(now, txs, retries, requests, h, {}) && h'.retryUntil == h.retryUntil
    ensures NoneForgotten(now, txs[key := t], retries, requests, h', {key})
    ensures t.status != Success ==> NoneForgotten(now, txs[key := t], retries, requests, h', {})
  {
    var txs' := txs[key := t];
    forall k | Succeeded(txs', k) && k != key ensures Remembered(now, txs', retries, requests, h', k) {
      assert Succeeded(txs, k);
    }
  }
}
