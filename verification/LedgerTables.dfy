/** One charge, seen from the three ledgers. */
module LedgerTables {
  import opened Ledgers
  import opened CardCompany
  import opened PaymentGateway
  import opened CarPayIn
  import opened Protocol
  import opened Invariants

  /** A first charge touches only its own key. The PG records success exactly when the card company did and
      the PG heard it; its answer is a readable approval exactly in that case. */
  lemma FirstCharge(g: Pg, c: Card, billingKey: BillingKey, key: Key, draw: Draw, link: Delivery)
    requires key !in g.txs && key !in c.txs && key.amount > 0
    ensures var (g', c', r) := Charge(g, c, billingKey, key, draw, link);
            && g'.keys == g.keys && c'.tokens == c.tokens
            && g'.txs - {key} == g.txs && c'.txs - {key} == c.txs
            && (key in g'.txs ==> g'.txs[key].amount == key.amount && g'.txs[key].currency == key.currency && g'.txs[key].status != Pending)
            && (key in c'.txs ==> key in g'.txs && c'.txs[key].amount == key.amount && c'.txs[key].currency == key.currency && c'.txs[key].status != Pending)
            && (PgPaid(g'.txs, key) <==> CardPaid(c'.txs, key) && link.Received?)
            && (CardPaid(c'.txs, key) ==> c'.txs[key].approval.Some? && !link.NotDelivered?)
            && (PgPaid(g'.txs, key) ==> g'.txs[key].approval == c'.txs[key].approval)
            && (Understood(r).Approved? <==> PgPaid(g'.txs, key))
            && (Understood(r).Approved? ==> g'.txs[key].approval == Some(Understood(r).approval))
  {
    var (g', c', r) := Charge(g, c, billingKey, key, draw, link);
    assert g'.txs - {key} == g.txs;
    assert c'.txs - {key} == c.txs;
  }

  /** The backend's row under key after its charge: success exactly when the client read an approval. */
  ghost predicate Follows(t: Tx, result: PgResult) {
    && (t.status == Success <==> result.Approved?)
    && (result.Approved? ==> t.approval == Some(result.approval))
    && t.status != Pending
  }

  ghost predicate LedgerOk(txs: map<Key, Tx>, g: map<Key, PgTx>, c: map<Key, CardTx>, h: History) {
    LedgerKeys(txs, g, c, h) && LedgerBacked(txs, g, c) && LedgerLosses(txs, g, c, h)
  }

  /** Only the row of key may differ. */
  ghost predicate Elsewhere<V>(m: map<Key, V>, m': map<Key, V>, key: Key) {
    forall k | k != key :: (k in m' <==> k in m) && (k in m ==> m'[k] == m[k])
  }

  lemma OtherKeys<V>(m: map<Key, V>, m': map<Key, V>, key: Key)
    requires key !in m && m' - {key} == m
    ensures Elsewhere(m, m', key)
  {
    forall k | k != key ensures (k in m' <==> k in m) && (k in m ==> m'[k] == m[k]) {
      assert k in m' <==> k in m' - {key};
    }
  }

  lemma BackedAfter(txs: map<Key, Tx>, txs': map<Key, Tx>, g: map<Key, PgTx>, g': map<Key, PgTx>, c: map<Key, CardTx>, c': map<Key, CardTx>, key: Key)
    requires LedgerBacked(txs, g, c)
    requires Elsewhere(txs, txs', key) && Elsewhere(g, g', key) && Elsewhere(c, c', key)
    requires Succeeded(txs', key) ==> key.amount > 0 && PgPaid(g', key) && g'[key].approval == txs'[key].approval
    requires PgPaid(g', key) ==> CardPaid(c', key) && c'[key].approval == g'[key].approval
    requires CardPaid(c', key) ==> c'[key].approval.Some?
    ensures LedgerBacked(txs', g', c')
  {
    forall k | k != key
      ensures (Succeeded(txs', k) <==> Succeeded(txs, k)) && (PgPaid(g', k) <==> PgPaid(g, k)) && (CardPaid(c', k) <==> CardPaid(c, k))
    {
    }
  }

  lemma LossesAfter(txs: map<Key, Tx>, txs': map<Key, Tx>, g: map<Key, PgTx>, g': map<Key, PgTx>, c: map<Key, CardTx>, c': map<Key, CardTx>,
                    h: History, h': History, key: Key)
    requires LedgerLosses(txs, g, c, h)
    requires Elsewhere(txs, txs', key) && Elsewhere(g, g', key) && Elsewhere(c, c', key)
    requires h'.pgLost - {key} == h.pgLost - {key} && h'.cardLost - {key} == h.cardLost - {key}
    requires PgPaid(g', key) ==> (Succeeded(txs', key) <==> key !in h'.pgLost)
    requires CardPaid(c', key) ==> (PgPaid(g', key) <==> key !in h'.cardLost)
    ensures LedgerLosses(txs', g', c', h')
  {
    forall k | k != key
      ensures (Succeeded(txs', k) <==> Succeeded(txs, k)) && (PgPaid(g', k) <==> PgPaid(g, k)) && (CardPaid(c', k) <==> CardPaid(c, k))
      ensures (k in h'.pgLost <==> k in h.pgLost) && (k in h'.cardLost <==> k in h.cardLost)
    {
      assert k in h'.pgLost <==> k in h'.pgLost - {key};
      assert k in h'.cardLost <==> k in h'.cardLost - {key};
    }
  }

  lemma KeysAfter(txs: map<Key, Tx>, txs': map<Key, Tx>, g: map<Key, PgTx>, g': map<Key, PgTx>, c: map<Key, CardTx>, c': map<Key, CardTx>,
                  h: History, h': History, key: Key)
    requires LedgerKeys(txs, g, c, h)
    requires Elsewhere(txs, txs', key) && Elsewhere(g, g', key) && Elsewhere(c, c', key) && key in txs'
    requires h'.pgLost <= h.pgLost + {key} && h'.cardLost <= h.cardLost + {key}
    requires key in g' ==> key.amount > 0 && g'[key].amount == key.amount && g'[key].currency == key.currency && g'[key].status != Pending
    requires key in c' ==> key in g' && c'[key].amount == key.amount && c'[key].currency == key.currency && c'[key].status != Pending
    ensures LedgerKeys(txs', g', c', h')
  {
  }

  /** One card payment keeps the three ledgers in agreement, whatever is lost on the way. */
  lemma ChargedLedgers(w: World, key: Key, billingKey: BillingKey, draw: Draw, links: Links, t: Tx)
    requires LedgerOk(w.b.txs, w.g.txs, w.c.txs, w.h)
    requires key !in w.b.txs && key.amount > 0
    requires Follows(t, PgCalled(w, key, billingKey, draw, links).1)
    ensures var w' := PgCalled(w, key, billingKey, draw, links).0;
            LedgerOk(w.b.txs[key := t], w'.g.txs, w'.c.txs, w'.h)
  {
    var txs', w' := w.b.txs[key := t], PgCalled(w, key, billingKey, draw, links).0;
    var g', c' := w'.g.txs, w'.c.txs;
    assert key !in w.g.txs && key !in w.c.txs && key !in w.h.pgLost && key !in w.h.cardLost;
    if !links.pg.NotDelivered? {
      FirstCharge(w.g, w.c, billingKey, key, draw, links.card);
      OtherKeys(w.g.txs, g', key);
      OtherKeys(w.c.txs, c', key);
    }
    KeysAfter(w.b.txs, txs', w.g.txs, g', w.c.txs, c', w.h, w'.h, key);
    BackedAfter(w.b.txs, txs', w.g.txs, g', w.c.txs, c', key);
    LossesAfter(w.b.txs, txs', w.g.txs, g', w.c.txs, c', w.h, w'.h, key);
  }

  /** A free payment reaches no other ledger. */
  lemma FreeLedgers(txs: map<Key, Tx>, g: map<Key, PgTx>, c: map<Key, CardTx>, h: History, key: Key, t: Tx)
    requires LedgerOk(txs, g, c, h)
    requires key !in txs && key.amount == 0 && t.status == Success && t.approval == Some(FREE) && t.billingKey == None
    ensures LedgerOk(txs[key := t], g, c, h)
  {
    var txs' := txs[key := t];
    forall k | k != key ensures Succeeded(txs', k) <==> Succeeded(txs, k) {
    }
  }
}
