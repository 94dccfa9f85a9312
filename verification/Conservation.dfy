/** Money over whole runs: what the backend counts as paid, what the PG charged, what the card company approved. */
module Conservation {
  import opened Ledgers
  import opened CardCompany
  import opened PaymentGateway
  import opened CarPayIn
  import opened Protocol
  import opened Invariants
  import opened Theorems

  ghost function Total(m: map<Key, int>): int
    decreases |m|
  {
    if m == map[] then 0
    else
      var k :| k in m;
      assert |m - {k}| < |m| by { Smaller(m, k); }
      m[k] + Total(m - {k})
  }

  lemma Smaller(m: map<Key, int>, k: Key)
    requires k in m
    ensures |m - {k}| < |m|
  {
    assert (m - {k}).Keys == m.Keys - {k};
    assert |m.Keys - {k}| == |m.Keys| - 1;
  }

  lemma {:induction false} TotalWithout(m: map<Key, int>, k: Key)
    requires k in m
    ensures Total(m) == m[k] + Total(m - {k})
    decreases |m|
  {
    var l :| l in m && Total(m) == m[l] + Total(m - {l});
    if l != k {
      Smaller(m, l);
      Smaller(m, k);
      TotalWithout(m - {l}, k);
      TotalWithout(m - {k}, l);
      assert m - {l} - {k} == m - {k} - {l};
    }
  }

  lemma UnionWithout(m: map<Key, int>, n: map<Key, int>, k: Key)
    requires m.Keys !! n.Keys && k in m
    ensures k in m + n && (m + n)[k] == m[k] && (m + n) - {k} == (m - {k}) + n && (m - {k}).Keys !! n.Keys
  {
  }

  lemma {:induction false} TotalUnion(m: map<Key, int>, n: map<Key, int>)
    requires m.Keys !! n.Keys
    ensures Total(m + n) == Total(m) + Total(n)
    decreases |m|
  {
    if m == map[] {
      assert m + n == n;
    } else {
      var k :| k in m;
      UnionWithout(m, n, k);
      TotalWithout(m, k);
      TotalWithout(m + n, k);
      Smaller(m, k);
      TotalUnion(m - {k}, n);
    }
  }

  lemma {:induction false} TotalNonNegative(m: map<Key, int>)
    requires forall k | k in m :: m[k] >= 0
    ensures Total(m) >= 0
    decreases |m|
  {
    if m != map[] {
      var k :| k in m;
      TotalWithout(m, k);
      Smaller(m, k);
      TotalNonNegative(m - {k});
    }
  }

  /** Amounts of the paid (not free) successes of the backend. */
  ghost function BackendTakings(w: World): map<Key, int> {
    map k | k in w.b.txs && w.b.txs[k].status == Success && w.b.txs[k].amount != 0 :: w.b.txs[k].amount
  }

  ghost function PgTakings(w: World): map<Key, int> {
    map k | k in w.g.txs && w.g.txs[k].status == Success :: w.g.txs[k].amount
  }

  ghost function CardTakings(w: World): map<Key, int> {
    map k | k in w.c.txs && w.c.txs[k].status == Success :: w.c.txs[k].amount
  }

  /** The part of a ledger's takings whose answer to the caller was lost. */
  ghost function LostOf(takings: map<Key, int>, lost: set<Key>): map<Key, int> {
    map k | k in takings && k in lost :: takings[k]
  }

  lemma Split(whole: map<Key, int>, part: map<Key, int>, lost: set<Key>)
    requires forall k | k in part :: k in whole && k !in lost && part[k] == whole[k]
    requires forall k | k in whole :: k in part || k in lost
    ensures Total(whole) == Total(part) + Total(LostOf(whole, lost))
  {
    assert whole == part + LostOf(whole, lost);
    TotalUnion(part, LostOf(whole, lost));
  }

  /** The accounts balance exactly: the PG's takings are the backend's plus the charges whose answer was lost on the
      way to the backend, and the card company's are the PG's plus those lost on the way to the PG. */
  lemma TakingsBalance(w: World)
    requires Reachable(w)
    ensures Total(PgTakings(w)) == Total(BackendTakings(w)) + Total(LostOf(PgTakings(w), w.h.pgLost))
    ensures Total(CardTakings(w)) == Total(PgTakings(w)) + Total(LostOf(CardTakings(w), w.h.cardLost))
  {
    ReachableBase(w);
    BackendWithinPg(w);
    PgWithinCard(w);
    Split(PgTakings(w), BackendTakings(w), w.h.pgLost);
    Split(CardTakings(w), PgTakings(w), w.h.cardLost);
  }

  lemma BackendWithinPg(w: World)
    requires Base(w, {})
    ensures var whole, part := PgTakings(w), BackendTakings(w);
            && (forall k | k in part :: k in whole && k !in w.h.pgLost && part[k] == whole[k])
            && (forall k | k in whole :: k in part || k in w.h.pgLost)
  {
    var whole, part := PgTakings(w), BackendTakings(w);
    forall k | k in part ensures k in whole && k !in w.h.pgLost && part[k] == whole[k] {
      assert Succeeded(w.b.txs, k) && PgPaid(w.g.txs, k);
    }
    forall k | k in whole ensures k in part || k in w.h.pgLost {
      assert PgPaid(w.g.txs, k) && k in w.b.txs;
    }
  }

  lemma PgWithinCard(w: World)
    requires Base(w, {})
    ensures var whole, part := CardTakings(w), PgTakings(w);
            && (forall k | k in part :: k in whole && k !in w.h.cardLost && part[k] == whole[k])
            && (forall k | k in whole :: k in part || k in w.h.cardLost)
  {
    var whole, part := CardTakings(w), PgTakings(w);
    forall k | k in part ensures k in whole && k !in w.h.cardLost && part[k] == whole[k] {
      assert PgPaid(w.g.txs, k) && CardPaid(w.c.txs, k);
    }
    forall k | k in whole ensures k in part || k in w.h.cardLost {
      assert CardPaid(w.c.txs, k);
    }
  }

  /** Nobody downstream ever records less than the caller, and without lost answers the three totals are equal. */
  lemma TakingsOrdered(w: World)
    requires Reachable(w)
    ensures Total(BackendTakings(w)) <= Total(PgTakings(w)) <= Total(CardTakings(w))
    ensures w.h.pgLost == {} ==> Total(BackendTakings(w)) == Total(PgTakings(w))
    ensures w.h.cardLost == {} ==> Total(PgTakings(w)) == Total(CardTakings(w))
  {
    ReachableBase(w);
    TakingsBalance(w);
    var gLost, cLost := LostOf(PgTakings(w), w.h.pgLost), LostOf(CardTakings(w), w.h.cardLost);
    TotalNonNegative(gLost);
    TotalNonNegative(cLost);
    assert w.h.pgLost == {} ==> gLost == map[];
    assert w.h.cardLost == {} ==> cLost == map[];
  }
}
