/** Payment notices, however often and in whatever order they reach the PMS. */
module Notices {
  import opened Ledgers
  import opened ParkingSystem
  import opened CarPayIn
  import opened Protocol
  import opened Invariants
  import opened Safety
  import opened Theorems

  /** A notice arriving at a time. */
  datatype Arrival = Arrival(notice: Notice, at: Time)

  function Delivered(p: Pms, arrivals: seq<Arrival>): Pms
    decreases |arrivals|
  {
    if arrivals == [] then p
    else
      var last := arrivals[|arrivals| - 1];
      Recording(Delivered(p, arrivals[..|arrivals| - 1]), last.notice, last.at).0
  }

  ghost function NoticesOf(arrivals: seq<Arrival>): set<Notice> {
    set a | a in arrivals :: a.notice
  }

  /** The notices the PMS does not hold yet. */
  ghost function Unheard(p: Pms, notices: set<Notice>): set<Notice> {
    set n | n in notices && n.key !in p.requests
  }

  /** The notices are of known sessions, one per key. */
  ghost predicate Deliverable(p: Pms, notices: set<Notice>) {
    && (forall n | n in notices :: n.pmsId in p.sessions)
    && (forall m, n | m in notices && n in notices && m.key == n.key :: m == n)
  }

  /** No cache entry expires while they arrive. */
  ghost predicate CacheLasts(p: Pms, arrivals: seq<Arrival>) {
    forall i, s | 0 <= i < |arrivals| && s in p.cache :: arrivals[i].at < p.cache[s].expiresAt
  }

  ghost predicate RequestsSettled(p: Pms, news: set<Notice>, p': Pms) {
    && (forall k :: k in p'.requests <==> k in p.requests || exists n :: n in news && n.key == k)
    && (forall k | k in p.requests :: p'.requests[k] == p.requests[k])
    && (forall n | n in news :: p'.requests[n.key] == n)
  }

  ghost predicate SessionsSettled(p: Pms, news: set<Notice>, p': Pms) {
    && p'.sessions.Keys == p.sessions.Keys
    && forall id | id in p.sessions ::
         p'.sessions[id] == if exists n :: n in news && n.pmsId == id then p.sessions[id].(status := Paid) else p.sessions[id]
  }

  ghost predicate CacheSettled(p: Pms, news: set<Notice>, p': Pms) {
    && p'.cache.Keys == p.cache.Keys
    && forall s | s in p.cache ::
         p'.cache[s] == if PaysAt(p, news, s) then p.cache[s].(status := Paid) else p.cache[s]
  }

  ghost predicate PaysAt(p: Pms, news: set<Notice>, s: Slot) {
    exists n :: n in news && n.pmsId in p.sessions && p.sessions[n.pmsId].slot == s
  }

  ghost function NoticesFor(news: set<Notice>, id: PmsId): set<Notice> {
    set n | n in news && n.pmsId == id
  }

  ghost function Times(openings: seq<Opening>, o: Opening): nat {
    multiset(openings)[o]
  }

  /** For each session one more opening per new request for it, and no other opening. */
  ghost predicate BarrierSettled(p: Pms, news: set<Notice>, p': Pms) {
    && p.openings <= p'.openings && |p'.openings| == |p.openings| + |news|
    && (forall id :: Times(p'.openings, OnPayment(id)) == Times(p.openings, OnPayment(id)) + |NoticesFor(news, id)|)
    && (forall id :: Times(p'.openings, OnExit(id)) == Times(p.openings, OnExit(id)))
  }

  /** The PMS once a set of new notices has arrived; their order and repetitions do not appear. */
  ghost predicate SettledBy(p: Pms, news: set<Notice>, p': Pms) {
    && RequestsSettled(p, news, p') && SessionsSettled(p, news, p') && CacheSettled(p, news, p') && BarrierSettled(p, news, p')
    && p'.preRegistrations == p.preRegistrations && p'.rate == p.rate
  }

  lemma NoneArrived(p: Pms)
    ensures SettledBy(p, {}, p)
  {
    forall id ensures NoticesFor({}, id) == {} {
    }
  }

  /** A notice whose key is known changes nothing. */
  lemma RepeatArrived(p: Pms, news: set<Notice>, before: Pms, last: Arrival)
    requires SettledBy(p, news, before) && last.notice.key in before.requests
    ensures SettledBy(p, news, Recording(before, last.notice, last.at).0)
  {
  }

  lemma FirstArrived(p: Pms, news: set<Notice>, before: Pms, last: Arrival)
    requires SettledBy(p, news, before) && last.notice.key !in before.requests && last.notice.pmsId in p.sessions
    requires forall s | s in p.cache :: last.at < p.cache[s].expiresAt
    ensures SettledBy(p, news + {last.notice}, Recording(before, last.notice, last.at).0)
  {
    var n, news', after := last.notice, news + {last.notice}, Recording(before, last.notice, last.at).0;
    assert n !in news && n in news';
    FirstRequests(p, news, before, n, after);
    FirstSessions(p, news, before, n, after);
    FirstCache(p, news, before, last, after);
    FirstBarrier(p, news, before, n, after);
  }

  lemma FirstRequests(p: Pms, news: set<Notice>, before: Pms, n: Notice, after: Pms)
    requires RequestsSettled(p, news, before) && n.key !in before.requests && after.requests == before.requests[n.key := n]
    ensures RequestsSettled(p, news + {n}, after)
  {
    var news' := news + {n};
    assert n in news';
    forall k ensures k in after.requests <==> k in p.requests || exists m :: m in news' && m.key == k {
      if k in before.requests && k !in p.requests {
        var m :| m in news && m.key == k;
        assert m in news';
      }
      if exists m :: m in news' && m.key == k {
        var m :| m in news' && m.key == k;
        assert m == n || m in news;
      }
    }
    forall m | m in news' ensures after.requests[m.key] == m {
      assert m == n || m in news;
    }
  }

  lemma FirstSessions(p: Pms, news: set<Notice>, before: Pms, n: Notice, after: Pms)
    requires SessionsSettled(p, news, before) && n.pmsId in p.sessions
    requires after.sessions == before.sessions[n.pmsId := before.sessions[n.pmsId].(status := Paid)]
    ensures SessionsSettled(p, news + {n}, after)
  {
    var news' := news + {n};
    forall id | id in p.sessions
      ensures (exists m :: m in news' && m.pmsId == id) <==> id == n.pmsId || exists m :: m in news && m.pmsId == id
    {
      if m :| m in news && m.pmsId == id { assert m in news'; }
      assert n in news';
    }
  }

  lemma PaysOneMore(p: Pms, news: set<Notice>, n: Notice, s: Slot)
    requires n.pmsId in p.sessions
    ensures PaysAt(p, news + {n}, s) <==> p.sessions[n.pmsId].slot == s || PaysAt(p, news, s)
  {
    if m :| m in news && m.pmsId in p.sessions && p.sessions[m.pmsId].slot == s {
      assert m in news + {n};
    }
    assert n in news + {n};
  }

  lemma FirstCache(p: Pms, news: set<Notice>, before: Pms, last: Arrival, after: Pms)
    requires CacheSettled(p, news, before) && SessionsSettled(p, news, before) && last.notice.pmsId in p.sessions
    requires forall s | s in p.cache :: last.at < p.cache[s].expiresAt
    requires after.cache == CacheStatusUpdated(before.cache, before.sessions[last.notice.pmsId].slot, Paid, last.at)
    ensures CacheSettled(p, news + {last.notice}, after)
  {
    var n, news' := last.notice, news + {last.notice};
    forall s | s in p.cache ensures PaysAt(p, news', s) <==> p.sessions[n.pmsId].slot == s || PaysAt(p, news, s) {
      PaysOneMore(p, news, n, s);
    }
  }

  lemma OneMoreOpening(openings: seq<Opening>, x: Opening, o: Opening)
    ensures Times(openings + [x], o) == Times(openings, o) + if o == x then 1 else 0
  {
  }

  lemma OneMoreNotice(news: set<Notice>, n: Notice, id: PmsId)
    requires n !in news
    ensures |NoticesFor(news + {n}, id)| == |NoticesFor(news, id)| + if n.pmsId == id then 1 else 0
  {
    assert NoticesFor(news + {n}, id) == NoticesFor(news, id) + if n.pmsId == id then {n} else {};
    assert n !in NoticesFor(news, id);
  }

  lemma FirstBarrier(p: Pms, news: set<Notice>, before: Pms, n: Notice, after: Pms)
    requires BarrierSettled(p, news, before) && n !in news && after.openings == before.openings + [OnPayment(n.pmsId)]
    ensures BarrierSettled(p, news + {n}, after)
  {
    forall id ensures Times(after.openings, OnPayment(id)) == Times(p.openings, OnPayment(id)) + |NoticesFor(news + {n}, id)| {
      OneMoreOpening(before.openings, OnPayment(n.pmsId), OnPayment(id));
      OneMoreNotice(news, n, id);
    }
    forall id ensures Times(after.openings, OnExit(id)) == Times(p.openings, OnExit(id)) {
      OneMoreOpening(before.openings, OnPayment(n.pmsId), OnExit(id));
    }
  }

  lemma LastNotice(p: Pms, arrivals: seq<Arrival>)
    requires arrivals != []
    ensures var init, last := arrivals[..|arrivals| - 1], arrivals[|arrivals| - 1];
            && NoticesOf(arrivals) == NoticesOf(init) + {last.notice}
            && Unheard(p, NoticesOf(arrivals)) == Unheard(p, NoticesOf(init)) + (if last.notice.key in p.requests then {} else {last.notice})
  {
    var init, last := arrivals[..|arrivals| - 1], arrivals[|arrivals| - 1];
    assert arrivals == init + [last];
  }

  /** One more arrival on top of a settled PMS. */
  lemma OneMoreArrived(p: Pms, notices: set<Notice>, before: Pms, last: Arrival)
    requires Deliverable(p, notices + {last.notice}) && SettledBy(p, Unheard(p, notices), before)
    requires forall s | s in p.cache :: last.at < p.cache[s].expiresAt
    ensures SettledBy(p, Unheard(p, notices) + (if last.notice.key in p.requests then {} else {last.notice}), Recording(before, last.notice, last.at).0)
  {
    var news := Unheard(p, notices);
    if last.notice.key in before.requests {
      RepeatArrived(p, news, before, last);
      if last.notice.key !in p.requests {
        var n :| n in news && n.key == last.notice.key;
        assert n == last.notice;
        assert news + {last.notice} == news;
      } else {
        assert news + {} == news;
      }
    } else {
      FirstArrived(p, news, before, last);
    }
  }

  lemma {:induction false} DeliveredSettles(p: Pms, arrivals: seq<Arrival>)
    requires Deliverable(p, NoticesOf(arrivals)) && CacheLasts(p, arrivals)
    ensures SettledBy(p, Unheard(p, NoticesOf(arrivals)), Delivered(p, arrivals))
    decreases |arrivals|
  {
    if arrivals == [] {
      NoneArrived(p);
      assert Unheard(p, NoticesOf(arrivals)) == {};
    } else {
      var init, last := arrivals[..|arrivals| - 1], arrivals[|arrivals| - 1];
      LastNotice(p, arrivals);
      DeliveredSettles(p, init);
      OneMoreArrived(p, NoticesOf(init), Delivered(p, init), last);
    }
  }

  lemma SettledUnique(p: Pms, news: set<Notice>, q: Pms, r: Pms)
    requires SettledBy(p, news, q) && SettledBy(p, news, r)
    ensures q.sessions == r.sessions && q.requests == r.requests && q.cache == r.cache && multiset(q.openings) == multiset(r.openings)
  {
    forall o ensures multiset(q.openings)[o] == multiset(r.openings)[o] {
      match o
      case OnPayment(id) => assert Times(q.openings, OnPayment(id)) == Times(r.openings, OnPayment(id));
      case OnExit(id) => assert Times(q.openings, OnExit(id)) == Times(r.openings, OnExit(id));
    }
    assert q.sessions == r.sessions;
    assert q.cache == r.cache;
    forall k | k in q.requests ensures k in r.requests && q.requests[k] == r.requests[k] {
      if k !in p.requests {
        var n :| n in news && n.key == k;
      }
    }
    assert q.requests == r.requests;
  }

  /** The PMS does not care in which order, how often, or when the notices of the backend's successes arrive: two
      deliveries of the same notices leave the same sessions, requests and cache, having opened the barrier equally often for
      each session, once per new request for it. */
  lemma DeliveryOrderIrrelevant(w: World, arrivals: seq<Arrival>, others: seq<Arrival>)
    requires Reachable(w)
    requires forall n | n in NoticesOf(arrivals) :: NoticeOf(w.b.sessions, w.b.txs, n)
    requires NoticesOf(arrivals) == NoticesOf(others)
    requires CacheLasts(w.p, arrivals) && CacheLasts(w.p, others)
    ensures var p, q := Delivered(w.p, arrivals), Delivered(w.p, others);
            && p.sessions == q.sessions && p.requests == q.requests && p.cache == q.cache && multiset(p.openings) == multiset(q.openings)
            && BarrierSettled(w.p, Unheard(w.p, NoticesOf(arrivals)), p) && BarrierSettled(w.p, Unheard(w.p, NoticesOf(arrivals)), q)
            && (forall n | n in NoticesOf(arrivals) :: n.key in p.requests)
  {
    ReachableBase(w);
    var notices := NoticesOf(arrivals);
    forall n | n in notices ensures n.pmsId in w.p.sessions {
      assert n.key.ref.id in w.b.sessions;
    }
    DeliveredSettles(w.p, arrivals);
    DeliveredSettles(w.p, others);
    SettledUnique(w.p, Unheard(w.p, notices), Delivered(w.p, arrivals), Delivered(w.p, others));
    forall n | n in notices ensures n.key in Delivered(w.p, arrivals).requests {
      assert n.key in w.p.requests || n in Unheard(w.p, notices);
    }
  }

  // ----- the retry worker

  /** One pass of the retry worker over the transaction ids that SCAN returned, with the fate of each call. */
  function RetriedAll(w: World, ids: seq<TxId>, links: seq<Delivery>): World
    requires |links| == |ids|
    decreases |ids|
  {
    if ids == [] then w else RetriedAll(Retried(w, ids[0], links[0]), ids[1..], links[1..])
  }

  /** w' is w with the given retry events gone, each of them because the PMS now holds its request. */
  ghost predicate Cleared(w: World, w': World, ids: set<TxId>) {
    && w'.b == w.b.(retries := w.b.retries - ids)
    && (forall k | k in w.p.requests :: k in w'.p.requests)
    && (forall t | t in w.b.retries && t in ids :: w.b.retries[t].notice.key in w'.p.requests)
  }

  lemma ClearedMore(u: World, v: World, w: World, ids: set<TxId>, more: set<TxId>)
    requires Cleared(u, v, ids) && Cleared(v, w, more)
    ensures Cleared(u, w, ids + more)
  {
    assert u.b.retries - (ids + more) == u.b.retries - ids - more;
    forall t | t in u.b.retries && t in ids + more ensures u.b.retries[t].notice.key in w.p.requests {
      if t !in ids {
        assert t in v.b.retries;
      }
    }
  }

  lemma RetriedOne(w: World, id: TxId)
    requires NoticeTables(w)
    ensures NoticeTables(Retried(w, id, Received)) && Cleared(w, Retried(w, id, Received), {id})
  {
    if id in w.b.retries {
      RecordedTables(w, w.b.retries[id].notice);
    } else {
      assert w.b.retries - {id} == w.b.retries;
    }
  }

  /** A pass during which the PMS answers removes every event it is given and nothing else, and the PMS then holds the
      request of each. SCAN promises to return every key present throughout, perhaps twice. */
  lemma {:induction false} PassClears(w: World, ids: seq<TxId>, links: seq<Delivery>)
    requires NoticeTables(w) && |links| == |ids| && forall i | 0 <= i < |links| :: links[i] == Received
    ensures Cleared(w, RetriedAll(w, ids, links), set t | t in ids)
    decreases |ids|
  {
    if ids == [] {
      assert w.b.retries - (set t | t in ids) == w.b.retries;
    } else {
      var w1 := Retried(w, ids[0], links[0]);
      RetriedOne(w, ids[0]);
      PassClears(w1, ids[1..], links[1..]);
      ClearedMore(w, w1, RetriedAll(w, ids, links), {ids[0]}, set t | t in ids[1..]);
      assert (set t | t in ids) == {ids[0]} + set t | t in ids[1..];
    }
  }

  /** So a pass over all pending events leaves none, and no success is left unknown to the PMS except those whose
      event had already expired. */
  lemma FullPass(w: World, ids: seq<TxId>, links: seq<Delivery>)
    requires Reachable(w) && |links| == |ids| && (forall i | 0 <= i < |links| :: links[i] == Received)
    requires forall t | t in w.b.retries :: t in ids
    ensures var w' := RetriedAll(w, ids, links);
            && w'.b == w.b.(retries := map[])
            && (forall k | Succeeded(w.b.txs, k) ::
                  k in w'.p.requests || (w.b.txs[k].txId in w.h.retryUntil && w.h.retryUntil[w.b.txs[k].txId] <= w.now))
  {
    ReachableBase(w);
    PassEmpties(w, ids, links);
    forall k | Succeeded(w.b.txs, k)
      ensures k in RetriedAll(w, ids, links).p.requests || (w.b.txs[k].txId in w.h.retryUntil && w.h.retryUntil[w.b.txs[k].txId] <= w.now)
    {
      NoPaidSessionForgotten(w, k);
    }
  }

  lemma PassEmpties(w: World, ids: seq<TxId>, links: seq<Delivery>)
    requires NoticeTables(w) && |links| == |ids| && (forall i | 0 <= i < |links| :: links[i] == Received)
    requires forall t | t in w.b.retries :: t in ids
    ensures var w' := RetriedAll(w, ids, links);
            && w'.b == w.b.(retries := map[]) && (forall k | k in w.p.requests :: k in w'.p.requests)
            && (forall t | t in w.b.retries :: w.b.retries[t].notice.key in w'.p.requests)
  {
    PassClears(w, ids, links);
    assert w.b.retries - (set t | t in ids) == map[];
  }
}
