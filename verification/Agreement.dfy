/** The fine-grained payment handler, run alone and without faults, is the handler-atomic one. */
module Agreement {
  import opened Ledgers
  import opened PaymentGateway
  import opened CarPayIn
  import opened Protocol
  import opened BackendTables
  import opened Safety
  import opened Answers
  import I = Interleaving

  /** The two models' tables say the same. */
  ghost predicate Matches(s: I.System, b: Backend) {
    && s.rows.Keys == b.txs.Keys && (forall k | k in s.rows :: s.rows[k].status == b.txs[k].status)
    && s.sessions.Keys == b.sessions.Keys
    && (forall i | i in s.sessions :: s.sessions[i].car == b.sessions[i].car && (s.sessions[i].active <==> b.sessions[i].status == Ongoing))
    && s.quotes.Keys == b.quotes.Keys && (forall r | r in s.quotes :: s.quotes[r] == (b.quotes[r].amount, b.quotes[r].currency))
  }

  ghost function AnswerOf(result: PgResult): I.PgAnswer {
    match result
    case ClientRaised => I.NoAnswer
    case Declined => I.Declined
    case Approved(_, _) => I.Approved
  }

  /** What the request's end means to the caller. */
  ghost predicate SameAnswer(result: I.Result, r: PayResult) {
    match result
    case Rejected => r.Rejected?
    case Answered(status) => r.Replied? && r.status == status
    case Paid => r.Replied? && r.status == Success
    case Undone(_) => r.Replied? && r.status == Failed
    case Escaped(_) => false
  }

  ghost function Alone(s: I.System, id: nat, answer: I.PgAnswer, moves: nat): I.System
    requires id in s.requests
    decreases moves
  {
    if moves == 0 then s else Alone(I.Move(s, id, answer, false), id, answer, moves - 1)
  }

  lemma {:induction false} DoneStays(s: I.System, id: nat, answer: I.PgAnswer, moves: nat)
    requires id in s.requests && s.requests[id].pc.Done?
    ensures Alone(s, id, answer, moves) == s
    decreases moves
  {
    if moves > 0 {
      assert s.requests[id := s.requests[id]] == s.requests;
      assert I.Move(s, id, answer, false) == s;
      DoneStays(s, id, answer, moves - 1);
    }
  }

  lemma {:induction false} AloneSplit(s: I.System, id: nat, answer: I.PgAnswer, m: nat, n: nat)
    requires id in s.requests
    ensures id in Alone(s, id, answer, m).requests && Alone(s, id, answer, m + n) == Alone(Alone(s, id, answer, m), id, answer, n)
    decreases m
  {
    if m > 0 {
      AloneSplit(I.Move(s, id, answer, false), id, answer, m - 1, n);
    }
  }

  /** s with the request at pc and these tables. */
  ghost function At(s: I.System, id: nat, key: Key, pc: I.Pc): I.System {
    s.(requests := s.requests[id := I.Request(key, pc)])
  }

  lemma MoveIs(s: I.System, id: nat, key: Key, pc: I.Pc, answer: I.PgAnswer)
    ensures var e := I.Action(s, id, key, pc, answer, false); var s' := I.Move(At(s, id, key, pc), id, answer, false);
            && e == I.Action(At(s, id, key, pc), id, key, pc, answer, false)
            && (e.row.None? && e.call.None? && !e.completes ==> s' == At(s, id, key, e.pc))
  {
    assert s.requests[id := I.Request(key, pc)][id := I.Request(key, I.Action(s, id, key, pc, answer, false).pc)]
        == s.requests[id := I.Request(key, I.Action(s, id, key, pc, answer, false).pc)];
  }

  ghost predicate Passes(s: I.System, key: Key) {
    && key.ref in s.quotes && s.quotes[key.ref] == (key.amount, key.currency)
    && key.ref.id in s.sessions && s.sessions[key.ref.id].car == key.car
  }

  lemma ThreeMoves(s: I.System, id: nat, key: Key, answer: I.PgAnswer, a: I.Pc, b: I.Pc, c: I.Pc, d: I.Pc)
    requires I.Move(At(s, id, key, a), id, answer, false) == At(s, id, key, b) && I.Move(At(s, id, key, b), id, answer, false) == At(s, id, key, c)
    requires I.Move(At(s, id, key, c), id, answer, false) == At(s, id, key, d)
    ensures Alone(At(s, id, key, a), id, answer, 3) == At(s, id, key, d)
  {
    assert Alone(At(s, id, key, a), id, answer, 3) == Alone(At(s, id, key, b), id, answer, 2) == Alone(At(s, id, key, c), id, answer, 1);
  }

  /** Where the look for a row leads. */
  ghost function Found(s: I.System, key: Key): I.Pc {
    if key in s.rows then (if s.rows[key].status == Success then I.NotifyAgain else I.Done(I.Answered(s.rows[key].status)))
    else if key.amount < 0 then I.Done(I.Rejected) else I.Insert
  }

  /** The three reads, and what they decide. */
  lemma ReadsAlone(s: I.System, id: nat, key: Key, answer: I.PgAnswer)
    ensures Alone(At(s, id, key, I.ReadQuote), id, answer, 3) == At(s, id, key, if Passes(s, key) then Found(s, key) else I.Done(I.Rejected))
  {
    var quoted := key.ref in s.quotes && s.quotes[key.ref] == (key.amount, key.currency);
    MoveIs(s, id, key, I.ReadQuote, answer);
    MoveIs(s, id, key, I.Done(I.Rejected), answer);
    if !quoted {
      ThreeMoves(s, id, key, answer, I.ReadQuote, I.Done(I.Rejected), I.Done(I.Rejected), I.Done(I.Rejected));
    } else {
      MoveIs(s, id, key, I.ReadSession, answer);
      if !Passes(s, key) {
        ThreeMoves(s, id, key, answer, I.ReadQuote, I.ReadSession, I.Done(I.Rejected), I.Done(I.Rejected));
      } else {
        MoveIs(s, id, key, I.LookUp, answer);
        ThreeMoves(s, id, key, answer, I.ReadQuote, I.ReadSession, I.LookUp, Found(s, key));
      }
    }
  }

  /** A move in a state given by its tables. */
  lemma StandingMoves(s: I.System, id: nat, key: Key, pc: I.Pc, rows: map<Key, I.Row>, calls: seq<I.Call>, sessions: map<SessionId, I.ParkingSession>,
                      answer: I.PgAnswer)
    ensures var from := I.Standing(s, id, key, pc, rows, calls, sessions);
            var e := I.Action(from, id, key, pc, answer, false);
            I.Move(from, id, answer, false)
            == I.Standing(s, id, key, e.pc, if e.row.Some? then rows[key := e.row.value] else rows,
                          if e.call.Some? then calls + [I.Call(id, key, e.call.value)] else calls,
                          if e.completes && key.ref.id in sessions then sessions[key.ref.id := sessions[key.ref.id].(active := false)] else sessions)
  {
    var from := I.Standing(s, id, key, pc, rows, calls, sessions);
    var e := I.Action(from, id, key, pc, answer, false);
    assert s.requests[id := I.Request(key, pc)][id := I.Request(key, e.pc)] == s.requests[id := I.Request(key, e.pc)];
  }

  /** From an approved commit to the end. */
  lemma CommitsAlone(s: I.System, id: nat, key: Key, rows: map<Key, I.Row>, calls: seq<I.Call>, answer: I.PgAnswer)
    requires key in rows && rows[key] == I.Row(Pending, id) && key.ref.id in s.sessions
    ensures Alone(I.Standing(s, id, key, I.Commit(I.Approved), rows, calls, s.sessions), id, answer, 3)
            == I.Standing(s, id, key, I.Done(I.Paid), rows[key := I.Row(Success, id)], calls, s.sessions[key.ref.id := s.sessions[key.ref.id].(active := false)])
  {
    var success, closed := rows[key := I.Row(Success, id)], s.sessions[key.ref.id := s.sessions[key.ref.id].(active := false)];
    StandingMoves(s, id, key, I.Commit(I.Approved), rows, calls, s.sessions, answer);
    StandingMoves(s, id, key, I.CompleteSession, success, calls, s.sessions, answer);
    StandingMoves(s, id, key, I.Notify, success, calls, closed, answer);
    var s0 := I.Standing(s, id, key, I.Commit(I.Approved), rows, calls, s.sessions);
    var s1 := I.Standing(s, id, key, I.CompleteSession, success, calls, s.sessions);
    var s2 := I.Standing(s, id, key, I.Notify, success, calls, closed);
    assert Alone(s0, id, answer, 3) == Alone(s1, id, answer, 2) == Alone(s2, id, answer, 1);
  }

  ghost function Answered(s: I.System, id: nat, key: Key, answer: I.PgAnswer, rows: map<Key, I.Row>): I.System {
    I.Standing(s, id, key, if answer == I.NoAnswer then I.HandleException(I.Uncommitted) else I.Commit(answer), rows, s.calls + [I.Call(id, key, answer)], s.sessions)
  }

  /** The insert of a free payment, and of a paid one up to what the PG's answer decides. */
  lemma InsertsAlone(s: I.System, id: nat, key: Key, answer: I.PgAnswer)
    requires key !in s.rows && key.amount >= 0
    ensures var pending := s.rows[key := I.Row(Pending, id)];
            && (key.amount == 0 ==> Alone(At(s, id, key, I.Insert), id, answer, 1) == I.Standing(s, id, key, I.Commit(I.Approved), pending, s.calls, s.sessions))
            && (key.amount > 0 ==> Alone(At(s, id, key, I.Insert), id, answer, 2) == Answered(s, id, key, answer, pending))
  {
    var pending := s.rows[key := I.Row(Pending, id)];
    assert At(s, id, key, I.Insert) == I.Standing(s, id, key, I.Insert, s.rows, s.calls, s.sessions);
    StandingMoves(s, id, key, I.Insert, s.rows, s.calls, s.sessions, answer);
    StandingMoves(s, id, key, I.CallPg, pending, s.calls, s.sessions, answer);
    var s0 := At(s, id, key, I.Insert);
    var s1 := I.Move(s0, id, answer, false);
    assert Alone(s0, id, answer, 2) == Alone(s1, id, answer, 1);
    assert Alone(s0, id, answer, 1) == Alone(s1, id, answer, 0) == s1;
  }

  /** A declined or unanswered charge marks the row failed. */
  lemma FailsAlone(s: I.System, id: nat, key: Key, rows: map<Key, I.Row>, calls: seq<I.Call>, answer: I.PgAnswer)
    requires key in rows && rows[key] == I.Row(Pending, id) && answer != I.Approved
    ensures var pc := if answer == I.NoAnswer then I.HandleException(I.Uncommitted) else I.Commit(answer);
            Alone(I.Standing(s, id, key, pc, rows, calls, s.sessions), id, answer, 1)
            == I.Standing(s, id, key, I.Done(if answer == I.NoAnswer then I.Undone(I.Uncommitted) else I.Answered(Failed)),
                          rows[key := I.Row(Failed, id)], calls, s.sessions)
  {
    var pc := if answer == I.NoAnswer then I.HandleException(I.Uncommitted) else I.Commit(answer);
    StandingMoves(s, id, key, pc, rows, calls, s.sessions, answer);
  }

  /** How a request for a free key ends. */
  ghost function Ended(s: I.System, id: nat, key: Key, answer: I.PgAnswer): I.System
    requires key.ref.id in s.sessions
  {
    var paid := key.amount == 0 || answer == I.Approved;
    I.Standing(s, id, key, I.Done(if paid then I.Paid else if answer == I.NoAnswer then I.Undone(I.Uncommitted) else I.Answered(Failed)),
               s.rows[key := I.Row(if paid then Success else Failed, id)],
               if key.amount == 0 then s.calls else s.calls + [I.Call(id, key, answer)],
               if paid then s.sessions[key.ref.id := s.sessions[key.ref.id].(active := false)] else s.sessions)
  }

  /** A whole request for a free key. */
  lemma NewAlone(s: I.System, id: nat, key: Key, answer: I.PgAnswer)
    requires Passes(s, key) && key !in s.rows && key.amount >= 0
    ensures Alone(At(s, id, key, I.ReadQuote), id, answer, 8) == Ended(s, id, key, answer)
  {
    ReadsAlone(s, id, key, answer);
    AloneSplit(At(s, id, key, I.ReadQuote), id, answer, 3, 5);
    InsertEnds(s, id, key, answer);
  }

  lemma InsertEnds(s: I.System, id: nat, key: Key, answer: I.PgAnswer)
    requires Passes(s, key) && key !in s.rows && key.amount >= 0
    ensures Alone(At(s, id, key, I.Insert), id, answer, 5) == Ended(s, id, key, answer)
  {
    var pending, calls := s.rows[key := I.Row(Pending, id)], if key.amount == 0 then s.calls else s.calls + [I.Call(id, key, answer)];
    NewFromInsert(s, id, key, answer, pending, calls);
    LastRow(s.rows, key, I.Row(Pending, id), I.Row(if key.amount == 0 || answer == I.Approved then Success else Failed, id));
  }

  lemma LastRow(rows: map<Key, I.Row>, key: Key, a: I.Row, b: I.Row)
    ensures rows[key := a][key := b] == rows[key := b]
  {
  }

  lemma NewFromInsert(s: I.System, id: nat, key: Key, answer: I.PgAnswer, pending: map<Key, I.Row>, calls: seq<I.Call>)
    requires Passes(s, key) && key !in s.rows && key.amount >= 0 && pending == s.rows[key := I.Row(Pending, id)]
    requires calls == if key.amount == 0 then s.calls else s.calls + [I.Call(id, key, answer)]
    ensures var paid := key.amount == 0 || answer == I.Approved;
            Alone(At(s, id, key, I.Insert), id, answer, 5)
            == I.Standing(s, id, key, I.Done(if paid then I.Paid else if answer == I.NoAnswer then I.Undone(I.Uncommitted) else I.Answered(Failed)),
                          pending[key := I.Row(if paid then Success else Failed, id)], calls,
                          if paid then s.sessions[key.ref.id := s.sessions[key.ref.id].(active := false)] else s.sessions)
  {
    InsertsAlone(s, id, key, answer);
    var s0 := At(s, id, key, I.Insert);
    if key.amount == 0 {
      AloneSplit(s0, id, answer, 1, 4);
      PaidFromCommit(s, id, key, pending, calls, answer, 4);
    } else if answer == I.Approved {
      AloneSplit(s0, id, answer, 2, 3);
      PaidFromCommit(s, id, key, pending, calls, answer, 3);
    } else {
      AloneSplit(s0, id, answer, 2, 3);
      FailedFromAnswer(s, id, key, pending, calls, answer);
    }
  }

  lemma PaidFromCommit(s: I.System, id: nat, key: Key, rows: map<Key, I.Row>, calls: seq<I.Call>, answer: I.PgAnswer, moves: nat)
    requires key in rows && rows[key] == I.Row(Pending, id) && key.ref.id in s.sessions && moves >= 3
    ensures Alone(I.Standing(s, id, key, I.Commit(I.Approved), rows, calls, s.sessions), id, answer, moves)
            == I.Standing(s, id, key, I.Done(I.Paid), rows[key := I.Row(Success, id)], calls, s.sessions[key.ref.id := s.sessions[key.ref.id].(active := false)])
  {
    CommitsAlone(s, id, key, rows, calls, answer);
    AloneSplit(I.Standing(s, id, key, I.Commit(I.Approved), rows, calls, s.sessions), id, answer, 3, moves - 3);
    DoneStays(I.Standing(s, id, key, I.Done(I.Paid), rows[key := I.Row(Success, id)], calls, s.sessions[key.ref.id := s.sessions[key.ref.id].(active := false)]),
              id, answer, moves - 3);
  }

  lemma FailedFromAnswer(s: I.System, id: nat, key: Key, rows: map<Key, I.Row>, calls: seq<I.Call>, answer: I.PgAnswer)
    requires key in rows && rows[key] == I.Row(Pending, id) && answer != I.Approved
    ensures var pc := if answer == I.NoAnswer then I.HandleException(I.Uncommitted) else I.Commit(answer);
            Alone(I.Standing(s, id, key, pc, rows, calls, s.sessions), id, answer, 3)
            == I.Standing(s, id, key, I.Done(if answer == I.NoAnswer then I.Undone(I.Uncommitted) else I.Answered(Failed)),
                          rows[key := I.Row(Failed, id)], calls, s.sessions)
  {
    var pc := if answer == I.NoAnswer then I.HandleException(I.Uncommitted) else I.Commit(answer);
    FailsAlone(s, id, key, rows, calls, answer);
    AloneSplit(I.Standing(s, id, key, pc, rows, calls, s.sessions), id, answer, 1, 2);
    DoneStays(I.Standing(s, id, key, I.Done(if answer == I.NoAnswer then I.Undone(I.Uncommitted) else I.Answered(Failed)),
                         rows[key := I.Row(Failed, id)], calls, s.sessions), id, answer, 2);
  }

  /** A request for a known key, or one that is refused. */
  lemma OldAlone(s: I.System, id: nat, key: Key, answer: I.PgAnswer)
    requires !Passes(s, key) || key in s.rows || key.amount < 0
    ensures Alone(At(s, id, key, I.ReadQuote), id, answer, 8)
            == At(s, id, key, I.Done(if Passes(s, key) && key in s.rows then I.Answered(s.rows[key].status) else I.Rejected))
  {
    ReadsAlone(s, id, key, answer);
    AloneSplit(At(s, id, key, I.ReadQuote), id, answer, 3, 5);
    if Passes(s, key) && key in s.rows && s.rows[key].status == Success {
      RepeatsAlone(s, id, key, answer);
    } else {
      DoneStays(At(s, id, key, if Passes(s, key) then Found(s, key) else I.Done(I.Rejected)), id, answer, 5);
    }
  }

  lemma RepeatsAlone(s: I.System, id: nat, key: Key, answer: I.PgAnswer)
    ensures Alone(At(s, id, key, I.NotifyAgain), id, answer, 5) == At(s, id, key, I.Done(I.Answered(Success)))
  {
    MoveIs(s, id, key, I.NotifyAgain, answer);
    DoneStays(At(s, id, key, I.Done(I.Answered(Success))), id, answer, 4);
  }

  // ----- the two models side by side

  lemma MatchedPasses(s: I.System, b: Backend, key: Key)
    requires Matches(s, b)
    ensures Passes(s, key) <==> QuotedAt(b.quotes, key) && key.ref.id in b.sessions && b.sessions[key.ref.id].car == key.car
    ensures key in s.rows <==> key in b.txs
  {
    assert key.ref in s.quotes <==> key.ref in b.quotes;
    assert key.ref.id in s.sessions <==> key.ref.id in b.sessions;
  }

  /** Tables that match still do after a new row and, for a success, the close of its session. */
  lemma MatchedAfter(s: I.System, b: Backend, id: nat, key: Key, status: TxStatus, s': I.System, b': Backend)
    requires Matches(s, b) && key in b'.txs && b'.txs == b.txs[key := b'.txs[key]] && b'.txs[key].status == status && b'.quotes == b.quotes
    requires key.ref.id in b.sessions && s'.rows == s.rows[key := I.Row(status, id)] && s'.quotes == s.quotes
    requires if status == Success then s'.sessions == s.sessions[key.ref.id := s.sessions[key.ref.id].(active := false)] else s'.sessions == s.sessions
    requires b'.sessions.Keys == b.sessions.Keys && forall i | i in b.sessions && i != key.ref.id :: b'.sessions[i] == b.sessions[i]
    requires b'.sessions[key.ref.id].car == b.sessions[key.ref.id].car
    requires b'.sessions[key.ref.id].status == if status == Success then Completed else b.sessions[key.ref.id].status
    ensures Matches(s', b')
  {
  }

  /** Run alone and without faults, with the PG's answer as the wire makes it, the fine-grained request leaves the tables of the
      handler-atomic payment and gives its answer. A payment that has a card to charge, or needs none. */
  lemma AloneIsPayment(s: I.System, w: World, id: nat, key: Key, draw: Draw, links: Links)
    requires Matches(s, w.b) && (key in w.b.txs || key.amount <= 0 || HasActiveKey(w.b, key.car))
    requires FreshOutbox(w, key, draw)
    ensures var result := if HasActiveKey(w.b, key.car) then PgCalled(w, key, w.b.billingKeys[key.car].billingKey, draw, links).1 else ClientRaised;
            var s' := Alone(At(s, id, key, I.ReadQuote), id, AnswerOf(result), 8);
            var (w', r) := Payment(w, key.car, key.ref, key.amount, key.currency, draw, links);
            && Matches(s', w'.b) && id in s'.requests && s'.requests[id].pc.Done? && SameAnswer(s'.requests[id].pc.result, r)
  {
    var result := if HasActiveKey(w.b, key.car) then PgCalled(w, key, w.b.billingKeys[key.car].billingKey, draw, links).1 else ClientRaised;
    MatchedPasses(s, w.b, key);
    if !Passes(s, key) || key in s.rows || key.amount < 0 {
      AloneOld(s, w, id, key, draw, links, AnswerOf(result));
    } else {
      AloneNew(s, w, id, key, draw, links, result);
    }
  }

  lemma AloneOld(s: I.System, w: World, id: nat, key: Key, draw: Draw, links: Links, answer: I.PgAnswer)
    requires Matches(s, w.b) && (!Passes(s, key) || key in s.rows || key.amount < 0)
    ensures var s' := Alone(At(s, id, key, I.ReadQuote), id, answer, 8);
            var (w', r) := Payment(w, key.car, key.ref, key.amount, key.currency, draw, links);
            && Matches(s', w'.b) && id in s'.requests && s'.requests[id].pc.Done? && SameAnswer(s'.requests[id].pc.result, r)
  {
    MatchedPasses(s, w.b, key);
    RepliedExactly(w, key, draw, links);
    OldAlone(s, id, key, answer);
    OldPayment(w, key, draw, links);
  }

  lemma AloneNew(s: I.System, w: World, id: nat, key: Key, draw: Draw, links: Links, result: PgResult)
    requires Matches(s, w.b) && Passes(s, key) && key !in s.rows && key.amount >= 0 && (key.amount > 0 ==> HasActiveKey(w.b, key.car))
    requires FreshOutbox(w, key, draw)
    requires key.amount > 0 ==> result == PgCalled(w, key, w.b.billingKeys[key.car].billingKey, draw, links).1
    ensures var s' := Alone(At(s, id, key, I.ReadQuote), id, AnswerOf(result), 8);
            var (w', r) := Payment(w, key.car, key.ref, key.amount, key.currency, draw, links);
            && Matches(s', w'.b) && id in s'.requests && s'.requests[id].pc.Done? && SameAnswer(s'.requests[id].pc.result, r)
  {
    MatchedPasses(s, w.b, key);
    NewAlone(s, id, key, AnswerOf(result));
    NewPayment(w, key, draw, links);
    EndedMatches(s, w, id, key, draw, links, result);
  }

  lemma EndedMatches(s: I.System, w: World, id: nat, key: Key, draw: Draw, links: Links, result: PgResult)
    requires Matches(s, w.b) && key.ref.id in s.sessions && key.ref.id in w.b.sessions
    requires var (w', r) := Payment(w, key.car, key.ref, key.amount, key.currency, draw, links);
             var approved := key.amount == 0 || result.Approved?;
             && r.Replied? && r.status == (if approved then Success else Failed)
             && key in w'.b.txs && w'.b.txs == w.b.txs[key := w'.b.txs[key]] && w'.b.txs[key].status == r.status && w'.b.quotes == w.b.quotes
             && (if approved then SessionClosed(w.b.sessions, w'.b.sessions, key.ref.id, w.now) else w'.b.sessions == w.b.sessions)
    ensures var s' := Ended(s, id, key, AnswerOf(result));
            var (w', r) := Payment(w, key.car, key.ref, key.amount, key.currency, draw, links);
            && Matches(s', w'.b) && id in s'.requests && s'.requests[id].pc.Done? && SameAnswer(s'.requests[id].pc.result, r)
  {
    var w' := Payment(w, key.car, key.ref, key.amount, key.currency, draw, links).0;
    MatchedAfter(s, w.b, id, key, w'.b.txs[key].status, Ended(s, id, key, AnswerOf(result)), w'.b);
  }

  ghost predicate FreshOutbox(w: World, key: Key, draw: Draw) {
    Uuid4(draw.tx) !in w.b.outbox && Uuid5(key) !in w.b.outbox
  }

  lemma OldPayment(w: World, key: Key, draw: Draw, links: Links)
    requires !(QuotedAt(w.b.quotes, key) && OfThisCar(w, key)) || key in w.b.txs || key.amount < 0
    ensures var (w', r) := Payment(w, key.car, key.ref, key.amount, key.currency, draw, links);
            && w'.b.txs == w.b.txs && w'.b.sessions == w.b.sessions && w'.b.quotes == w.b.quotes
            && (r.Replied? ==> key in w.b.txs && r.status == w.b.txs[key].status)
  {
    if key in w.b.txs && key.ref.id in w.b.sessions {
      NotifiedFrame(w, NoticeFor(w.b, key), links.pms);
    }
  }

  lemma NewPayment(w: World, key: Key, draw: Draw, links: Links)
    requires QuotedAt(w.b.quotes, key) && OfThisCar(w, key) && key !in w.b.txs && key.amount >= 0 && (key.amount > 0 ==> HasActiveKey(w.b, key.car))
    requires FreshOutbox(w, key, draw)
    ensures var (w', r) := Payment(w, key.car, key.ref, key.amount, key.currency, draw, links);
            var approved := key.amount == 0 || PgCalled(w, key, w.b.billingKeys[key.car].billingKey, draw, links).1.Approved?;
            && r.Replied? && r.status == (if approved then Success else Failed)
            && key in w'.b.txs && w'.b.txs == w.b.txs[key := w'.b.txs[key]] && w'.b.txs[key].status == r.status && w'.b.quotes == w.b.quotes
            && (if approved then SessionClosed(w.b.sessions, w'.b.sessions, key.ref.id, w.now) else w'.b.sessions == w.b.sessions)
  {
    if key.amount == 0 {
      FreeIs(w, key, draw, links);
      var w1 := w.(b := Inserted(w.b, key, Uuid5(key), None));
      FinishedClosed(w1, key, None, FREE);
      var w2 := Finished(w1, key, None, FREE);
      NotifiedFrame(w2, NoticeFor(w2.b, key), links.pms);
      assert w2.b.txs == w.b.txs[key := w2.b.txs[key]];
    } else {
      var billingKey := w.b.billingKeys[key.car].billingKey;
      CardIs(w, key, draw, links);
      CardSettledRow(w, key, billingKey, draw, links);
      CardSettledRest(w, key, billingKey, draw, links);
      var w1 := CardSettled(w, key, billingKey, draw, links);
      NotifiedFrame(w1, NoticeFor(w1.b, key), links.pms);
    }
  }

  // ----- fee requests

  ghost function FeeAlone(s: I.System, id: nat, owed: int, moves: nat): I.System
    decreases moves
  {
    if moves == 0 || id !in s.fees then s else FeeAlone(I.FeeMove(s, id, owed), id, owed, moves - 1)
  }

  ghost predicate MayQuote(s: I.System, car: CarId, ref: SessionRef) {
    ref !in s.quotes && ref.id in s.sessions && s.sessions[ref.id].active && s.sessions[ref.id].car == car
  }

  lemma FeeAloneEnds(s: I.System, id: nat, car: CarId, ref: SessionRef, owed: int)
    ensures FeeAlone(s.(fees := s.fees[id := I.FeeReadQuote(car, ref)]), id, owed, 3)
            == s.(fees := s.fees[id := I.FeeDone], quotes := if MayQuote(s, car, ref) then s.quotes[ref := (owed, KRW)] else s.quotes)
  {
    var s0 := s.(fees := s.fees[id := I.FeeReadQuote(car, ref)]);
    var s1 := I.FeeMove(s0, id, owed);
    var s2 := I.FeeMove(s1, id, owed);
    var s3 := I.FeeMove(s2, id, owed);
    assert s1.fees == s.fees[id := s1.fees[id]] && s2.fees == s.fees[id := s2.fees[id]] && s3.fees == s.fees[id := I.FeeDone];
    assert FeeAlone(s0, id, owed, 3) == FeeAlone(s1, id, owed, 2) == FeeAlone(s2, id, owed, 1) == FeeAlone(s3, id, owed, 0) == s3;
  }

  lemma FeeQuotes(w: World, car: CarId, ref: SessionRef, atSlot: Option<PmsId>, link: Delivery)
    requires !FeeAsked(w, car, ref, atSlot, link).1.QPmsFailed?
    ensures var (w', r) := FeeAsked(w, car, ref, atSlot, link);
            && w'.b.txs == w.b.txs && w'.b.sessions == w.b.sessions
            && (AsksPms(w.b, car, ref) ==> r.Quoted? && r.currency == KRW && ref in w'.b.quotes && w'.b.quotes == w.b.quotes[ref := w'.b.quotes[ref]]
                                           && w'.b.quotes[ref].amount == r.amount && w'.b.quotes[ref].currency == KRW)
            && (!AsksPms(w.b, car, ref) ==> w'.b.quotes == w.b.quotes)
  {
  }

  /** A fee request run alone, with the fee the PMS owes, leaves the quotes of the handler-atomic one. */
  lemma FeeAloneIsAsked(s: I.System, w: World, id: nat, car: CarId, ref: SessionRef, atSlot: Option<PmsId>, link: Delivery)
    requires Matches(s, w.b) && !FeeAsked(w, car, ref, atSlot, link).1.QPmsFailed?
    ensures var (w', r) := FeeAsked(w, car, ref, atSlot, link);
            var s' := FeeAlone(s.(fees := s.fees[id := I.FeeReadQuote(car, ref)]), id, if r.Quoted? then r.amount else 0, 3);
            Matches(s', w'.b) && id in s'.fees && s'.fees[id] == I.FeeDone
  {
    var (w', r) := FeeAsked(w, car, ref, atSlot, link);
    MatchedQuotes(s, w.b, car, ref);
    FeeAloneEnds(s, id, car, ref, if r.Quoted? then r.amount else 0);
    FeeQuotes(w, car, ref, atSlot, link);
    QuotesMatch(s, w.b, w'.b, s.fees[id := I.FeeDone], car, ref, if r.Quoted? then r.amount else 0);
  }

  lemma MatchedQuotes(s: I.System, b: Backend, car: CarId, ref: SessionRef)
    requires Matches(s, b)
    ensures MayQuote(s, car, ref) <==> AsksPms(b, car, ref)
  {
    assert (ref in s.quotes <==> ref in b.quotes) && (ref.id in s.sessions <==> ref.id in b.sessions);
  }

  lemma QuotesMatch(s: I.System, b: Backend, b': Backend, fees: map<nat, I.FeeRequest>, car: CarId, ref: SessionRef, amount: int)
    requires Matches(s, b) && b'.txs == b.txs && b'.sessions == b.sessions && (MayQuote(s, car, ref) <==> AsksPms(b, car, ref))
    requires AsksPms(b, car, ref) ==> ref in b'.quotes && b'.quotes == b.quotes[ref := b'.quotes[ref]] && b'.quotes[ref].amount == amount && b'.quotes[ref].currency == KRW
    requires !AsksPms(b, car, ref) ==> b'.quotes == b.quotes
    ensures Matches(s.(fees := fees, quotes := if MayQuote(s, car, ref) then s.quotes[ref := (amount, KRW)] else s.quotes), b')
  {
  }
}
