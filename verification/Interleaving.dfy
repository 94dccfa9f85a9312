/** Any number of payment and fee requests interleaved at every read, commit and remote call of the backend. A request may die at any
    point (no further step of it is taken) and its stores may raise.

    The PG's answer is left open, so nothing here relies on the PG's own duplicate check. */
module Interleaving {
  import opened Ledgers

  datatype PgAnswer = Approved | Declined | NoAnswer

  /** Where a payment request stands: what it does next. */
  datatype Pc =
    | ReadQuote
    | ReadSession
    | LookUp            // look for a transaction of the key
    | Insert            // insert the pending row
    | CallPg
    | Commit(answer: PgAnswer)
    | CompleteSession
    | Notify
    | HandleException(raised: Progress)  // the except branch: mark the transaction failed
    | NotifyAgain       // a repeated request for a success: only tell the PMS
    | Done(result: Result)

  /** How far a request had come when a statement of it raised. */
  datatype Progress = Uncommitted | Committed | Completed

  /** Answered repeats the table's status or a decline, Paid is a success of the request's own, Undone is the answer of the except
      branch, and Escaped an exception nobody catches. */
  datatype Result = Rejected | Answered(status: TxStatus) | Paid | Undone(raised: Progress) | Escaped(raised: Progress)

  datatype Request = Request(key: Key, pc: Pc)

  datatype FeeRequest = FeeReadQuote(car: CarId, ref: SessionRef) | FeeReadSession(car: CarId, ref: SessionRef) | FeeSave(ref: SessionRef, amount: int) | FeeDone

  datatype Row = Row(status: TxStatus, owner: nat)

  datatype Call = Call(request: nat, key: Key, answer: PgAnswer)

  datatype ParkingSession = ParkingSession(car: CarId, active: bool)

  /** calls is the log of charge requests sent to the PG. */
  datatype System = System(requests: map<nat, Request>, fees: map<nat, FeeRequest>, rows: map<Key, Row>,
                           sessions: map<SessionId, ParkingSession>, quotes: map<SessionRef, (int, Currency)>, calls: seq<Call>)

  datatype Event =
    | PaymentArrives(id: nat, key: Key)
    | PaymentMoves(id: nat, answer: PgAnswer, fault: bool)  // fault: the store it touches next raises
    | FeeArrives(id: nat, car: CarId, ref: SessionRef)
    | FeeMoves(id: nat, owed: int)
    | QuoteExpires(ref: SessionRef)
    | SessionOpens(sid: SessionId, car: CarId)

  const Empty := System(map[], map[], map[], map[], map[], [])

  /** What one move does: where the request stands next, and what it writes under its key. */
  datatype Effect = Effect(pc: Pc, row: Option<Row>, call: Option<PgAnswer>, completes: bool)

  function Goes(pc: Pc): Effect {
    Effect(pc, None, None, false)
  }

  /** An exception: caught by the except branch inside the try, escaping outside of it. A free payment has no try. */
  function Raise(key: Key, raised: Progress): Effect {
    Goes(if key.amount > 0 then HandleException(raised) else Done(Escaped(raised)))
  }

  function Action(s: System, id: nat, key: Key, pc: Pc, answer: PgAnswer, fault: bool): Effect {
    match pc
    case ReadQuote =>
      Goes(if key.ref in s.quotes && s.quotes[key.ref] == (key.amount, key.currency) then ReadSession else Done(Rejected))
    case ReadSession =>
      Goes(if key.ref.id in s.sessions && s.sessions[key.ref.id].car == key.car then LookUp else Done(Rejected))
    case LookUp =>
      if key in s.rows then Goes(if s.rows[key].status == Success then NotifyAgain else Done(Answered(s.rows[key].status)))
      else Goes(if key.amount < 0 then Done(Rejected) else Insert)
    case Insert =>
      if key in s.rows || fault then Goes(Done(Escaped(Uncommitted)))  // the unique index on the key, outside the try
      else Effect(if key.amount > 0 then CallPg else Commit(Approved), Some(Row(Pending, id)), None, false)
    case CallPg =>
      Effect(if answer == NoAnswer then HandleException(Uncommitted) else Commit(answer), None, Some(answer), false)
    case Commit(given) =>
      if fault || key !in s.rows then Raise(key, Uncommitted)
      else if given == Approved then Effect(CompleteSession, Some(s.rows[key].(status := Success)), None, false)
      else Effect(Done(Answered(Failed)), Some(s.rows[key].(status := Failed)), None, false)
    case CompleteSession =>
      if fault || key.ref.id !in s.sessions then Raise(key, Committed) else Effect(Notify, None, None, true)
    case Notify =>
      if fault then Raise(key, Completed) else Goes(Done(Paid))
    case HandleException(raised) =>
      if fault || key !in s.rows then Goes(Done(Escaped(raised)))
      else Effect(Done(Undone(raised)), Some(s.rows[key].(status := Failed)), None, false)
    case NotifyAgain => Goes(if fault then Done(Escaped(Uncommitted)) else Done(Answered(Success)))
    case Done(_) => Goes(pc)
  }

  function Applied(s: System, id: nat, e: Effect): System
    requires id in s.requests
  {
    var key := s.requests[id].key;
    s.(requests := s.requests[id := s.requests[id].(pc := e.pc)],
       rows := if e.row.Some? then s.rows[key := e.row.value] else s.rows,
       calls := if e.call.Some? then s.calls + [Call(id, key, e.call.value)] else s.calls,
       sessions := if e.completes && key.ref.id in s.sessions
                   then s.sessions[key.ref.id := s.sessions[key.ref.id].(active := false)] else s.sessions)
  }

  function Move(s: System, id: nat, answer: PgAnswer, fault: bool): System
    requires id in s.requests
  {
    Applied(s, id, Action(s, id, s.requests[id].key, s.requests[id].pc, answer, fault))
  }

  function FeeMove(s: System, id: nat, owed: int): System
    requires id in s.fees
  {
    match s.fees[id]
    case FeeReadQuote(car, ref) => s.(fees := s.fees[id := if ref in s.quotes then FeeDone else FeeReadSession(car, ref)])
    case FeeReadSession(car, ref) =>
      if ref.id !in s.sessions || !s.sessions[ref.id].active || s.sessions[ref.id].car != car then s.(fees := s.fees[id := FeeDone])
      else s.(fees := s.fees[id := FeeSave(ref, owed)])
    case FeeSave(ref, amount) => s.(fees := s.fees[id := FeeDone], quotes := s.quotes[ref := (amount, KRW)])
    case FeeDone => s
  }

  function Next(s: System, e: Event): System {
    match e
    case PaymentArrives(id, key) => if id in s.requests then s else s.(requests := s.requests[id := Request(key, ReadQuote)])
    case PaymentMoves(id, answer, fault) => if id in s.requests then Move(s, id, answer, fault) else s
    case FeeArrives(id, car, ref) => if id in s.fees then s else s.(fees := s.fees[id := FeeReadQuote(car, ref)])
    case FeeMoves(id, owed) => if id in s.fees then FeeMove(s, id, owed) else s
    case QuoteExpires(ref) => s.(quotes := s.quotes - {ref})
    case SessionOpens(sid, car) => if sid in s.sessions then s else s.(sessions := s.sessions[sid := ParkingSession(car, true)])
  }

  function Run(s: System, events: seq<Event>): System
    decreases |events|
  {
    if events == [] then s else Run(Next(s, events[0]), events[1..])
  }

  // ----- the invariant

  /** The request has inserted its row and not finished with it. */
  predicate Holds(pc: Pc) {
    pc.CallPg? || pc.Commit? || pc.CompleteSession? || pc.Notify? || pc.HandleException?
  }

  ghost predicate Held(s: System, id: nat) {
    id in s.requests && Holds(s.requests[id].pc)
  }

  ghost predicate Called(s: System, key: Key) {
    exists i :: 0 <= i < |s.calls| && s.calls[i].key == key
  }

  ghost predicate ApprovedCall(s: System, key: Key) {
    exists i :: 0 <= i < |s.calls| && s.calls[i].key == key && s.calls[i].answer == Approved
  }

  ghost predicate Owns(s: System, id: nat, key: Key, pc: Pc) {
    && key in s.rows && s.rows[key].owner == id && key.amount >= 0
    && (pc.CallPg? ==> s.rows[key].status == Pending && key.amount > 0 && !Called(s, key))
    && (pc.Commit? ==> s.rows[key].status == Pending && (key.amount > 0 && pc.answer == Approved ==> ApprovedCall(s, key)))
    && (pc.Commit? ==> pc.answer != NoAnswer && (key.amount == 0 ==> pc.answer == Approved))
    && (pc.CompleteSession? || pc.Notify? ==> s.rows[key].status == Success)
    && (pc.HandleException? ==> key.amount > 0 && s.rows[key].status == if pc.raised == Uncommitted then Pending else Success)
  }

  /** A request between its insert and its end owns the row of its key, in the state its place says. */
  ghost predicate Ownership(s: System) {
    forall id | Held(s, id) :: Owns(s, id, s.requests[id].key, s.requests[id].pc)
  }

  /** The PG has been called at most once per key, by the request whose insert won, for a paid key. */
  ghost predicate SingleCalls(s: System) {
    && (forall i | 0 <= i < |s.calls| :: s.calls[i].key in s.rows && s.rows[s.calls[i].key].owner == s.calls[i].request && s.calls[i].key.amount > 0)
    && (forall i, j | 0 <= i < j < |s.calls| :: s.calls[i].key != s.calls[j].key)
  }

  /** A paid success was approved by the PG. */
  ghost predicate ApprovedSuccesses(s: System) {
    forall k | k in s.rows && s.rows[k].status == Success && k.amount != 0 :: ApprovedCall(s, k)
  }

  ghost predicate OwnersExist(s: System) {
    forall k | k in s.rows :: s.rows[k].owner in s.requests && s.requests[s.rows[k].owner].key == k
  }

  ghost predicate Chargeable(s: System) {
    forall id | id in s.requests && s.requests[id].pc.Insert? :: s.requests[id].key.amount >= 0
  }

  ghost predicate Inv(s: System) {
    Chargeable(s) && Ownership(s) && SingleCalls(s) && ApprovedSuccesses(s) && OwnersExist(s)
  }

  /** What an effect must respect when request id, at its place in s, has it. */
  ghost predicate Sound(s: System, id: nat, e: Effect)
    requires id in s.requests
  {
    var key, pc := s.requests[id].key, s.requests[id].pc;
    var row' := if e.row.Some? then e.row else if key in s.rows then Some(s.rows[key]) else None;
    && (e.call.Some? ==> pc.CallPg? && Held(s, id) && e.row.None?)
    && (e.row.Some? ==> e.row.value.owner == id && if pc.Insert? then key !in s.rows && e.row.value.status == Pending else Held(s, id))
    && (e.pc.Insert? ==> key.amount >= 0)
    && (Holds(e.pc) ==>
          && row'.Some? && row'.value.owner == id && key.amount >= 0
          && (Held(s, id) || (pc.Insert? && e.row.Some?))
          && (e.pc.CallPg? ==> pc.Insert? && row'.value.status == Pending && key.amount > 0)
          && (e.pc.Commit? ==> row'.value.status == Pending && e.pc.answer != NoAnswer && (key.amount == 0 ==> e.pc.answer == Approved)
                               && (key.amount > 0 ==> e.call == Some(e.pc.answer)))
          && (e.pc.CompleteSession? || e.pc.Notify? ==> row'.value.status == Success)
          && (e.pc.HandleException? ==> key.amount > 0 && row'.value.status == if e.pc.raised == Uncommitted then Pending else Success))
    && (e.row.Some? && e.row.value.status == Success && key.amount != 0 ==> ApprovedCall(s, key))
  }

  /** Before the insert, and after the end: no row is written. */
  predicate Reads(pc: Pc) {
    pc.ReadQuote? || pc.ReadSession? || pc.LookUp? || pc.NotifyAgain? || pc.Done?
  }

  lemma ReadingIsSound(s: System, id: nat, answer: PgAnswer, fault: bool)
    requires id in s.requests && Reads(s.requests[id].pc)
    ensures Sound(s, id, Action(s, id, s.requests[id].key, s.requests[id].pc, answer, fault))
  {
  }

  lemma InsertIsSound(s: System, id: nat, answer: PgAnswer, fault: bool)
    requires id in s.requests && s.requests[id].pc.Insert? && s.requests[id].key.amount >= 0
    ensures Sound(s, id, Action(s, id, s.requests[id].key, s.requests[id].pc, answer, fault))
  {
  }

  lemma HoldingIsSound(s: System, id: nat, answer: PgAnswer, fault: bool)
    requires Held(s, id) && Owns(s, id, s.requests[id].key, s.requests[id].pc)
    ensures Sound(s, id, Action(s, id, s.requests[id].key, s.requests[id].pc, answer, fault))
  {
  }

  lemma ActionIsSound(s: System, id: nat, answer: PgAnswer, fault: bool)
    requires Inv(s) && id in s.requests
    ensures Sound(s, id, Action(s, id, s.requests[id].key, s.requests[id].pc, answer, fault))
  {
    if Reads(s.requests[id].pc) {
      ReadingIsSound(s, id, answer, fault);
    } else if s.requests[id].pc.Insert? {
      InsertIsSound(s, id, answer, fault);
    } else {
      assert Held(s, id);
      HoldingIsSound(s, id, answer, fault);
    }
  }

  lemma CallsGrow(s: System, id: nat, e: Effect, k: Key)
    requires id in s.requests
    ensures ApprovedCall(s, k) ==> ApprovedCall(Applied(s, id, e), k)
    ensures k != s.requests[id].key || e.call.None? ==> (Called(Applied(s, id, e), k) ==> Called(s, k))
    ensures e.call == Some(Approved) && k == s.requests[id].key ==> ApprovedCall(Applied(s, id, e), k)
  {
    var s' := Applied(s, id, e);
    if ApprovedCall(s, k) {
      var i :| 0 <= i < |s.calls| && s.calls[i].key == k && s.calls[i].answer == Approved;
      assert s'.calls[i] == s.calls[i];
    }
    if e.call == Some(Approved) && k == s.requests[id].key {
      assert s'.calls[|s.calls|].key == k;
    }
  }

  lemma MoverOwns(s: System, id: nat, e: Effect)
    requires Inv(s) && id in s.requests && Sound(s, id, e) && Holds(e.pc)
    ensures Owns(Applied(s, id, e), id, s.requests[id].key, e.pc)
  {
    var key := s.requests[id].key;
    CallsGrow(s, id, e, key);
    if Held(s, id) {
      assert Owns(s, id, key, s.requests[id].pc);
    }
    assert key !in s.rows ==> !Called(s, key);
  }

  lemma OthersOwn(s: System, id: nat, e: Effect, other: nat)
    requires Inv(s) && id in s.requests && Sound(s, id, e) && other != id && Held(s, other)
    ensures Owns(Applied(s, id, e), other, s.requests[other].key, s.requests[other].pc)
  {
    var key := s.requests[other].key;
    CallsGrow(s, id, e, key);
    assert Owns(s, other, key, s.requests[other].pc);
    assert Held(s, id) ==> Owns(s, id, s.requests[id].key, s.requests[id].pc);
  }

  lemma OwnershipKept(s: System, id: nat, e: Effect)
    requires Inv(s) && id in s.requests && Sound(s, id, e)
    ensures Ownership(Applied(s, id, e))
  {
    var s' := Applied(s, id, e);
    forall other | Held(s', other) ensures Owns(s', other, s'.requests[other].key, s'.requests[other].pc) {
      if other == id {
        MoverOwns(s, id, e);
      } else {
        assert Held(s, other);
        OthersOwn(s, id, e, other);
      }
    }
  }

  lemma SingleCallsKept(s: System, id: nat, e: Effect)
    requires Inv(s) && id in s.requests && Sound(s, id, e)
    ensures SingleCalls(Applied(s, id, e))
  {
    var key := s.requests[id].key;
    if e.call.Some? {
      assert forall i | 0 <= i < |s.calls| :: s.calls[i].key != key;
    }
    if e.row.Some? && key in s.rows {
      assert s.rows[key].owner == id;
    }
  }

  lemma SuccessesKept(s: System, id: nat, e: Effect)
    requires Inv(s) && id in s.requests && Sound(s, id, e)
    ensures ApprovedSuccesses(Applied(s, id, e)) && OwnersExist(Applied(s, id, e))
  {
    forall k {
      CallsGrow(s, id, e, k);
    }
  }

  lemma MoveKeeps(s: System, id: nat, answer: PgAnswer, fault: bool)
    requires Inv(s) && id in s.requests
    ensures Inv(Move(s, id, answer, fault))
  {
    var e := Action(s, id, s.requests[id].key, s.requests[id].pc, answer, fault);
    ActionIsSound(s, id, answer, fault);
    OwnershipKept(s, id, e);
    SingleCallsKept(s, id, e);
    SuccessesKept(s, id, e);
  }

  lemma NextKeeps(s: System, e: Event)
    requires Inv(s)
    ensures Inv(Next(s, e))
  {
    match e
    case PaymentMoves(id, answer, fault) =>
      if id in s.requests {
        MoveKeeps(s, id, answer, fault);
      }
    case _ => OtherEvents(s, e); SameCalls(s, Next(s, e));
  }

  lemma OwnsFrame(s: System, s': System, id: nat, key: Key, pc: Pc)
    requires Owns(s, id, key, pc) && s'.rows == s.rows && s'.calls == s.calls
    ensures Owns(s', id, key, pc)
  {
    assert Called(s', key) ==> Called(s, key);
    assert ApprovedCall(s, key) ==> ApprovedCall(s', key);
  }

  /** What only adds requests at their beginning, or touches quotes, fees and sessions. */
  lemma SameCalls(s: System, s': System)
    requires Inv(s) && s'.rows == s.rows && s'.calls == s.calls
    requires forall id | id in s.requests :: id in s'.requests && s'.requests[id] == s.requests[id]
    requires forall id | id in s'.requests && id !in s.requests :: s'.requests[id].pc == ReadQuote
    ensures Inv(s')
  {
    forall id | Held(s', id) ensures Owns(s', id, s'.requests[id].key, s'.requests[id].pc) {
      assert Held(s, id);
      OwnsFrame(s, s', id, s.requests[id].key, s.requests[id].pc);
    }
    forall k | ApprovedCall(s, k) ensures ApprovedCall(s', k) {
    }
  }

  lemma {:induction false} RunKeeps(s: System, events: seq<Event>)
    requires Inv(s)
    ensures Inv(Run(s, events))
    decreases |events|
  {
    if events != [] {
      NextKeeps(s, events[0]);
      RunKeeps(Next(s, events[0]), events[1..]);
    }
  }

  /** Where a raising store sends a request: out of the handler before the try block and in its except branch, else into the except
      branch if the payment is not free. A raising store writes nothing. */
  lemma FaultsExactly(s: System, id: nat, key: Key, pc: Pc, answer: PgAnswer)
    ensures var e := Action(s, id, key, pc, answer, true);
            && (pc.Insert? || pc.Commit? || pc.CompleteSession? || pc.Notify? || pc.HandleException? || pc.NotifyAgain? ==>
                  e.row == None && e.call == None && !e.completes)
            && (pc.Insert? || pc.NotifyAgain? ==> e.pc == Done(Escaped(Uncommitted)))
            && (pc.HandleException? ==> e.pc == Done(Escaped(pc.raised)))
            && (pc.Commit? ==> e.pc == if key.amount > 0 then HandleException(Uncommitted) else Done(Escaped(Uncommitted)))
            && (pc.CompleteSession? ==> e.pc == if key.amount > 0 then HandleException(Committed) else Done(Escaped(Committed)))
            && (pc.Notify? ==> e.pc == if key.amount > 0 then HandleException(Completed) else Done(Escaped(Completed)))
  {
  }

  // ----- the theorems

  /** However the requests interleave, die or meet raising stores, the PG is asked at most once for a key, by the
      request that inserted the key's row, and a paid success stands only on an approval it gave. */
  lemma AtMostOneCharge(events: seq<Event>)
    ensures var s := Run(Empty, events);
            && (forall i, j | 0 <= i < j < |s.calls| :: s.calls[i].key != s.calls[j].key)
            && (forall i | 0 <= i < |s.calls| :: s.calls[i].key in s.rows && s.rows[s.calls[i].key].owner == s.calls[i].request)
            && (forall k | k in s.rows && s.rows[k].status == Success && k.amount > 0 ::
                  exists i :: 0 <= i < |s.calls| && s.calls[i] == Call(s.rows[k].owner, k, Approved))
  {
    RunKeeps(Empty, events);
    var s := Run(Empty, events);
    forall k | k in s.rows && s.rows[k].status == Success && k.amount > 0
      ensures exists i :: 0 <= i < |s.calls| && s.calls[i] == Call(s.rows[k].owner, k, Approved)
    {
      assert ApprovedCall(s, k);
      var i :| 0 <= i < |s.calls| && s.calls[i].key == k && s.calls[i].answer == Approved;
      assert s.calls[i] == Call(s.rows[k].owner, k, Approved);
    }
  }

  /** A row is never removed and never changes hands; its status leaves Pending, and leaves Success only in the except branch. */
  lemma RowChanges(s: System, e: Event, k: Key)
    requires Inv(s) && k in s.rows
    ensures k in Next(s, e).rows && Next(s, e).rows[k].owner == s.rows[k].owner
    ensures s.rows[k].status != Pending && Next(s, e).rows[k] != s.rows[k] ==> s.rows[k].status == Success && Next(s, e).rows[k].status == Failed
    ensures s.rows[k].status == Success ==> (Next(s, e).rows[k].status != Success <==> OverwritesSuccess(s, e, k))
  {
    if e.PaymentMoves? && e.id in s.requests {
      var eff := Action(s, e.id, s.requests[e.id].key, s.requests[e.id].pc, e.answer, e.fault);
      ActionIsSound(s, e.id, e.answer, e.fault);
      if Holds(s.requests[e.id].pc) {
        assert Held(s, e.id);
      }
    }
  }

  /** The owner of k is in its except branch and the failure update goes through. */
  ghost predicate OverwritesSuccess(s: System, e: Event, k: Key) {
    && e.PaymentMoves? && e.id in s.requests && s.requests[e.id].key == k && s.requests[e.id].pc.HandleException? && s.requests[e.id].pc.raised != Uncommitted && !e.fault
  }

  /** A store raises after the owner has committed its success: the try block also covers completing the session and
      recording or clearing the retry event. */
  ghost predicate LateFault(s: System, e: Event) {
    && e.PaymentMoves? && e.id in s.requests && s.requests[e.id].key.amount > 0
    && (s.requests[e.id].pc == Notify || s.requests[e.id].pc == CompleteSession)
    && (e.fault || (s.requests[e.id].pc == CompleteSession && s.requests[e.id].key.ref.id !in s.sessions))
  }

  ghost predicate NoLateFault(s: System, events: seq<Event>)
    decreases |events|
  {
    events != [] ==> !LateFault(s, events[0]) && NoLateFault(Next(s, events[0]), events[1..])
  }

  /** No request handles an exception over a committed success. */
  ghost predicate Unthreatened(s: System) {
    forall id | id in s.requests && s.requests[id].pc.HandleException? :: s.requests[id].pc.raised == Uncommitted
  }

  lemma UnthreatenedStep(s: System, e: Event)
    requires Unthreatened(s) && !LateFault(s, e)
    ensures Unthreatened(Next(s, e))
  {
  }

  /** As long as no store raises after a success commit, a success stays a success. */
  lemma {:induction false} SuccessStays(s: System, events: seq<Event>, k: Key)
    requires Inv(s) && Unthreatened(s) && NoLateFault(s, events) && k in s.rows && s.rows[k].status == Success
    ensures k in Run(s, events).rows && Run(s, events).rows[k].status == Success
    decreases |events|
  {
    if events != [] {
      NextKeeps(s, events[0]);
      UnthreatenedStep(s, events[0]);
      RowChanges(s, events[0], k);
      SuccessStays(Next(s, events[0]), events[1..], k);
    }
  }

  /** And that condition is exact: whenever a paid request stands right after its success commit, one raising store and
      the except branch turn the recorded success into a failure. */
  lemma LateFaultOverwrites(s: System, id: nat, answer: PgAnswer)
    requires Inv(s) && id in s.requests && s.requests[id].key.amount > 0
    requires s.requests[id].pc == CompleteSession || s.requests[id].pc == Notify
    ensures var fault, handled, key := PaymentMoves(id, answer, true), PaymentMoves(id, answer, false), s.requests[id].key;
            && key in s.rows && s.rows[key].status == Success && LateFault(s, fault)
            && key in Next(Next(s, fault), handled).rows && Next(Next(s, fault), handled).rows[key].status == Failed
  {
    assert Held(s, id);
    assert Owns(s, id, s.requests[id].key, s.requests[id].pc);
    var s1 := Next(s, PaymentMoves(id, answer, true));
    assert s1.rows == s.rows && s1.requests[id].key == s.requests[id].key && s1.requests[id].pc.HandleException?;
  }

  // ----- successes and completed sessions, by where their requests stand

  ghost predicate Succeeded(s: System, k: Key) {
    k in s.rows && s.rows[k].status == Success
  }

  /** The request has committed its success and has not overwritten it. */
  predicate Stands(pc: Pc) {
    match pc
    case CompleteSession | Notify => true
    case HandleException(raised) => raised != Uncommitted
    case Done(Paid) => true
    case Done(Escaped(raised)) => raised != Uncommitted
    case _ => false
  }

  /** The request has completed its session. */
  predicate Closed(pc: Pc) {
    match pc
    case Notify => true
    case HandleException(raised) => raised == Completed
    case Done(Paid) => true
    case Done(Undone(raised)) => raised == Completed
    case Done(Escaped(raised)) => raised == Completed
    case _ => false
  }

  predicate PastSession(pc: Pc) {
    !pc.ReadQuote? && !pc.ReadSession? && !pc.Done?
  }

  ghost predicate SessionsKnown(s: System) {
    forall id | id in s.requests && PastSession(s.requests[id].pc) :: s.requests[id].key.ref.id in s.sessions
  }

  /** The successes are the rows of the requests that stand by them. */
  ghost predicate StandingRows(s: System) {
    && (forall id | id in s.requests && Stands(s.requests[id].pc) :: Succeeded(s, s.requests[id].key) && s.rows[s.requests[id].key].owner == id)
    && (forall k | Succeeded(s, k) :: s.rows[k].owner in s.requests && Stands(s.requests[s.rows[k].owner].pc))
  }

  ghost predicate ClosedSession(s: System, sid: SessionId) {
    exists id :: id in s.requests && s.requests[id].key.ref.id == sid && Closed(s.requests[id].pc)
  }

  ghost predicate ClosedByPayment(s: System) {
    && (forall sid | sid in s.sessions && !s.sessions[sid].active :: ClosedSession(s, sid))
    && (forall id | id in s.requests && Closed(s.requests[id].pc) ::
          s.requests[id].key.ref.id in s.sessions && !s.sessions[s.requests[id].key.ref.id].active)
  }

  ghost predicate SessionInv(s: System) {
    Inv(s) && SessionsKnown(s) && StandingRows(s) && ClosedByPayment(s)
  }

  /** How an effect moves the request with respect to its success and its session. */
  ghost predicate Placed(s: System, id: nat, e: Effect)
    requires id in s.requests
  {
    var key, pc := s.requests[id].key, s.requests[id].pc;
    && (if e.row.None? then Stands(e.pc) <==> Stands(pc)
        else (Stands(e.pc) <==> e.row.value.status == Success) && e.row.value.owner == id && (if pc.Insert? then key !in s.rows else Held(s, id)))
    && (Closed(e.pc) <==> Closed(pc) || e.completes)
    && (e.completes ==> key.ref.id in s.sessions)
    && (PastSession(e.pc) ==> key.ref.id in s.sessions)
  }

  lemma ReadingIsPlaced(s: System, id: nat, answer: PgAnswer, fault: bool)
    requires SessionsKnown(s) && id in s.requests && Reads(s.requests[id].pc)
    ensures Placed(s, id, Action(s, id, s.requests[id].key, s.requests[id].pc, answer, fault))
  {
  }

  lemma WritingIsPlaced(s: System, id: nat, answer: PgAnswer, fault: bool)
    requires SessionsKnown(s) && id in s.requests
    requires s.requests[id].pc.Insert? || (Held(s, id) && Owns(s, id, s.requests[id].key, s.requests[id].pc))
    ensures Placed(s, id, Action(s, id, s.requests[id].key, s.requests[id].pc, answer, fault))
  {
  }

  lemma ActionIsPlaced(s: System, id: nat, answer: PgAnswer, fault: bool)
    requires Inv(s) && SessionsKnown(s) && id in s.requests
    ensures Placed(s, id, Action(s, id, s.requests[id].key, s.requests[id].pc, answer, fault))
  {
    if Reads(s.requests[id].pc) {
      ReadingIsPlaced(s, id, answer, fault);
    } else {
      assert s.requests[id].pc.Insert? || Held(s, id);
      WritingIsPlaced(s, id, answer, fault);
    }
  }

  lemma StandingKept(s: System, id: nat, e: Effect)
    requires Inv(s) && StandingRows(s) && id in s.requests && Placed(s, id, e)
    ensures StandingRows(Applied(s, id, e))
  {
    assert Held(s, id) ==> Owns(s, id, s.requests[id].key, s.requests[id].pc);
    var s', key := Applied(s, id, e), s.requests[id].key;
    forall i | i in s'.requests && Stands(s'.requests[i].pc) ensures Succeeded(s', s'.requests[i].key) && s'.rows[s'.requests[i].key].owner == i {
      assert i in s.requests && s'.requests[i].key == s.requests[i].key;
    }
    forall k | Succeeded(s', k) ensures s'.rows[k].owner in s'.requests && Stands(s'.requests[s'.rows[k].owner].pc) {
      assert k != key ==> Succeeded(s, k);
      assert k in s.rows ==> s.requests[s.rows[k].owner].key == k;
    }
  }

  lemma ClosedKept(s: System, id: nat, e: Effect)
    requires ClosedByPayment(s) && id in s.requests && Placed(s, id, e)
    ensures ClosedByPayment(Applied(s, id, e))
  {
    var s', own := Applied(s, id, e), s.requests[id].key.ref.id;
    forall sid | sid in s'.sessions && !s'.sessions[sid].active ensures ClosedSession(s', sid) {
      if e.completes && sid == own {
        assert s'.requests[id].key.ref.id == sid && Closed(s'.requests[id].pc);
      } else {
        var i :| i in s.requests && s.requests[i].key.ref.id == sid && Closed(s.requests[i].pc);
        assert s'.requests[i].key.ref.id == sid && Closed(s'.requests[i].pc);
      }
    }
  }

  lemma SessionMove(s: System, id: nat, answer: PgAnswer, fault: bool)
    requires SessionInv(s) && id in s.requests
    ensures SessionInv(Move(s, id, answer, fault))
  {
    var e := Action(s, id, s.requests[id].key, s.requests[id].pc, answer, fault);
    MoveKeeps(s, id, answer, fault);
    ActionIsPlaced(s, id, answer, fault);
    StandingKept(s, id, e);
    ClosedKept(s, id, e);
  }

  /** What only adds requests at their beginning and active sessions, or touches quotes and fees. */
  lemma SessionFrame(s: System, s': System)
    requires SessionInv(s) && Inv(s') && s'.rows == s.rows
    requires forall id | id in s.requests :: id in s'.requests && s'.requests[id] == s.requests[id]
    requires forall id | id in s'.requests && id !in s.requests :: s'.requests[id].pc == ReadQuote
    requires forall sid | sid in s.sessions :: sid in s'.sessions && s'.sessions[sid] == s.sessions[sid]
    requires forall sid | sid in s'.sessions && sid !in s.sessions :: s'.sessions[sid].active
    ensures SessionInv(s')
  {
    forall sid | ClosedSession(s, sid) ensures ClosedSession(s', sid) {
      var id :| id in s.requests && s.requests[id].key.ref.id == sid && Closed(s.requests[id].pc);
      assert s'.requests[id] == s.requests[id];
    }
  }

  lemma FeeMoveFrame(s: System, id: nat, owed: int)
    requires id in s.fees
    ensures FeeMove(s, id, owed) == s.(fees := FeeMove(s, id, owed).fees, quotes := FeeMove(s, id, owed).quotes)
  {
    var s' := FeeMove(s, id, owed);
    match s.fees[id]
    case FeeReadQuote(_, _) => assert s'.quotes == s.quotes;
    case FeeReadSession(_, _) => assert s'.quotes == s.quotes;
    case FeeSave(ref, amount) => assert s'.fees == s.fees[id := FeeDone];
    case FeeDone => assert s' == s;
  }

  ghost predicate Untouched(s: System, s': System) {
    && s'.rows == s.rows && s'.calls == s.calls
    && (forall id | id in s.requests :: id in s'.requests && s'.requests[id] == s.requests[id])
    && (forall id | id in s'.requests && id !in s.requests :: s'.requests[id].pc == ReadQuote)
    && (forall sid | sid in s.sessions :: sid in s'.sessions && s'.sessions[sid] == s.sessions[sid])
    && (forall sid | sid in s'.sessions && sid !in s.sessions :: s'.sessions[sid].active)
  }

  lemma OtherEvents(s: System, e: Event)
    requires !e.PaymentMoves?
    ensures Untouched(s, Next(s, e))
  {
    match e
    case FeeMoves(id, owed) =>
      if id in s.fees {
        FeeMoveFrame(s, id, owed);
      }
    case _ =>
  }

  lemma SessionStep(s: System, e: Event)
    requires SessionInv(s)
    ensures SessionInv(Next(s, e))
  {
    match e
    case PaymentMoves(id, answer, fault) =>
      if id in s.requests {
        SessionMove(s, id, answer, fault);
      }
    case _ =>
      OtherEvents(s, e);
      SameCalls(s, Next(s, e));
      SessionFrame(s, Next(s, e));
  }

  lemma {:induction false} SessionRun(s: System, events: seq<Event>)
    requires SessionInv(s)
    ensures SessionInv(Run(s, events))
    decreases |events|
  {
    if events != [] {
      SessionStep(s, events[0]);
      SessionRun(Next(s, events[0]), events[1..]);
    }
  }

  /** Whatever interleaves, dies or raises: a key is recorded as a success exactly while a request of it stands by its commit,
      and a session is completed exactly when a request of it has completed it. */
  lemma SuccessesAndClosings(events: seq<Event>, k: Key, sid: SessionId)
    requires sid in Run(Empty, events).sessions
    ensures var s := Run(Empty, events);
            && (Succeeded(s, k) <==> exists id :: id in s.requests && s.requests[id].key == k && Stands(s.requests[id].pc))
            && (!s.sessions[sid].active <==> ClosedSession(s, sid))
  {
    SessionRun(Empty, events);
    var s := Run(Empty, events);
    if Succeeded(s, k) {
      assert s.requests[s.rows[k].owner].key == k;
    }
  }

  // ----- a second success of one session

  /** Some request has committed a success of the session and has not completed it: it is about to, or an exception took it off
      its way (a paid one to its except branch, a free one out of the handler). */
  ghost predicate Uncompleted(s: System, sid: SessionId) {
    exists id :: id in s.requests && s.requests[id].key.ref.id == sid && CommittedOnly(s.requests[id].pc)
  }

  predicate CommittedOnly(pc: Pc) {
    pc == CompleteSession || pc == HandleException(Committed) || pc == Done(Escaped(Committed))
  }

  /** Every request that completed the session has since overwritten its success. */
  ghost predicate AllUndone(s: System, sid: SessionId) {
    forall id | id in s.requests && s.requests[id].key.ref.id == sid && Closed(s.requests[id].pc) :: s.requests[id].pc == Done(Undone(Completed))
  }

  /** A new success is the commit of the request that owns the row. */
  lemma NewSuccess(s: System, e: Event, k: Key)
    requires Inv(s) && Succeeded(Next(s, e), k) && !Succeeded(s, k)
    ensures e.PaymentMoves? && e.id in s.requests && s.requests[e.id].key == k && s.requests[e.id].pc == Commit(Approved)
    ensures Next(s, e).rows == s.rows[k := Next(s, e).rows[k]]
  {
    assert Held(s, e.id) ==> Owns(s, e.id, s.requests[e.id].key, s.requests[e.id].pc);
  }

  /** Under any interleaving, with requests that die and stores that raise anywhere: a commit makes a second success of its
      session if and only if some request has committed without completing the session, or the session is completed and not
      every request that completed it has overwritten its success. */
  lemma SecondSuccessInterleaved(events: seq<Event>, e: Event, k: Key)
    requires Succeeded(Next(Run(Empty, events), e), k) && !Succeeded(Run(Empty, events), k)
    ensures var s := Run(Empty, events);
            && k.ref.id in s.sessions
            && ((exists l :: l != k && Succeeded(Next(s, e), l) && l.ref.id == k.ref.id)
                <==> Uncompleted(s, k.ref.id) || (!s.sessions[k.ref.id].active && !AllUndone(s, k.ref.id)))
  {
    SessionRun(Empty, events);
    SecondSuccessStep(Run(Empty, events), e, k);
  }

  ghost predicate SomeStands(s: System, sid: SessionId) {
    exists id :: id in s.requests && s.requests[id].key.ref.id == sid && Stands(s.requests[id].pc)
  }

  lemma OtherSuccess(s: System, e: Event, k: Key)
    requires Inv(s) && StandingRows(s) && Succeeded(Next(s, e), k) && !Succeeded(s, k)
    ensures (exists l :: l != k && Succeeded(Next(s, e), l) && l.ref.id == k.ref.id) <==> SomeStands(s, k.ref.id)
  {
    NewSuccess(s, e, k);
    forall l | l != k && Succeeded(Next(s, e), l) && l.ref.id == k.ref.id ensures SomeStands(s, k.ref.id) {
      assert Succeeded(s, l) && s.requests[s.rows[l].owner].key == l;
    }
    forall id | id in s.requests && s.requests[id].key.ref.id == k.ref.id && Stands(s.requests[id].pc)
      ensures exists l :: l != k && Succeeded(Next(s, e), l) && l.ref.id == k.ref.id
    {
      assert Succeeded(Next(s, e), s.requests[id].key);
    }
  }

  lemma StandingPlaces(s: System, sid: SessionId)
    requires ClosedByPayment(s) && sid in s.sessions
    ensures SomeStands(s, sid) <==> Uncompleted(s, sid) || (!s.sessions[sid].active && !AllUndone(s, sid))
  {
    forall id | id in s.requests && s.requests[id].key.ref.id == sid && Stands(s.requests[id].pc)
      ensures Uncompleted(s, sid) || (!s.sessions[sid].active && !AllUndone(s, sid))
    {
      assert CommittedOnly(s.requests[id].pc) || (Closed(s.requests[id].pc) && s.requests[id].pc != Done(Undone(Completed)));
    }
  }

  lemma SecondSuccessStep(s: System, e: Event, k: Key)
    requires SessionInv(s) && Succeeded(Next(s, e), k) && !Succeeded(s, k)
    ensures k.ref.id in s.sessions
    ensures (exists l :: l != k && Succeeded(Next(s, e), l) && l.ref.id == k.ref.id)
            <==> Uncompleted(s, k.ref.id) || (!s.sessions[k.ref.id].active && !AllUndone(s, k.ref.id))
  {
    NewSuccess(s, e, k);
    OtherSuccess(s, e, k);
    StandingPlaces(s, k.ref.id);
  }

  // ----- why one success per session needs whole handlers

  lemma {:induction false} RunOn(s: System, events: seq<Event>, e: Event)
    ensures Run(s, events + [e]) == Next(Run(s, events), e)
    decreases |events|
  {
    if events == [] {
      assert events + [e] == [e];
      assert Run(Next(s, e), []) == Next(s, e);
    } else {
      RunOn(Next(s, events[0]), events[1..], e);
      assert (events + [e])[0] == events[0] && (events + [e])[1..] == events[1..] + [e];
    }
  }

  /** A request with nothing in its way, from its arrival to its answer. */
  ghost function PaidThrough(s: System, id: nat, key: Key): System
    requires key.ref.id in s.sessions
  {
    s.(requests := s.requests[id := Request(key, Done(Paid))], rows := s.rows[key := Row(Success, id)],
       calls := s.calls + [Call(id, key, Approved)],
       sessions := s.sessions[key.ref.id := s.sessions[key.ref.id].(active := false)])
  }

  /** s with request id of key standing at pc, and these tables. */
  ghost function Standing(s: System, id: nat, key: Key, pc: Pc, rows: map<Key, Row>, calls: seq<Call>, sessions: map<SessionId, ParkingSession>): System {
    s.(requests := s.requests[id := Request(key, pc)], rows := rows, calls := calls, sessions := sessions)
  }

  /** One move of request id that has effect e. */
  lemma OneMove(s: System, events: seq<Event>, id: nat, key: Key, pc: Pc, rows: map<Key, Row>, calls: seq<Call>, sessions: map<SessionId, ParkingSession>,
                rows': map<Key, Row>, fault: bool)
    returns (more: seq<Event>)
    requires Run(Empty, events) == Standing(s, id, key, pc, rows, calls, sessions)
    requires var e := Action(Standing(s, id, key, pc, rows, calls, sessions), id, key, pc, Approved, fault);
             rows' == if e.row.Some? then rows[key := e.row.value] else rows
    ensures var e := Action(Standing(s, id, key, pc, rows, calls, sessions), id, key, pc, Approved, fault);
            Run(Empty, more) == Standing(s, id, key, e.pc, rows',
                                         if e.call.Some? then calls + [Call(id, key, e.call.value)] else calls,
                                         if e.completes && key.ref.id in sessions then sessions[key.ref.id := sessions[key.ref.id].(active := false)] else sessions)
  {
    RunOn(Empty, events, PaymentMoves(id, Approved, fault));
    more := events + [PaymentMoves(id, Approved, fault)];
    var e := Action(Standing(s, id, key, pc, rows, calls, sessions), id, key, pc, Approved, fault);
    assert s.requests[id := Request(key, pc)][id := Request(key, e.pc)] == s.requests[id := Request(key, e.pc)];
  }

  ghost predicate Unhindered(s: System, key: Key) {
    && key !in s.rows && key.amount > 0 && key.ref in s.quotes && s.quotes[key.ref] == (key.amount, key.currency)
    && key.ref.id in s.sessions && s.sessions[key.ref.id].car == key.car
  }

  lemma UntilInsert(s: System, events: seq<Event>, id: nat, key: Key) returns (more: seq<Event>)
    requires Run(Empty, events) == s && id !in s.requests && Unhindered(s, key)
    ensures Run(Empty, more) == Standing(s, id, key, Insert, s.rows, s.calls, s.sessions)
  {
    RunOn(Empty, events, PaymentArrives(id, key));
    more := events + [PaymentArrives(id, key)];
    assert Run(Empty, more) == Standing(s, id, key, ReadQuote, s.rows, s.calls, s.sessions);
    more := OneMove(s, more, id, key, ReadQuote, s.rows, s.calls, s.sessions, s.rows, false);
    more := OneMove(s, more, id, key, ReadSession, s.rows, s.calls, s.sessions, s.rows, false);
    more := OneMove(s, more, id, key, LookUp, s.rows, s.calls, s.sessions, s.rows, false);
  }

  lemma UntilCommit(s: System, events: seq<Event>, id: nat, key: Key) returns (more: seq<Event>)
    requires Run(Empty, events) == Standing(s, id, key, Insert, s.rows, s.calls, s.sessions) && Unhindered(s, key)
    ensures Run(Empty, more) == Standing(s, id, key, Commit(Approved), s.rows[key := Row(Pending, id)], s.calls + [Call(id, key, Approved)], s.sessions)
  {
    var pending := s.rows[key := Row(Pending, id)];
    more := OneMove(s, events, id, key, Insert, s.rows, s.calls, s.sessions, pending, false);
    more := OneMove(s, more, id, key, CallPg, pending, s.calls, s.sessions, pending, false);
  }

  lemma FromCommit(s: System, events: seq<Event>, id: nat, key: Key, pending: map<Key, Row>, called: seq<Call>) returns (more: seq<Event>)
    requires Run(Empty, events) == Standing(s, id, key, Commit(Approved), pending, called, s.sessions)
    requires key in pending && key.ref.id in s.sessions
    ensures Run(Empty, more) == Standing(s, id, key, Done(Paid), pending[key := pending[key].(status := Success)], called,
                                         s.sessions[key.ref.id := s.sessions[key.ref.id].(active := false)])
  {
    var success := pending[key := pending[key].(status := Success)];
    var closed := s.sessions[key.ref.id := s.sessions[key.ref.id].(active := false)];
    more := OneMove(s, events, id, key, Commit(Approved), pending, called, s.sessions, success, false);
    more := OneMove(s, more, id, key, CompleteSession, success, called, s.sessions, success, false);
    more := OneMove(s, more, id, key, Notify, success, called, closed, success, false);
  }

  lemma UnhinderedPayment(s: System, events: seq<Event>, id: nat, key: Key) returns (more: seq<Event>)
    requires Run(Empty, events) == s && id !in s.requests && Unhindered(s, key)
    ensures Run(Empty, more) == PaidThrough(s, id, key)
  {
    more := UntilInsert(s, events, id, key);
    more := UntilCommit(s, more, id, key);
    var pending := s.rows[key := Row(Pending, id)];
    more := FromCommit(s, more, id, key, pending, s.calls + [Call(id, key, Approved)]);
    assert pending[key := Row(Success, id)] == s.rows[key := Row(Success, id)];
  }

  const SESSION := SessionRef(1, 0)
  const EARLY := Key(SESSION, 1, 500, KRW)
  const LATE := Key(SESSION, 1, 1000, KRW)

  function Opened(): System { Empty.(sessions := map[1 := ParkingSession(1, true)]) }

  lemma BothAsked() returns (events: seq<Event>)
    ensures Run(Empty, events) == Opened().(fees := map[1 := FeeDone, 2 := FeeSave(SESSION, 1000)], quotes := map[SESSION := (500, KRW)])
  {
    RunOn(Empty, [], SessionOpens(1, 1));
    events := [] + [SessionOpens(1, 1)];
    assert Run(Empty, events) == Opened();
    RunOn(Empty, events, FeeArrives(1, 1, SESSION));
    events := events + [FeeArrives(1, 1, SESSION)];
    RunOn(Empty, events, FeeMoves(1, 500));
    events := events + [FeeMoves(1, 500)];
    RunOn(Empty, events, FeeMoves(1, 500));
    events := events + [FeeMoves(1, 500)];
    RunOn(Empty, events, FeeArrives(2, 1, SESSION));
    events := events + [FeeArrives(2, 1, SESSION)];
    RunOn(Empty, events, FeeMoves(2, 1000));
    events := events + [FeeMoves(2, 1000)];
    RunOn(Empty, events, FeeMoves(2, 1000));
    events := events + [FeeMoves(2, 1000)];
    assert Run(Empty, events) == Opened().(fees := map[1 := FeeSave(SESSION, 500), 2 := FeeSave(SESSION, 1000)]);
    RunOn(Empty, events, FeeMoves(1, 500));
    events := events + [FeeMoves(1, 500)];
  }

  /** If a fee request may save its quote after a payment has gone through, one session is paid twice under one spelling:
      both fee requests read the session as active, and the later one overwrites the quote with a higher fee. */
  lemma SessionPaidTwice() returns (events: seq<Event>)
    ensures var s := Run(Empty, events);
            && EARLY in s.rows && LATE in s.rows && s.rows[EARLY].status == s.rows[LATE].status == Success
            && EARLY.ref == LATE.ref && |s.calls| == 2
  {
    events := BothAsked();
    var s := Run(Empty, events);
    events := UnhinderedPayment(s, events, 1, EARLY);
    RunOn(Empty, events, FeeMoves(2, 1000));
    events := events + [FeeMoves(2, 1000)];
    s := Run(Empty, events);
    events := UnhinderedPayment(s, events, 2, LATE);
  }

  lemma FaultAfterCommit(s: System, events: seq<Event>, id: nat, key: Key, pending: map<Key, Row>, called: seq<Call>) returns (more: seq<Event>)
    requires Run(Empty, events) == Standing(s, id, key, Commit(Approved), pending, called, s.sessions)
    requires key in pending && key.amount > 0
    ensures Run(Empty, more) == Standing(s, id, key, Done(Undone(Committed)), pending[key := pending[key].(status := Failed)], called, s.sessions)
  {
    var success := pending[key := pending[key].(status := Success)];
    more := OneMove(s, events, id, key, Commit(Approved), pending, called, s.sessions, success, false);
    more := OneMove(s, more, id, key, CompleteSession, success, called, s.sessions, success, true);
    var failed := success[key := success[key].(status := Failed)];
    more := OneMove(s, more, id, key, HandleException(Committed), success, called, s.sessions, failed, false);
    assert failed == pending[key := pending[key].(status := Failed)];
  }

  /** LateFaultOverwrites is no idle condition: a run from the beginning in which the PG has charged, the success was committed,
      and a raising store made the except branch record a failure. */
  lemma ChargedButFailed() returns (events: seq<Event>)
    ensures var s := Run(Empty, events);
            && EARLY in s.rows && s.rows[EARLY].status == Failed && s.calls == [Call(1, EARLY, Approved)]
            && 1 in s.requests && s.requests[1] == Request(EARLY, Done(Undone(Committed)))
  {
    events := BothAsked();
    var s := Run(Empty, events);
    events := UntilInsert(s, events, 1, EARLY);
    events := UntilCommit(s, events, 1, EARLY);
    events := FaultAfterCommit(s, events, 1, EARLY, s.rows[EARLY := Row(Pending, 1)], s.calls + [Call(1, EARLY, Approved)]);
  }
}
