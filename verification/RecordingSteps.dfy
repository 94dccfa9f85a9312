/** The PMS's handler of payment notices split at its commits: several deliveries of notices are handled at once, any of them may
    stop at any point or meet a raising store, while cars enter and leave. */
module RecordingSteps {
  import opened Ledgers
  import opened ParkingSystem

  /** What a handler does next. Inside save_payment_request it looks a second time before it inserts; when that look finds the
      request it goes on to mark the session as paid like the handler that saved it. */
  datatype Pc = LookUp | SecondLook | Insert | MarkPaid | UpdateCache | OpenBarrier | Done(answered: bool)

  datatype Handler = Handler(notice: Notice, pc: Pc)

  datatype System = System(pms: Pms, handlers: map<nat, Handler>)

  datatype Event =
    | Arrives(handler: nat, notice: Notice)
    | Moves(handler: nat, fault: bool, at: Time)
    | Enters(slot: Slot, entry: Time, id: PmsId, existing: Option<PmsId>, at: Time)
    | Leaves(slot: Slot, paid: Option<PmsId>, at: Time)
    | Expires(at: Time)

  function Moved(p: Pms, n: Notice, pc: Pc, fault: bool, at: Time): (Pms, Pc) {
    match pc
    case LookUp => (p, if fault then Done(false) else if n.key in p.requests then Done(true) else SecondLook)
    case SecondLook => (p, if fault then Done(false) else if n.key in p.requests then MarkPaid else Insert)
    case Insert =>
      if fault || n.key in p.requests || n.pmsId !in p.sessions then (p, Done(false))  // the unique and the foreign key
      else (p.(requests := p.requests[n.key := n]), MarkPaid)
    case MarkPaid =>
      if fault then (p, Done(false))
      else if n.pmsId !in p.sessions then (p, OpenBarrier)  // a LookupError is only logged
      else (p.(sessions := p.sessions[n.pmsId := p.sessions[n.pmsId].(status := Paid)]), UpdateCache)
    case UpdateCache =>
      if fault || n.pmsId !in p.sessions then (p, Done(false))
      else (p.(cache := CacheStatusUpdated(p.cache, p.sessions[n.pmsId].slot, Paid, at)), OpenBarrier)
    case OpenBarrier => (if fault then p else p.(openings := p.openings + [OnPayment(n.pmsId)]), Done(true))
    case Done(_) => (p, pc)
  }

  function Move(s: System, h: nat, fault: bool, at: Time): System
    requires h in s.handlers
  {
    var (p, pc) := Moved(s.pms, s.handlers[h].notice, s.handlers[h].pc, fault, at);
    System(p, s.handlers[h := s.handlers[h].(pc := pc)])
  }

  ghost predicate Possible(s: System, e: Event) {
    match e
    case Arrives(h, _) => h !in s.handlers
    case Moves(h, _, _) => h in s.handlers
    case Enters(slot, _, id, existing, _) => ActiveByPlate(s.pms.sessions, slot.plate, existing) && id !in s.pms.sessions
    case Leaves(slot, paid, _) => slot !in s.pms.cache ==> WithStatusAt(s.pms.sessions, slot, Paid, paid)
    case Expires(_) => true
  }

  ghost function Next(s: System, e: Event): System
    requires Possible(s, e)
  {
    match e
    case Arrives(h, n) => s.(handlers := s.handlers[h := Handler(n, LookUp)])
    case Moves(h, fault, at) => Move(s, h, fault, at)
    case Enters(slot, entry, id, existing, at) => s.(pms := LprEntry(s.pms, slot, entry, id, existing, at).0)
    case Leaves(slot, paid, at) => s.(pms := LprExit(s.pms, slot, paid, at).0)
    case Expires(at) => s.(pms := CacheExpired(s.pms, at))
  }

  // ----- alone, the handler is the one of the handler-atomic model

  function Alone(p: Pms, n: Notice, pc: Pc, at: Time, moves: nat): (Pms, Pc)
    decreases moves
  {
    if moves == 0 then (p, pc)
    else
      var (q, next) := Moved(p, n, pc, false, at);
      Alone(q, n, next, at, moves - 1)
  }

  lemma AloneIsRecording(p: Pms, n: Notice, at: Time)
    ensures var (q, pc) := Alone(p, n, LookUp, at, 6); q == Recording(p, n, at).0 && pc == Done(Recording(p, n, at).1.Recorded?)
  {
    var (p1, c1) := Moved(p, n, LookUp, false, at);
    var (p2, c2) := Moved(p1, n, c1, false, at);
    var (p3, c3) := Moved(p2, n, c2, false, at);
    var (p4, c4) := Moved(p3, n, c3, false, at);
    var (p5, c5) := Moved(p4, n, c4, false, at);
    var (p6, c6) := Moved(p5, n, c5, false, at);
    assert Alone(p3, n, c3, at, 3) == Alone(p4, n, c4, at, 2) == Alone(p5, n, c5, at, 1) == (p6, c6);
    assert Alone(p, n, LookUp, at, 6) == Alone(p1, n, c1, at, 5) == Alone(p2, n, c2, at, 4) == Alone(p3, n, c3, at, 3);
  }

  /** A raising store ends the handler unanswered and unwritten; a raising barrier only costs the opening. */
  lemma FaultsExactly(p: Pms, n: Notice, pc: Pc, at: Time)
    ensures var (p', pc') := Moved(p, n, pc, true, at);
            p' == p && pc' == if pc.Done? then pc else if pc.OpenBarrier? then Done(true) else Done(false)
  {
  }

  // ----- a recorded request whose session is never paid

  /** Every notice about the session that is being handled has its request saved. */
  ghost predicate AllSaved(s: System, id: PmsId) {
    forall h | h in s.handlers && s.handlers[h].notice.pmsId == id :: s.handlers[h].notice.key in s.pms.requests
  }

  ghost predicate IsPaid(s: System, id: PmsId) {
    id in s.pms.sessions && s.pms.sessions[id].status == Paid
  }

  /** The dead handlers do not move, and notices about the session are only sent again. */
  ghost predicate Allowed(s: System, e: Event, id: PmsId, dead: set<nat>) {
    && Possible(s, e)
    && (e.Moves? ==> e.handler !in dead)
    && (e.Arrives? && e.notice.pmsId == id ==> e.notice.key in s.pms.requests)
  }

  ghost predicate AllowedRun(s: System, events: seq<Event>, id: PmsId, dead: set<nat>)
    decreases |events|
  {
    events != [] ==> Allowed(s, events[0], id, dead) && AllowedRun(Next(s, events[0]), events[1..], id, dead)
  }

  ghost function Run(s: System, events: seq<Event>, id: PmsId, dead: set<nat>): System
    requires AllowedRun(s, events, id, dead)
    decreases |events|
  {
    if events == [] then s else Run(Next(s, events[0]), events[1..], id, dead)
  }

  /** A living handler between its second look and mark_paid. */
  ghost predicate StillMarks(s: System, id: PmsId, dead: set<nat>) {
    exists h :: h in s.handlers && h !in dead && s.handlers[h].notice.pmsId == id && (s.handlers[h].pc == SecondLook || s.handlers[h].pc == MarkPaid)
  }

  ghost predicate Stuck(s: System, id: PmsId, dead: set<nat>) {
    id in s.pms.sessions && !IsPaid(s, id) && AllSaved(s, id) && !StillMarks(s, id, dead)
  }

  lemma StuckMove(s: System, h: nat, fault: bool, at: Time, id: PmsId, dead: set<nat>)
    requires Stuck(s, id, dead) && h in s.handlers && h !in dead
    ensures Stuck(Move(s, h, fault, at), id, dead)
  {
    var s' := Move(s, h, fault, at);
    forall i | i in s'.handlers && s'.handlers[i].notice.pmsId == id
      ensures s'.handlers[i].notice.key in s'.pms.requests
      ensures i in dead || (s'.handlers[i].pc != SecondLook && s'.handlers[i].pc != MarkPaid)
    {
      assert s.handlers[i].notice == s'.handlers[i].notice;
    }
  }

  lemma StuckStep(s: System, e: Event, id: PmsId, dead: set<nat>)
    requires Stuck(s, id, dead) && Allowed(s, e, id, dead)
    ensures Stuck(Next(s, e), id, dead)
  {
    match e
    case Moves(h, fault, at) => StuckMove(s, h, fault, at, id, dead);
    case _ =>
  }

  lemma {:induction false} StuckRun(s: System, events: seq<Event>, id: PmsId, dead: set<nat>)
    requires Stuck(s, id, dead) && AllowedRun(s, events, id, dead)
    ensures Stuck(Run(s, events, id, dead), id, dead)
    decreases |events|
  {
    if events != [] {
      StuckStep(s, events[0], id, dead);
      StuckRun(Next(s, events[0]), events[1..], id, dead);
    }
  }

  lemma MarksNow(s: System, id: PmsId, dead: set<nat>, h: nat) returns (events: seq<Event>)
    requires id in s.pms.sessions && AllSaved(s, id) && h in s.handlers && h !in dead && s.handlers[h].notice.pmsId == id
    requires s.handlers[h].pc == SecondLook || s.handlers[h].pc == MarkPaid
    ensures AllowedRun(s, events, id, dead) && IsPaid(Run(s, events, id, dead), id)
  {
    var move := Moves(h, false, 0);
    var s1 := Next(s, move);
    if s.handlers[h].pc == MarkPaid {
      events := [move];
      assert events[1..] == [];
      assert AllowedRun(s1, events[1..], id, dead) && Run(s1, events[1..], id, dead) == s1;
    } else {
      var s2 := Next(s1, move);
      events := [move, move];
      assert events[1..] == [move] && events[1..][1..] == [];
      assert AllowedRun(s2, [], id, dead) && Run(s2, [], id, dead) == s2;
      assert AllowedRun(s1, [move], id, dead) && Run(s1, [move], id, dead) == s2;
    }
  }

  ghost predicate PaysBy(s: System, events: seq<Event>, id: PmsId, dead: set<nat>) {
    AllowedRun(s, events, id, dead) && IsPaid(Run(s, events, id, dead), id)
  }

  /** Once the requests about a session are saved, the session can still become paid if and only if a living handler stands
      between its second look and mark_paid. If none does, every further delivery is answered and changes nothing for it. */
  lemma PaidLaterExactly(s: System, id: PmsId, dead: set<nat>)
    requires id in s.pms.sessions && !IsPaid(s, id) && AllSaved(s, id)
    ensures (exists events :: PaysBy(s, events, id, dead)) <==> StillMarks(s, id, dead)
  {
    if StillMarks(s, id, dead) {
      var h :| h in s.handlers && h !in dead && s.handlers[h].notice.pmsId == id && (s.handlers[h].pc == SecondLook || s.handlers[h].pc == MarkPaid);
      var events := MarksNow(s, id, dead, h);
      assert PaysBy(s, events, id, dead);
    } else {
      forall events ensures !PaysBy(s, events, id, dead) {
        if AllowedRun(s, events, id, dead) {
          StuckRun(s, events, id, dead);
        }
      }
    }
  }

  /** A delivery whose request is saved is answered at once, and the backend then forgets it. */
  lemma RepeatIsAnswered(s: System, h: nat, n: Notice, at: Time)
    requires h !in s.handlers && n.key in s.pms.requests
    ensures var arrived := Next(s, Arrives(h, n));
            Possible(arrived, Moves(h, false, at)) && Next(arrived, Moves(h, false, at)) == s.(handlers := s.handlers[h := Handler(n, Done(true))])
  {
    var arrived := Next(s, Arrives(h, n));
    assert arrived.handlers[h := Handler(n, Done(true))] == s.handlers[h := Handler(n, Done(true))];
  }

  // ----- when the cache starts to lie

  /** Whoever the cache calls paid is a paid session of that slot. */
  ghost predicate Honest(p: Pms) {
    forall s | s in p.cache ::
      p.cache[s].pmsId in p.sessions && p.sessions[p.cache[s].pmsId].slot == s && (p.cache[s].status == Paid ==> p.sessions[p.cache[s].pmsId].status == Paid)
  }

  /** The handler is about to mark the entry of a session that is not paid: another car's, which has taken the slot since. */
  ghost predicate MarksAnother(s: System, e: Event) {
    && e.Moves? && e.handler in s.handlers && !e.fault && s.handlers[e.handler].pc == UpdateCache
    && var id := s.handlers[e.handler].notice.pmsId;
       && id in s.pms.sessions && s.pms.sessions[id].slot in s.pms.cache
       && var cached := s.pms.cache[s.pms.sessions[id].slot].pmsId;
          cached in s.pms.sessions && s.pms.sessions[cached].status != Paid
  }

  /** However deliveries, entries and exits interleave, an honest cache stays honest if and only if no such mark is made. */
  lemma HonestExactly(s: System, e: Event)
    requires Honest(s.pms) && Possible(s, e)
    ensures Honest(Next(s, e).pms) <==> !MarksAnother(s, e)
  {
    match e
    case Moves(h, fault, at) => HonestMove(s.pms, s.handlers[h].notice, s.handlers[h].pc, fault, at);
    case _ =>
  }

  lemma HonestMove(p: Pms, n: Notice, pc: Pc, fault: bool, at: Time)
    requires Honest(p)
    ensures Honest(Moved(p, n, pc, fault, at).0) <==>
              !(pc == UpdateCache && !fault && n.pmsId in p.sessions && p.sessions[n.pmsId].slot in p.cache
                && p.sessions[p.cache[p.sessions[n.pmsId].slot].pmsId].status != Paid)
  {
    if pc == UpdateCache && !fault && n.pmsId in p.sessions && p.sessions[n.pmsId].slot in p.cache {
      assert p.sessions[n.pmsId].slot in Moved(p, n, pc, fault, at).0.cache;
    }
  }

  /** While the cache is honest the exit lane opens for paid sessions only. */
  lemma HonestExit(p: Pms, slot: Slot, paid: Option<PmsId>, at: Time)
    requires Honest(p) && (slot !in p.cache ==> WithStatusAt(p.sessions, slot, Paid, paid))
    ensures var r := LprExit(p, slot, paid, at).1;
            r != ExitRaised && (r.Opened? ==> p.sessions[r.id].status == Paid && p.sessions[r.id].slot == slot)
  {
  }

  // ----- two runs

  ghost predicate PossibleRun(s: System, events: seq<Event>)
    decreases |events|, 0
  {
    |events| > 0 ==> PossibleRun(s, events[..|events| - 1]) && Possible(RunFrom(s, events[..|events| - 1]), events[|events| - 1])
  }

  ghost function RunFrom(s: System, events: seq<Event>): System
    requires PossibleRun(s, events)
    decreases |events|, 1
  {
    if events == [] then s else Next(RunFrom(s, events[..|events| - 1]), events[|events| - 1])
  }

  function Empty(rate: nat): System {
    System(Pms(map[], map[], map[], map[], [], rate), map[])
  }

  ghost predicate Reached(s: System) {
    exists rate, events :: PossibleRun(Empty(rate), events) && s == RunFrom(Empty(rate), events)
  }

  lemma Step(s: System, e: Event) returns (t: System)
    requires Reached(s) && Possible(s, e)
    ensures Reached(t) && t == Next(s, e)
  {
    var rate, events :| PossibleRun(Empty(rate), events) && s == RunFrom(Empty(rate), events);
    assert (events + [e])[..|events|] == events;
    assert PossibleRun(Empty(rate), events + [e]) && RunFrom(Empty(rate), events + [e]) == Next(s, e);
    t := Next(s, e);
  }

  const GATE := Slot(1, 1)

  function Parked(entry: Time): PmsSession {
    PmsSession(GATE, entry, Active, None)
  }

  function Cached(id: PmsId, entry: Time): CacheEntry {
    CacheEntry(id, entry, Active, entry + SESSION_TTL_SECONDS)
  }

  function WithCar(rate: nat): Pms {
    Pms(map[1 := Parked(0)], map[], map[GATE := Cached(1, 0)], map[], [], rate)
  }

  lemma CarParks(rate: nat) returns (s: System)
    ensures Reached(s) && s == System(WithCar(rate), map[])
  {
    assert PossibleRun(Empty(rate), []) && RunFrom(Empty(rate), []) == Empty(rate);
    s := Step(Empty(rate), Enters(GATE, 0, 1, None, 0));
  }

  /** A notice arrives and is looked up. */
  lemma LooksUp(s: System, h: nat, n: Notice) returns (t: System)
    requires Reached(s) && h !in s.handlers
    ensures Reached(t) && t == s.(handlers := s.handlers[h := Handler(n, if n.key in s.pms.requests then Done(true) else SecondLook)])
  {
    var arrived := Step(s, Arrives(h, n));
    t := Step(arrived, Moves(h, false, 0));
    assert t.handlers == s.handlers[h := t.handlers[h]];
  }

  lemma MovesTo(s: System, h: nat, at: Time) returns (t: System)
    requires Reached(s) && h in s.handlers
    ensures var (p, pc) := Moved(s.pms, s.handlers[h].notice, s.handlers[h].pc, false, at);
            Reached(t) && t == System(p, s.handlers[h := Handler(s.handlers[h].notice, pc)])
  {
    t := Step(s, Moves(h, false, at));
  }

  /** A handler dies after saving the request: the next delivery is answered, the session stays active for good, and the car
      is not let out. */
  lemma SavedButNeverPaid(n: Notice, rate: nat) returns (s: System)
    requires n.pmsId == 1
    ensures Reached(s) && Stuck(s, 1, {1}) && n.key in s.pms.requests && s.pms.sessions[1].status == Active
    ensures 2 in s.handlers && s.handlers[2] == Handler(n, Done(true)) && LprExit(s.pms, GATE, None, 0).1 == NotPaid
  {
    var parked := CarParks(rate);
    var looked := LooksUp(parked, 1, n);
    var inserting := MovesTo(looked, 1, 0);
    var saved := MovesTo(inserting, 1, 0);
    s := LooksUp(saved, 2, n);
  }

  /** Two deliveries of one notice; the slower one passes its second look, and marks the session only after the car has left and
      another has taken its place: the other car is let out without any payment request. */
  lemma SlowDeliveryLetsOut(n: Notice, rate: nat) returns (s: System)
    requires n.pmsId == 1
    ensures Reached(s) && OnExit(2) in s.pms.openings && forall k | k in s.pms.requests :: s.pms.requests[k] == n
  {
    var parked := CarParks(rate);
    var one := LooksUp(parked, 1, n);
    var both := LooksUp(one, 2, n);
    var paid := FirstFinishes(both, n, rate);
    var waiting := MovesTo(paid, 2, 0);
    s := OtherCar(waiting, n, rate);
  }

  function PaidPms(n: Notice, rate: nat): Pms {
    Pms(map[1 := Parked(0).(status := Paid)], map[n.key := n], map[GATE := Cached(1, 0).(status := Paid)], map[], [OnPayment(1)], rate)
  }

  lemma FirstFinishes(s: System, n: Notice, rate: nat) returns (t: System)
    requires Reached(s) && n.pmsId == 1 && s == System(WithCar(rate), map[1 := Handler(n, SecondLook), 2 := Handler(n, SecondLook)])
    ensures Reached(t) && t == System(PaidPms(n, rate), map[1 := Handler(n, Done(true)), 2 := Handler(n, SecondLook)])
  {
    var inserting := MovesTo(s, 1, 0);
    var saved := MovesTo(inserting, 1, 0);
    assert saved.pms == WithCar(rate).(requests := map[n.key := n]);
    var marked := MovesTo(saved, 1, 0);
    t := MarkedFinishes(marked, n, rate);
  }

  lemma MarkedFinishes(s: System, n: Notice, rate: nat) returns (t: System)
    requires Reached(s) && n.pmsId == 1 && s.handlers == map[1 := Handler(n, UpdateCache), 2 := Handler(n, SecondLook)]
    requires s.pms == WithCar(rate).(requests := map[n.key := n], sessions := map[1 := Parked(0).(status := Paid)])
    ensures Reached(t) && t == System(PaidPms(n, rate), map[1 := Handler(n, Done(true)), 2 := Handler(n, SecondLook)])
  {
    var cached := MovesTo(s, 1, 0);
    assert cached.pms.cache == map[GATE := Cached(1, 0).(status := Paid)];
    t := MovesTo(cached, 1, 0);
  }

  lemma OtherCar(s: System, n: Notice, rate: nat) returns (t: System)
    requires Reached(s) && n.pmsId == 1 && s == System(PaidPms(n, rate), map[1 := Handler(n, Done(true)), 2 := Handler(n, MarkPaid)])
    ensures Reached(t) && OnExit(2) in t.pms.openings && t.pms.requests == s.pms.requests
  {
    var left := Step(s, Leaves(GATE, None, 0));
    assert left.pms.sessions == map[1 := PmsSession(GATE, 0, Exited, Some(0))] && left.pms.cache == map[];
    var taken := Step(left, Enters(GATE, 60, 2, None, 60));
    assert taken.pms.cache == map[GATE := Cached(2, 60)];
    t := SlowOneMarks(taken, n);
  }

  lemma SlowOneMarks(s: System, n: Notice) returns (t: System)
    requires Reached(s) && n.pmsId == 1 && 2 in s.handlers && s.handlers[2] == Handler(n, MarkPaid)
    requires 1 in s.pms.sessions && 2 in s.pms.sessions && s.pms.sessions[1].slot == GATE && s.pms.cache == map[GATE := Cached(2, 60)]
    ensures Reached(t) && OnExit(2) in t.pms.openings && t.pms.requests == s.pms.requests
  {
    var marked := MovesTo(s, 2, 60);
    var cached := MovesTo(marked, 2, 60);
    assert cached.pms.cache[GATE].status == Paid && cached.pms.cache[GATE].pmsId == 2;
    t := Step(cached, Leaves(GATE, None, 60));
    assert t.pms.openings[|t.pms.openings| - 1] == OnExit(2);
  }
}
