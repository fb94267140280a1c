/**
  The circuit breaker shared by any number of tasks (crates/messaging/src/circuit_breaker.rs).

  Each lock acquisition, each access under a lock, each release and each atomic operation is its own
  step, tasks interleave in any order, and waiting lock requests are granted in any order. The state is
  read under one acquisition and written under a later one, so a task may act on a state that is gone.
 */
module BreakerTasks {
  import opened Types
  import opened Breaker

  /** The shared cell, and three histories: failures recorded, Open written, and whether Closed was ever left. */
  datatype Cell = Cell(view: View, failures: nat, opens: nat, left: bool)

  datatype Pc =
    | Idle
    // allow_request
    | AllowWantState | AllowReadState | AllowWantTime | AllowReadTime
    | AllowWantWrite | AllowWrite | AllowWritten | AllowDone(allowed: bool)
    // record_success
    | SuccessCount | SuccessWantState | SuccessReadState
    | SuccessWantWrite | SuccessWrite | SuccessClosed | SuccessCleared
    // record_failure
    | FailureCount | FailureStamp(count: U32) | FailureWantTime(count: U32, stamp: nat)
    | FailureWriteTime(count: U32, stamp: nat) | FailureStamped(count: U32)
    | FailureWantState(count: U32) | FailureReadState(count: U32)
    | FailureWantWrite | FailureWrite | FailureOpened | FailureTripped
    // reset
    | ResetWantWrite | ResetWrite | ResetClosed | ResetCleared

  datatype Call = AllowCall | SuccessCall | FailureCall | ResetCall

  datatype State = State(cell: Cell, tasks: seq<Pc>)

  datatype Event = Begin(task: nat, call: Call) | Step(task: nat, now: nat)

  // --- the locks: who holds and who waits is visible in the program counters ---

  predicate ReadsState(pc: Pc) {
    pc.AllowReadState? || pc.SuccessReadState? || pc.FailureReadState?
  }

  predicate WritesState(pc: Pc) {
    || pc.AllowWrite? || pc.AllowWritten?
    || pc.SuccessWrite? || pc.SuccessClosed? || pc.SuccessCleared?
    || pc.FailureWrite? || pc.FailureOpened? || pc.FailureTripped?
    || pc.ResetWrite? || pc.ResetClosed? || pc.ResetCleared?
  }

  predicate ReadsTime(pc: Pc) {
    pc.AllowReadTime?
  }

  predicate WritesTime(pc: Pc) {
    pc.FailureWriteTime? || pc.FailureStamped?
  }

  predicate WantsStateRead(pc: Pc) {
    pc.AllowWantState? || pc.SuccessWantState? || pc.FailureWantState?
  }

  predicate WantsStateWrite(pc: Pc) {
    pc.AllowWantWrite? || pc.SuccessWantWrite? || pc.FailureWantWrite? || pc.ResetWantWrite?
  }

  predicate WantsTimeRead(pc: Pc) {
    pc.AllowWantTime?
  }

  predicate WantsTimeWrite(pc: Pc) {
    pc.FailureWantTime?
  }

  predicate Waits(pc: Pc) {
    WantsStateRead(pc) || WantsStateWrite(pc) || WantsTimeRead(pc) || WantsTimeWrite(pc)
  }

  predicate Holds(pc: Pc) {
    ReadsState(pc) || WritesState(pc) || ReadsTime(pc) || WritesTime(pc)
  }

  /** A read lock is compatible with other readers, a write lock with nobody. */
  predicate Granted(pc: Pc, tasks: seq<Pc>) {
    forall j :: 0 <= j < |tasks| ==>
                  && (WantsStateRead(pc) ==> !WritesState(tasks[j]))
                  && (WantsStateWrite(pc) ==> !WritesState(tasks[j]) && !ReadsState(tasks[j]))
                  && (WantsTimeRead(pc) ==> !WritesTime(tasks[j]))
                  && (WantsTimeWrite(pc) ==> !WritesTime(tasks[j]) && !ReadsTime(tasks[j]))
  }

  // --- the program ---

  function Start(call: Call): Pc {
    match call
    case AllowCall => AllowWantState
    case SuccessCall => SuccessCount
    case FailureCall => FailureCount
    case ResetCall => ResetWantWrite
  }

  /** Where a step leads, given what the shared cell shows now. */
  function Next(policy: Policy, view: View, pc: Pc, now: nat): Pc {
    match pc
    case Idle => Idle
    case AllowWantState => AllowReadState
    case AllowReadState => if view.state == Open then AllowWantTime else AllowDone(true)
    case AllowWantTime => AllowReadTime
    case AllowReadTime => if TimedOut(policy, view.lastFailure, now) then AllowWantWrite else AllowDone(false)
    case AllowWantWrite => AllowWrite
    case AllowWrite => AllowWritten
    case AllowWritten => AllowDone(true)
    case AllowDone(_) => Idle
    case SuccessCount => SuccessWantState
    case SuccessWantState => SuccessReadState
    case SuccessReadState => if view.state == HalfOpen then SuccessWantWrite else Idle
    case SuccessWantWrite => SuccessWrite
    case SuccessWrite => SuccessClosed
    case SuccessClosed => SuccessCleared
    case SuccessCleared => Idle
    case FailureCount => FailureStamp(Bump32(view.failureCount))
    case FailureStamp(count) => FailureWantTime(count, now)
    case FailureWantTime(count, stamp) => FailureWriteTime(count, stamp)
    case FailureWriteTime(count, _) => FailureStamped(count)
    case FailureStamped(count) => FailureWantState(count)
    case FailureWantState(count) => FailureReadState(count)
    case FailureReadState(count) =>
      if view.state == HalfOpen || (view.state == Closed && count >= policy.failureThreshold) then FailureWantWrite else Idle
    case FailureWantWrite => FailureWrite
    case FailureWrite => FailureOpened
    case FailureOpened => FailureTripped
    case FailureTripped => Idle
    case ResetWantWrite => ResetWrite
    case ResetWrite => ResetClosed
    case ResetClosed => ResetCleared
    case ResetCleared => Idle
  }

  /** What a step writes to the shared cell. */
  function Effect(cell: Cell, pc: Pc): Cell {
    var view := cell.view;
    match pc
    case AllowWrite => cell.(view := view.(state := HalfOpen), left := true)
    case SuccessCount => cell.(view := view.(successCount := Bump32(view.successCount)))
    case SuccessWrite => cell.(view := view.(state := Closed))
    case SuccessClosed => cell.(view := view.(failureCount := 0))
    case FailureCount => cell.(view := view.(failureCount := Bump32(view.failureCount)), failures := cell.failures + 1)
    case FailureWriteTime(_, stamp) => cell.(view := view.(lastFailure := Some(stamp)))
    case FailureWrite => cell.(view := view.(state := Open), opens := cell.opens + 1, left := true)
    case FailureOpened => cell.(view := view.(totalTrips := Bump64(view.totalTrips)))
    case ResetWrite => cell.(view := view.(state := Closed))
    case ResetClosed => cell.(view := view.(failureCount := 0))
    case _ => cell
  }

  predicate Enabled(s: State, event: Event) {
    event.task < |s.tasks| &&
    match event
    case Begin(i, _) => s.tasks[i].Idle?
    case Step(i, _) => !s.tasks[i].Idle? && Granted(s.tasks[i], s.tasks)
  }

  function Apply(policy: Policy, s: State, event: Event): State
    requires Enabled(s, event)
  {
    match event
    case Begin(i, call) => s.(tasks := s.tasks[i := Start(call)])
    case Step(i, now) =>
      var pc := s.tasks[i];
      State(Effect(s.cell, pc), s.tasks[i := Next(policy, s.cell.view, pc, now)])
  }

  ghost predicate Run(policy: Policy, s: State, events: seq<Event>, t: State)
    decreases |events|
  {
    if events == [] then s == t
    else Enabled(s, events[0]) && Run(policy, Apply(policy, s, events[0]), events[1..], t)
  }

  function Init(tasks: nat): State {
    State(Cell(INITIAL, 0, 0, false), seq(tasks, _ => Idle))
  }

  ghost predicate Reachable(policy: Policy, s: State) {
    exists tasks: nat, events: seq<Event> :: Run(policy, Init(tasks), events, s)
  }

  // ---------------------------------------------------------------------------------------------
  // Which invariants survive
  // ---------------------------------------------------------------------------------------------

  ghost predicate Exclusive(tasks: seq<Pc>) {
    && (forall i, j :: 0 <= i < |tasks| && 0 <= j < |tasks| && i != j && WritesState(tasks[i]) ==>
                         !WritesState(tasks[j]) && !ReadsState(tasks[j]))
    && (forall i, j :: 0 <= i < |tasks| && 0 <= j < |tasks| && i != j && WritesTime(tasks[i]) ==>
                         !WritesTime(tasks[j]) && !ReadsTime(tasks[j]))
  }

  /** Once a failure is stamped the stamp is set for good. */
  predicate PastStamp(pc: Pc) {
    || pc.FailureStamped? || pc.FailureWantState? || pc.FailureReadState?
    || pc.FailureWantWrite? || pc.FailureWrite?
    || pc.AllowWantTime? || pc.AllowReadTime? || pc.AllowWantWrite? || pc.AllowWrite?
  }

  predicate HasCount(pc: Pc) {
    || pc.FailureStamp? || pc.FailureWantTime? || pc.FailureWriteTime? || pc.FailureStamped?
    || pc.FailureWantState? || pc.FailureReadState?
  }

  /** About to write HalfOpen or Open: on its way there since it saw Open, or HalfOpen, or the threshold. */
  predicate AboutToLeave(pc: Pc) {
    || pc.AllowWantTime? || pc.AllowReadTime? || pc.AllowWantWrite? || pc.AllowWrite?
    || pc.FailureWantWrite? || pc.FailureWrite?
  }

  ghost predicate TaskOk(policy: Policy, cell: Cell, pc: Pc) {
    && (PastStamp(pc) ==> cell.view.lastFailure.Some?)
    && (HasCount(pc) ==> pc.count <= cell.failures)
    && (AboutToLeave(pc) || pc == AllowDone(false) ==> cell.failures >= policy.failureThreshold)
  }

  ghost predicate CellOk(policy: Policy, cell: Cell) {
    && (cell.view.state != Closed ==> cell.view.lastFailure.Some? && cell.left)
    && (cell.left ==> cell.failures >= policy.failureThreshold)
    && cell.view.failureCount <= cell.failures
  }

  ghost predicate SomeUncounted(tasks: seq<Pc>) {
    exists i :: 0 <= i < |tasks| && tasks[i].FailureOpened?
  }

  /** Every Open written is counted, but for one whose writer has not reached the counter yet. */
  ghost predicate TripsOk(s: State) {
    if SomeUncounted(s.tasks) then s.cell.opens >= 1 && s.cell.view.totalTrips == (s.cell.opens - 1) % U64_RANGE
    else s.cell.view.totalTrips == s.cell.opens % U64_RANGE
  }

  ghost predicate Inv(policy: Policy, s: State) {
    && Exclusive(s.tasks)
    && CellOk(policy, s.cell)
    && (forall i :: 0 <= i < |s.tasks| ==> TaskOk(policy, s.cell, s.tasks[i]))
    && TripsOk(s)
  }

  /** A lock is only ever held by a task that held it before or has just been granted it. */
  ghost predicate Requested(pc: Pc, next: Pc) {
    && (WritesState(next) ==> WritesState(pc) || WantsStateWrite(pc))
    && (ReadsState(next) ==> ReadsState(pc) || WantsStateRead(pc))
    && (WritesTime(next) ==> WritesTime(pc) || WantsTimeWrite(pc))
    && (ReadsTime(next) ==> ReadsTime(pc) || WantsTimeRead(pc))
  }

  lemma LocksAreRequested(policy: Policy, view: View, pc: Pc, now: nat)
    ensures Requested(pc, Next(policy, view, pc, now))
  {}

  lemma ExclusiveUpdate(tasks: seq<Pc>, i: nat, next: Pc)
    requires i < |tasks| && Exclusive(tasks) && Granted(tasks[i], tasks) && Requested(tasks[i], next)
    ensures Exclusive(tasks[i := next])
  {
    var after := tasks[i := next];
    forall j | 0 <= j < |tasks| && j != i
      ensures WritesState(next) ==> !WritesState(tasks[j]) && !ReadsState(tasks[j])
      ensures WritesState(tasks[j]) ==> !WritesState(next) && !ReadsState(next)
    {
      assert WritesState(tasks[j]) ==> !WritesState(tasks[i]) && !ReadsState(tasks[i]);
    }
    forall j | 0 <= j < |tasks| && j != i
      ensures WritesTime(next) ==> !WritesTime(tasks[j]) && !ReadsTime(tasks[j])
      ensures WritesTime(tasks[j]) ==> !WritesTime(next) && !ReadsTime(next)
    {
      assert WritesTime(tasks[j]) ==> !WritesTime(tasks[i]) && !ReadsTime(tasks[i]);
    }
  }

  lemma ExclusiveStep(policy: Policy, s: State, event: Event)
    requires Exclusive(s.tasks) && Enabled(s, event)
    ensures Exclusive(Apply(policy, s, event).tasks)
  {
    var i := event.task;
    if event.Step? {
      var next := Next(policy, s.cell.view, s.tasks[i], event.now);
      LocksAreRequested(policy, s.cell.view, s.tasks[i], event.now);
      ExclusiveUpdate(s.tasks, i, next);
    } else {
      ExclusiveUpdate(s.tasks, i, Start(event.call));
    }
  }

  lemma CellStep(policy: Policy, cell: Cell, pc: Pc, now: nat)
    requires CellOk(policy, cell) && TaskOk(policy, cell, pc)
    ensures CellOk(policy, Effect(cell, pc))
    ensures TaskOk(policy, Effect(cell, pc), Next(policy, cell.view, pc, now))
  {}

  /** What one task writes never falsifies what another relies on. */
  lemma OtherTaskOk(policy: Policy, cell: Cell, pc: Pc, other: Pc)
    requires TaskOk(policy, cell, other)
    ensures TaskOk(policy, Effect(cell, pc), other)
  {}

  lemma TripsStep(policy: Policy, s: State, event: Event)
    requires Exclusive(s.tasks) && TripsOk(s) && Enabled(s, event)
    ensures TripsOk(Apply(policy, s, event))
  {
    var t := Apply(policy, s, event);
    var i := event.task;
    if event.Step? && s.tasks[i].FailureWrite? {
      assert t.tasks[i].FailureOpened?;
    } else if event.Step? && s.tasks[i].FailureOpened? {
      WrappedSuccessor(s.cell.opens - 1);
      forall j | 0 <= j < |t.tasks| ensures !t.tasks[j].FailureOpened? {
        assert j != i ==> !WritesState(s.tasks[j]);
      }
    } else if SomeUncounted(s.tasks) {
      var j :| 0 <= j < |s.tasks| && s.tasks[j].FailureOpened?;
      assert t.tasks[j].FailureOpened?;
    }
  }

  lemma InvStep(policy: Policy, s: State, event: Event)
    requires Inv(policy, s) && Enabled(s, event)
    ensures Inv(policy, Apply(policy, s, event))
  {
    ExclusiveStep(policy, s, event);
    TripsStep(policy, s, event);
    var t := Apply(policy, s, event);
    var pc := s.tasks[event.task];
    if event.Step? {
      CellStep(policy, s.cell, pc, event.now);
      forall j | 0 <= j < |t.tasks| ensures TaskOk(policy, t.cell, t.tasks[j]) {
        OtherTaskOk(policy, s.cell, pc, s.tasks[j]);
      }
    }
  }

  lemma {:induction false} InvRun(policy: Policy, s: State, events: seq<Event>, t: State)
    requires Inv(policy, s) && Run(policy, s, events, t)
    ensures Inv(policy, t)
    decreases |events|
  {
    if events != [] {
      InvStep(policy, s, events[0]);
      InvRun(policy, Apply(policy, s, events[0]), events[1..], t);
    }
  }

  lemma InvReachable(policy: Policy, s: State)
    requires Reachable(policy, s)
    ensures Inv(policy, s)
  {
    var tasks: nat, events: seq<Event> :| Run(policy, Init(tasks), events, s);
    assert Inv(policy, Init(tasks));
    InvRun(policy, Init(tasks), events, s);
  }

  /** A breaker that is not Closed has a failure time, in every interleaving. */
  lemma NotClosedHasFailureTime(policy: Policy, s: State)
    requires Reachable(policy, s) && s.cell.view.state != Closed
    ensures s.cell.view.lastFailure.Some?
  {
    InvReachable(policy, s);
  }

  /** However stale the reads, Closed is never left before as many failures were recorded as the threshold asks. */
  lemma NeverTripsEarly(policy: Policy, s: State)
    requires Reachable(policy, s) && (s.cell.left || s.cell.view.state != Closed)
    ensures s.cell.failures >= policy.failureThreshold
  {
    InvReachable(policy, s);
  }

  /** Nor is any request refused before that, in any interleaving. */
  lemma NeverRefusesEarly(policy: Policy, s: State, i: nat)
    requires Reachable(policy, s) && i < |s.tasks| && s.tasks[i] == AllowDone(false)
    ensures s.cell.failures >= policy.failureThreshold
  {
    InvReachable(policy, s);
  }

  /** The histories count what they say: each recorded failure, each write of Open, and whether Closed was ever written over. */
  lemma HistoriesCount(policy: Policy, s: State, event: Event)
    requires Enabled(s, event)
    ensures var t, pc := Apply(policy, s, event), if event.Step? then s.tasks[event.task] else Idle;
            && t.cell.failures == s.cell.failures + Indicator(pc.FailureCount?)
            && t.cell.opens == s.cell.opens + Indicator(pc.FailureWrite?)
            && (t.cell.left <==> s.cell.left || pc.FailureWrite? || pc.AllowWrite?)
            && (s.cell.view.state != Open && t.cell.view.state == Open ==> t.cell.opens == s.cell.opens + 1)
  {}

  /** A lock is granted for reading exactly while nobody writes, and for writing exactly while nobody holds it. */
  lemma LocksExactly(pc: Pc, tasks: seq<Pc>)
    ensures WantsStateRead(pc) ==> (Granted(pc, tasks) <==> forall j :: 0 <= j < |tasks| ==> !WritesState(tasks[j]))
    ensures WantsStateWrite(pc) ==>
              (Granted(pc, tasks) <==> forall j :: 0 <= j < |tasks| ==> !WritesState(tasks[j]) && !ReadsState(tasks[j]))
    ensures WantsTimeRead(pc) ==> (Granted(pc, tasks) <==> forall j :: 0 <= j < |tasks| ==> !WritesTime(tasks[j]))
    ensures WantsTimeWrite(pc) ==>
              (Granted(pc, tasks) <==> forall j :: 0 <= j < |tasks| ==> !WritesTime(tasks[j]) && !ReadsTime(tasks[j]))
    ensures !Waits(pc) ==> Granted(pc, tasks)
  {}

  /** A request that saw Open is decided by the failure time it then reads: refused exactly within the timeout of it. */
  lemma TimeReadDecides(policy: Policy, s: State, i: nat, now: nat)
    requires Reachable(policy, s) && i < |s.tasks| && s.tasks[i].AllowReadTime? && Enabled(s, Step(i, now))
    ensures s.cell.view.lastFailure.Some?
    ensures var failure, next := s.cell.view.lastFailure.value, Apply(policy, s, Step(i, now)).tasks[i];
            if policy.resetTimeout > 0 && now < failure + policy.resetTimeout then next == AllowDone(false)
            else next == AllowWantWrite
  {
    InvReachable(policy, s);
  }

  /** Whenever nobody is inside the state lock for writing, every write of Open has been counted once. */
  lemma TripsCountOpens(policy: Policy, s: State)
    requires Reachable(policy, s) && forall i :: 0 <= i < |s.tasks| ==> !WritesState(s.tasks[i])
    ensures s.cell.view.totalTrips == s.cell.opens % U64_RANGE
  {
    InvReachable(policy, s);
  }

  // ---------------------------------------------------------------------------------------------
  // No deadlock, and every operation ends
  // ---------------------------------------------------------------------------------------------

  /** No task waits for a lock while it holds one. */
  lemma WaitersHoldNothing(pc: Pc)
    ensures !(Waits(pc) && Holds(pc))
  {}

  ghost predicate CanStep(s: State, i: nat) {
    i < |s.tasks| && !s.tasks[i].Idle? && Granted(s.tasks[i], s.tasks)
  }

  /**
    Either a task that is not waiting can go on, or no lock is held at all and then every waiting
    task can be granted: no queueing discipline among the waiters can deadlock.
   */
  lemma DeadlockFree(s: State, i: nat)
    requires i < |s.tasks| && !s.tasks[i].Idle?
    ensures (exists j: nat :: CanStep(s, j) && !Waits(s.tasks[j]))
            || (forall j :: 0 <= j < |s.tasks| ==> !Holds(s.tasks[j]) && (!s.tasks[j].Idle? ==> CanStep(s, j)))
  {
    if j: nat :| j < |s.tasks| && !s.tasks[j].Idle? && !Waits(s.tasks[j]) {
      assert CanStep(s, j);
    } else {
      forall j | 0 <= j < |s.tasks| ensures !Holds(s.tasks[j]) {
        WaitersHoldNothing(s.tasks[j]);
      }
    }
  }

  function Rank(pc: Pc): nat {
    match pc
    case Idle => 0
    case AllowWantState => 8 case AllowReadState => 7 case AllowWantTime => 6 case AllowReadTime => 5
    case AllowWantWrite => 4 case AllowWrite => 3 case AllowWritten => 2 case AllowDone(_) => 1
    case SuccessCount => 7 case SuccessWantState => 6 case SuccessReadState => 5
    case SuccessWantWrite => 4 case SuccessWrite => 3 case SuccessClosed => 2 case SuccessCleared => 1
    case FailureCount => 11 case FailureStamp(_) => 10 case FailureWantTime(_, _) => 9 case FailureWriteTime(_, _) => 8
    case FailureStamped(_) => 7 case FailureWantState(_) => 6 case FailureReadState(_) => 5
    case FailureWantWrite => 4 case FailureWrite => 3 case FailureOpened => 2 case FailureTripped => 1
    case ResetWantWrite => 4 case ResetWrite => 3 case ResetClosed => 2 case ResetCleared => 1
  }

  function TotalRank(tasks: seq<Pc>): nat {
    if tasks == [] then 0 else Rank(tasks[0]) + TotalRank(tasks[1..])
  }

  lemma {:induction false} TotalRankUpdate(tasks: seq<Pc>, i: nat, pc: Pc)
    requires i < |tasks|
    ensures TotalRank(tasks[i := pc]) == TotalRank(tasks) - Rank(tasks[i]) + Rank(pc)
    decreases |tasks|
  {
    if i == 0 {
      assert tasks[i := pc][1..] == tasks[1..];
    } else {
      assert tasks[i := pc][1..] == tasks[1..][i - 1 := pc];
      TotalRankUpdate(tasks[1..], i - 1, pc);
    }
  }

  /** An operation takes at most eleven steps of its own, whatever the others do in between. */
  lemma StepsLower(policy: Policy, view: View, pc: Pc, now: nat)
    requires !pc.Idle?
    ensures Rank(Next(policy, view, pc, now)) < Rank(pc) <= 11
  {}

  /** So the operations under way finish within a bounded number of steps, in every interleaving. */
  lemma {:induction false} OperationsEnd(policy: Policy, s: State, events: seq<Event>, t: State)
    requires Run(policy, s, events, t) && forall k :: 0 <= k < |events| ==> events[k].Step?
    ensures |events| + TotalRank(t.tasks) <= TotalRank(s.tasks)
    decreases |events|
  {
    if events != [] {
      var i := events[0].task;
      StepsLower(policy, s.cell.view, s.tasks[i], events[0].now);
      TotalRankUpdate(s.tasks, i, Next(policy, s.cell.view, s.tasks[i], events[0].now));
      OperationsEnd(policy, Apply(policy, s, events[0]), events[1..], t);
    }
  }

  // ---------------------------------------------------------------------------------------------
  // Alone, an operation is what the sequential breaker says; together, it need not be
  // ---------------------------------------------------------------------------------------------

  /** Run one task's operation to its end with nobody else stepping. */
  function Alone(policy: Policy, cell: Cell, pc: Pc, now: nat): View
    decreases Rank(pc)
  {
    if pc.Idle? then cell.view
    else
      StepsLower(policy, cell.view, pc, now);
      Alone(policy, Effect(cell, pc), Next(policy, cell.view, pc, now), now)
  }

  function CallOf(op: Op): Call {
    match op
    case Allow(_) => AllowCall
    case Success => SuccessCall
    case Failure(_) => FailureCall
    case Reset => ResetCall
  }

  lemma AloneNext(policy: Policy, cell: Cell, pc: Pc, now: nat)
    requires !pc.Idle?
    ensures Alone(policy, cell, pc, now) == Alone(policy, Effect(cell, pc), Next(policy, cell.view, pc, now), now)
  {}

  /** What `allow_request` answers when nobody else steps. */
  function Answer(policy: Policy, cell: Cell, pc: Pc, now: nat): Option<bool>
    decreases Rank(pc)
  {
    if pc.Idle? then None
    else if pc.AllowDone? then Some(pc.allowed)
    else
      StepsLower(policy, cell.view, pc, now);
      Answer(policy, Effect(cell, pc), Next(policy, cell.view, pc, now), now)
  }

  lemma AnswerNext(policy: Policy, cell: Cell, pc: Pc, now: nat)
    requires !pc.Idle? && !pc.AllowDone?
    ensures Answer(policy, cell, pc, now) == Answer(policy, Effect(cell, pc), Next(policy, cell.view, pc, now), now)
  {}

  lemma AllowAnswers(policy: Policy, cell: Cell, now: nat)
    ensures Answer(policy, cell, AllowWantState, now) == Some(Allowed(policy, cell.view, now))
  {
    AnswerNext(policy, cell, AllowWantState, now);
    AnswerNext(policy, cell, AllowReadState, now);
    if cell.view.state == Open {
      AnswerNext(policy, cell, AllowWantTime, now);
      AnswerNext(policy, cell, AllowReadTime, now);
      if TimedOut(policy, cell.view.lastFailure, now) {
        AnswerNext(policy, cell, AllowWantWrite, now);
        AnswerNext(policy, cell, AllowWrite, now);
        AnswerNext(policy, Effect(cell, AllowWrite), AllowWritten, now);
      }
    }
  }

  lemma AllowAlone(policy: Policy, cell: Cell, now: nat)
    ensures Alone(policy, cell, AllowWantState, now) == After(policy, cell.view, Allow(now))
  {
    var timedOut := TimedOut(policy, cell.view.lastFailure, now);
    AloneNext(policy, cell, AllowWantState, now);
    AloneNext(policy, cell, AllowReadState, now);
    if cell.view.state == Open {
      AloneNext(policy, cell, AllowWantTime, now);
      AloneNext(policy, cell, AllowReadTime, now);
      if timedOut {
        var halfOpen := Effect(cell, AllowWrite);
        AloneNext(policy, cell, AllowWantWrite, now);
        AloneNext(policy, cell, AllowWrite, now);
        AloneNext(policy, halfOpen, AllowWritten, now);
        AloneNext(policy, halfOpen, AllowDone(true), now);
      } else {
        AloneNext(policy, cell, AllowDone(false), now);
      }
    } else {
      AloneNext(policy, cell, AllowDone(true), now);
    }
  }

  lemma SuccessAlone(policy: Policy, cell: Cell, now: nat)
    ensures Alone(policy, cell, SuccessCount, now) == After(policy, cell.view, Op.Success)
  {
    var counted := Effect(cell, SuccessCount);
    AloneNext(policy, cell, SuccessCount, now);
    AloneNext(policy, counted, SuccessWantState, now);
    AloneNext(policy, counted, SuccessReadState, now);
    if cell.view.state == HalfOpen {
      var closed := Effect(counted, SuccessWrite);
      AloneNext(policy, counted, SuccessWantWrite, now);
      AloneNext(policy, counted, SuccessWrite, now);
      AloneNext(policy, closed, SuccessClosed, now);
      AloneNext(policy, Effect(closed, SuccessClosed), SuccessCleared, now);
    }
  }

  lemma OpenAlone(policy: Policy, cell: Cell, now: nat)
    ensures Alone(policy, cell, FailureWantWrite, now) ==
            cell.view.(state := Open, totalTrips := Bump64(cell.view.totalTrips))
  {
    var open := Effect(cell, FailureWrite);
    AloneNext(policy, cell, FailureWantWrite, now);
    AloneNext(policy, cell, FailureWrite, now);
    AloneNext(policy, open, FailureOpened, now);
    AloneNext(policy, Effect(open, FailureOpened), FailureTripped, now);
  }

  lemma DecideAlone(policy: Policy, cell: Cell, count: U32, now: nat)
    ensures Alone(policy, cell, FailureWantState(count), now) ==
            if cell.view.state == HalfOpen || (cell.view.state == Closed && count >= policy.failureThreshold) then
              cell.view.(state := Open, totalTrips := Bump64(cell.view.totalTrips))
            else cell.view
  {
    AloneNext(policy, cell, FailureWantState(count), now);
    AloneNext(policy, cell, FailureReadState(count), now);
    OpenAlone(policy, cell, now);
  }

  lemma FailureAlone(policy: Policy, cell: Cell, now: nat)
    ensures Alone(policy, cell, FailureCount, now) == After(policy, cell.view, Failure(now))
  {
    var count := Bump32(cell.view.failureCount);
    var counted := Effect(cell, FailureCount);
    var stamped := Effect(counted, FailureWriteTime(count, now));
    AloneNext(policy, cell, FailureCount, now);
    AloneNext(policy, counted, FailureStamp(count), now);
    AloneNext(policy, counted, FailureWantTime(count, now), now);
    AloneNext(policy, counted, FailureWriteTime(count, now), now);
    AloneNext(policy, stamped, FailureStamped(count), now);
    DecideAlone(policy, stamped, count, now);
  }

  lemma ResetAlone(policy: Policy, cell: Cell, now: nat)
    ensures Alone(policy, cell, ResetWantWrite, now) == After(policy, cell.view, Reset)
  {
    var closed := Effect(cell, ResetWrite);
    AloneNext(policy, cell, ResetWantWrite, now);
    AloneNext(policy, cell, ResetWrite, now);
    AloneNext(policy, closed, ResetClosed, now);
    AloneNext(policy, Effect(closed, ResetClosed), ResetCleared, now);
  }

  /** An operation nobody interleaves with has exactly the sequential breaker's effect and answer. */
  lemma AloneIsSequential(policy: Policy, cell: Cell, op: Op, now: nat)
    requires op.Allow? || op.Failure? ==> op.now == now
    ensures Alone(policy, cell, Start(CallOf(op)), now) == After(policy, cell.view, op)
    ensures op.Allow? ==> Answer(policy, cell, Start(CallOf(op)), now) == Some(Allowed(policy, cell.view, now))
  {
    match op
    case Allow(_) =>
      AllowAlone(policy, cell, now);
      AllowAnswers(policy, cell, now);
    case Success => SuccessAlone(policy, cell, now);
    case Failure(_) => FailureAlone(policy, cell, now);
    case Reset => ResetAlone(policy, cell, now);
  }

  lemma {:induction false} RunExtends(policy: Policy, s: State, events: seq<Event>, t: State, event: Event)
    requires Run(policy, s, events, t) && Enabled(t, event)
    ensures Run(policy, s, events + [event], Apply(policy, t, event))
    decreases |events|
  {
    if events == [] {
      assert Run(policy, Apply(policy, s, event), [], Apply(policy, t, event));
    } else {
      RunExtends(policy, Apply(policy, s, events[0]), events[1..], t, event);
      assert (events + [event])[1..] == events[1..] + [event];
    }
  }

  lemma ReachableExtends(policy: Policy, s: State, event: Event)
    requires Reachable(policy, s) && Enabled(s, event)
    ensures Reachable(policy, Apply(policy, s, event))
  {
    var tasks: nat, events: seq<Event> :| Run(policy, Init(tasks), events, s);
    RunExtends(policy, Init(tasks), events, s, event);
  }

  /** The first of two tasks runs to the end of its operation while the second holds no lock. */
  lemma {:induction false} FinishFirst(policy: Policy, cell: Cell, first: Pc, second: Pc, now: nat) returns (done: Cell)
    requires Reachable(policy, State(cell, [first, second])) && !Holds(second)
    ensures Reachable(policy, State(done, [Idle, second])) && done.view == Alone(policy, cell, first, now)
    decreases Rank(first)
  {
    if first.Idle? {
      done := cell;
    } else {
      WaitersHoldNothing(first);
      ReachableExtends(policy, State(cell, [first, second]), Step(0, now));
      var next := Next(policy, cell.view, first, now);
      assert [first, second][0 := next] == [next, second];
      StepsLower(policy, cell.view, first, now);
      done := FinishFirst(policy, Effect(cell, first), next, second, now);
    }
  }

  lemma CallFirst(policy: Policy, cell: Cell, second: Pc, op: Op, now: nat) returns (done: Cell)
    requires Reachable(policy, State(cell, [Idle, second])) && !Holds(second)
    requires op.Allow? || op.Failure? ==> op.now == now
    ensures Reachable(policy, State(done, [Idle, second])) && done.view == After(policy, cell.view, op)
  {
    ReachableExtends(policy, State(cell, [Idle, second]), Begin(0, CallOf(op)));
    assert [Idle, second][0 := Start(CallOf(op))] == [Start(CallOf(op)), second];
    AloneIsSequential(policy, cell, op, now);
    done := FinishFirst(policy, cell, Start(CallOf(op)), second, now);
  }

  lemma StepSecond(policy: Policy, cell: Cell, second: Pc, now: nat)
    requires Reachable(policy, State(cell, [Idle, second])) && !second.Idle?
    ensures Reachable(policy, State(Effect(cell, second), [Idle, Next(policy, cell.view, second, now)]))
  {
    WaitersHoldNothing(second);
    ReachableExtends(policy, State(cell, [Idle, second]), Step(1, now));
    var next := Next(policy, cell.view, second, now);
    assert [Idle, second][1 := next] == [Idle, next];
  }

  /** With the breaker Open and the timeout over, the second task can come to the point of writing HalfOpen. */
  lemma SecondSeesOpen(policy: Policy, cell: Cell, now: nat)
    requires Reachable(policy, State(cell, [Idle, Idle]))
    requires cell.view.state == Open && TimedOut(policy, cell.view.lastFailure, now)
    ensures Reachable(policy, State(cell, [Idle, AllowWantWrite]))
  {
    ReachableExtends(policy, State(cell, [Idle, Idle]), Begin(1, AllowCall));
    assert [Idle, Idle][1 := AllowWantState] == [Idle, AllowWantState];
    StepSecond(policy, cell, AllowWantState, now);
    StepSecond(policy, cell, AllowReadState, now);
    StepSecond(policy, cell, AllowWantTime, now);
    StepSecond(policy, cell, AllowReadTime, now);
  }

  lemma TwoIdleTasks(policy: Policy) returns (cell: Cell)
    ensures cell.view == INITIAL && Reachable(policy, State(cell, [Idle, Idle]))
  {
    cell := Cell(INITIAL, 0, 0, false);
    assert Init(2) == State(cell, [Idle, Idle]);
    assert Run(policy, Init(2), [], Init(2));
  }

  /** Failures enough, one after the other, open the breaker under every policy. */
  lemma {:induction false} FailUntilOpen(policy: Policy, cell: Cell, now: nat) returns (open: Cell)
    requires Reachable(policy, State(cell, [Idle, Idle])) && cell.view.state == Closed
    requires cell.view.failureCount == 0 || cell.view.failureCount < policy.failureThreshold
    ensures Reachable(policy, State(open, [Idle, Idle])) && open.view.state == Open && open.view.lastFailure == Some(now)
    decreases policy.failureThreshold as int - cell.view.failureCount
  {
    var failed := CallFirst(policy, cell, Idle, Failure(now), now);
    if failed.view.state == Open {
      open := failed;
    } else {
      open := FailUntilOpen(policy, failed, now);
    }
  }

  /** Two tasks: one that saw Open and a timeout writes HalfOpen over a breaker the other has closed in the meantime. */
  lemma TwoTasksReopenClosed(policy: Policy, now: nat) returns (closed: Cell)
    ensures Reachable(policy, State(closed, [Idle, AllowWrite])) && closed.view.state == Closed
  {
    var later := now + policy.resetTimeout;
    var start := TwoIdleTasks(policy);
    var open := FailUntilOpen(policy, start, now);
    SecondSeesOpen(policy, open, later);
    closed := CallFirst(policy, open, AllowWantWrite, Reset, later);
    StepSecond(policy, closed, AllowWantWrite, later);
  }

  // ---------------------------------------------------------------------------------------------
  // The textbook diagram holds exactly when one task uses the breaker
  // ---------------------------------------------------------------------------------------------

  /** The transitions of the textbook breaker; `reset` leads to Closed from anywhere. */
  predicate Textbook(before: CircuitState, after: CircuitState, reset: bool) {
    || before == after
    || (before == Closed && after == Open)
    || (before == Open && after == HalfOpen)
    || (before == HalfOpen && after != HalfOpen)
    || (reset && after == Closed)
  }

  /** With `tasks` tasks the breaker can come to `s`, where `event` is possible and is no textbook transition. */
  ghost predicate Breaks(policy: Policy, tasks: nat, s: State, event: Event) {
    && Reachable(policy, s) && |s.tasks| == tasks && Enabled(s, event)
    && !Textbook(s.cell.view.state, Apply(policy, s, event).cell.view.state, s.tasks[event.task].ResetWrite?)
  }

  /** What a task saw before it wants to write is still so when nobody else has stepped. */
  predicate SawRightly(state: CircuitState, pc: Pc) {
    && (pc.AllowWantTime? || pc.AllowReadTime? || pc.AllowWantWrite? || pc.AllowWrite? ==> state == Open)
    && (pc.SuccessWantWrite? || pc.SuccessWrite? ==> state == HalfOpen)
    && (pc.FailureWantWrite? || pc.FailureWrite? ==> state != Open)
  }

  ghost predicate AloneOk(s: State) {
    |s.tasks| <= 1 && forall i :: 0 <= i < |s.tasks| ==> SawRightly(s.cell.view.state, s.tasks[i])
  }

  lemma AloneStep(policy: Policy, s: State, event: Event)
    requires AloneOk(s) && Enabled(s, event)
    ensures AloneOk(Apply(policy, s, event))
    ensures Textbook(s.cell.view.state, Apply(policy, s, event).cell.view.state, s.tasks[event.task].ResetWrite?)
  {}

  lemma {:induction false} TaskCountIsKept(policy: Policy, s: State, events: seq<Event>, t: State)
    requires Run(policy, s, events, t)
    ensures |t.tasks| == |s.tasks|
    decreases |events|
  {
    if events != [] {
      TaskCountIsKept(policy, Apply(policy, s, events[0]), events[1..], t);
    }
  }

  lemma {:induction false} AloneRun(policy: Policy, s: State, events: seq<Event>, t: State)
    requires AloneOk(s) && Run(policy, s, events, t)
    ensures AloneOk(t)
    decreases |events|
  {
    if events != [] {
      AloneStep(policy, s, events[0]);
      AloneRun(policy, Apply(policy, s, events[0]), events[1..], t);
    }
  }

  /** The same state with further tasks that never call anything. */
  function Beside(s: State, idle: nat): State {
    State(s.cell, s.tasks + seq(idle, _ => Idle))
  }

  lemma BesideStep(policy: Policy, s: State, event: Event, idle: nat)
    requires Enabled(s, event)
    ensures Enabled(Beside(s, idle), event)
    ensures Apply(policy, Beside(s, idle), event) == Beside(Apply(policy, s, event), idle)
  {}

  lemma {:induction false} RunBeside(policy: Policy, s: State, events: seq<Event>, t: State, idle: nat)
    requires Run(policy, s, events, t)
    ensures Run(policy, Beside(s, idle), events, Beside(t, idle))
    decreases |events|
  {
    if events != [] {
      BesideStep(policy, s, events[0], idle);
      RunBeside(policy, Apply(policy, s, events[0]), events[1..], t, idle);
    }
  }

  lemma ReachableBeside(policy: Policy, s: State, idle: nat)
    requires Reachable(policy, s)
    ensures Reachable(policy, Beside(s, idle))
  {
    var tasks: nat, events: seq<Event> :| Run(policy, Init(tasks), events, s);
    RunBeside(policy, Init(tasks), events, s, idle);
    assert Beside(Init(tasks), idle) == Init(tasks + idle);
  }

  /** As soon as there are two tasks, and under every policy, a stale read can take the breaker from Closed to HalfOpen. */
  lemma ClosedCanBecomeHalfOpen(policy: Policy, tasks: nat, now: nat) returns (s: State, event: Event)
    requires tasks >= 2
    ensures Reachable(policy, s) && |s.tasks| == tasks && Enabled(s, event)
    ensures s.cell.view.state == Closed && Apply(policy, s, event).cell.view.state == HalfOpen
    ensures Breaks(policy, tasks, s, event)
  {
    var closed := TwoTasksReopenClosed(policy, now);
    var two := State(closed, [Idle, AllowWrite]);
    event := Step(1, now);
    ReachableBeside(policy, two, tasks - 2);
    BesideStep(policy, two, event, tasks - 2);
    s := Beside(two, tasks - 2);
  }

  lemma OneTaskObeys(policy: Policy, tasks: nat, s: State, event: Event)
    requires tasks <= 1
    ensures !Breaks(policy, tasks, s, event)
  {
    if Reachable(policy, s) && |s.tasks| == tasks && Enabled(s, event) {
      var n: nat, events: seq<Event> :| Run(policy, Init(n), events, s);
      TaskCountIsKept(policy, Init(n), events, s);
      AloneRun(policy, Init(n), events, s);
      AloneStep(policy, s, event);
    }
  }

  /** Whatever the policy, the textbook diagram holds in every interleaving exactly when there are not two tasks to interleave. */
  lemma DiagramHoldsIffAlone(policy: Policy, tasks: nat)
    ensures (forall s, event :: !Breaks(policy, tasks, s, event)) <==> tasks <= 1
  {
    if tasks <= 1 {
      forall s, event ensures !Breaks(policy, tasks, s, event) {
        OneTaskObeys(policy, tasks, s, event);
      }
    } else {
      var s, event := ClosedCanBecomeHalfOpen(policy, tasks, 0);
      assert Breaks(policy, tasks, s, event);
    }
  }
}
