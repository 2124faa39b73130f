/** Early conflict detection is never wrong: a `Failure` raised by the library is final, and no
    thread goes to sleep on one. */
module Conflicts {
  import opened Values
  import opened Logs
  import opened Programs
  import opened RunFacts
  import opened Machine
  import opened Invariants
  import opened Safety
  import opened Commits
  import opened Publication
  import opened Serializability
  import opened Versions

  /** The variables `wait_for_change` has compared and found unchanged. */
  function Compared(ph: Phase): set<Addr> {
    match ph
    case Registering(_, _, reg) => reg
    case Checking(_, _, _, reg) => reg
    case _ => {}
  }

  predicate Asleep(ph: Phase) {
    ph.Polling? || ph.Parked?
  }

  /** The run was stopped because of variable `x`, which had changed. */
  predicate StoppedBy(th: Thread, x: Addr) {
    !th.phase.Idle? && FailedEarly(th.run) && th.run.out.at == Some(x)
  }

  /** The value the stopped run recorded for `x` is gone for good, and `wait_for_change` does not
      find it there. */
  ghost predicate ConflictIsReal(s: State, th: Thread, x: Addr) {
    && x in LogOf(th) && LogOf(th)[x].Read? && Stale(s, x, LogOf(th)[x].orig)
    && !Asleep(th.phase) && x !in Compared(th.phase)
  }

  ghost predicate ConflictsReal(s: State) {
    forall t, x :: t in s.threads && StoppedBy(s.threads[t], x) ==> ConflictIsReal(s, s.threads[t], x)
  }

  // ---------------------------------------------------------------- how a thread moves

  /** The step starts the closure afresh. */
  predicate Restarts(a: Action) {
    a.Start? || a.Rerun? || a.Restart? || a.Leave?
  }

  datatype Part = Closure | Commit | Wake | Wait

  /** The function of the library an action is a step of. */
  function PartOf(a: Action): Part {
    match a
    case Start(_) => Closure
    case LoadVar => Closure
    case Box(_) => Closure
    case EnterCommit => Closure
    case GiveUp => Closure
    case Rerun => Closure
    case Block => Closure
    case Lock(_) => Commit
    case Decide => Commit
    case Unlock(_) => Commit
    case Restart => Commit
    case DropRead(_) => Commit
    case WriteBack(_) => Commit
    case StartWake => Commit
    case Take(_) => Wake
    case Signal => Wake
    case Unpark => Wake
    case Finish => Wake
    case _ => Wait
  }

  lemma RunActions(ecd: bool, s: State, t: Tid, a: Action, s': State)
    requires t in s.threads
    ensures RunStep(ecd, s, t, a, s') ==> PartOf(a) == Closure
  {
  }

  lemma CommitActions(ecd: bool, s: State, t: Tid, a: Action, s': State)
    requires t in s.threads
    ensures CommitStep(ecd, s, t, a, s') ==> PartOf(a) == Commit
  {
  }

  lemma WakeActions(s: State, t: Tid, a: Action, s': State)
    requires t in s.threads
    ensures WakeStep(s, t, a, s') ==> PartOf(a) == Wake
  {
  }

  lemma WaitActions(ecd: bool, s: State, t: Tid, a: Action, s': State)
    requires t in s.threads
    ensures WaitStep(ecd, s, t, a, s') ==> PartOf(a) == Wait
  {
  }

  lemma SomeStep(ecd: bool, s: State, t: Tid, a: Action, s': State)
    requires t in s.threads && Next(ecd, s, By(t, a), s')
    ensures RunStep(ecd, s, t, a, s') || CommitStep(ecd, s, t, a, s') || WakeStep(s, t, a, s')
        || WaitStep(ecd, s, t, a, s')
  {
    hide RunStep, CommitStep, WakeStep, WaitStep;
  }

  /** Which of the four step relations a step belongs to depends on the action alone. */
  lemma StepOf(ecd: bool, s: State, t: Tid, a: Action, s': State)
    requires t in s.threads && Next(ecd, s, By(t, a), s')
    ensures PartOf(a) == Closure ==> (RunStep(ecd, s, t, a, s'))
    ensures PartOf(a) == Commit ==> (CommitStep(ecd, s, t, a, s'))
    ensures PartOf(a) == Wake ==> (WakeStep(s, t, a, s'))
    ensures PartOf(a) == Wait ==> (WaitStep(ecd, s, t, a, s'))
  {
    hide *;
    SomeStep(ecd, s, t, a, s');
    RunActions(ecd, s, t, a, s');
    CommitActions(ecd, s, t, a, s');
    WakeActions(s, t, a, s');
    WaitActions(ecd, s, t, a, s');
  }

  lemma RestartShape(ecd: bool, s: State, t: Tid, a: Action, s': State)
    requires t in s.threads && Next(ecd, s, By(t, a), s') && Restarts(a)
    ensures exists body: Body :: s' == SetThread(s, t, Begin(ecd, body))
  {
    hide Next, RunStep, CommitStep, WakeStep, WaitStep, Begin, SetThread, PhaseOnly;
    StepOf(ecd, s, t, a, s');
    if a.Leave? {
      WaitStepShape(ecd, s, t, a, s');
    } else if a.Restart? {
      RestartsAfresh(ecd, s, t, s');
    } else {
      RunMovesOnShape(ecd, s, t, a, s');
    }
  }

  lemma RunPhaseOnly(ecd: bool, s: State, t: Tid, a: Action, s': State)
    requires t in s.threads && RunStep(ecd, s, t, a, s') && !Restarts(a) && !a.LoadVar? && !a.Box?
    ensures PhaseOnly(s, t, s') && s.threads[t].phase.Running?
    ensures Compared(s'.threads[t].phase) == {} && !Asleep(s'.threads[t].phase)
  {
    ClosureShape(ecd, s, t, a, s');
    hide RunStep;
  }

  /** Any other step of a thread but a load or an allocation only moves it on. */
  lemma MovesOn(ecd: bool, s: State, t: Tid, a: Action, s': State)
    requires t in s.threads && Next(ecd, s, By(t, a), s') && !Restarts(a) && !a.LoadVar? && !a.Box?
    ensures PhaseOnly(s, t, s') && !s.threads[t].phase.Idle?
  {
    hide RunStep, CommitStep, WakeStep, WaitStep, Begin;
    if RunStep(ecd, s, t, a, s') {
      RunPhaseOnly(ecd, s, t, a, s');
    } else if CommitStep(ecd, s, t, a, s') {
      CommitStepShape(ecd, s, t, a, s');
      CommitPhases(ecd, s, t, a, s');
    } else if WakeStep(s, t, a, s') {
      WakeStepShape(s, t, a, s');
    } else {
      WaitStepShape(ecd, s, t, a, s');
    }
  }

  predicate Committing(ph: Phase) {
    ph.Locking? || ph.Unlocking? || ph.Publishing? || ph.Waking?
  }

  lemma LockPhases(s: State, t: Tid, x: Addr, s': State)
    requires t in s.threads && s.threads[t].phase.Locking? && LockStep(s, t, x, s')
    ensures Committing(s'.threads[t].phase)
  {
    hide FreeToRead, FreeToWrite, LogOf, Admits;
  }

  lemma CommitPhases(ecd: bool, s: State, t: Tid, a: Action, s': State)
    requires t in s.threads && CommitStep(ecd, s, t, a, s')
    ensures Committing(s.threads[t].phase)
    ensures !a.Restart? ==> t in s'.threads && Committing(s'.threads[t].phase)
  {
    if a.Lock? {
      assert s.threads[t].phase.Locking? && LockStep(s, t, a.x, s');
      hide CommitStep, LockStep;
      LockPhases(s, t, a.x, s');
    } else if a.WriteBack? {
      WriteBackPhases(ecd, s, t, a.x, s');
    } else {
      hide LogOf, Begin, Writes, Least, AllInstalled, Decision;
    }
  }

  lemma WriteBackPhases(ecd: bool, s: State, t: Tid, x: Addr, s': State)
    requires t in s.threads && CommitStep(ecd, s, t, WriteBack(x), s')
    ensures t in s'.threads && s.threads[t].phase.Publishing? && s'.threads[t].phase.Publishing?
  {
    hide LogOf, Writes, Least;
  }

  // ---------------------------------------------------------------- the invariant is kept

  lemma BeginNotStopped(ecd: bool, body: Body)
    ensures forall x :: !StoppedBy(Begin(ecd, body), x)
  {
    DryRun(ecd, body, Ctx(map[], Replay([], []), []));
  }

  lemma BoxNotStopped(ecd: bool, s: State, t: Tid, ptr: nat, s': State)
    requires t in s.threads && Coherent(ecd, s.threads[t]) && RunStep(ecd, s, t, Box(ptr), s')
    ensures OnlyMoves(s, t, s') && forall x :: !StoppedBy(s'.threads[t], x)
  {
    var th := s.threads[t];
    var id := Id(ptr, s.nextId);
    var c := Ctx(map[], Replay(th.loads, th.allocs), []);
    AnswerRun(ecd, th.body, c, th.run.q, th.run.held, Arc(id, th.run.q.v), id);
    assert c.(env := Answered(c.env, th.run.q, Arc(id, th.run.q.v), id)).env == Replay(th.loads, th.allocs + [id]);
    hide RunFrom, Unallocated;
  }

  lemma LoadShape(ecd: bool, s: State, t: Tid, s': State)
    requires t in s.threads && RunStep(ecd, s, t, LoadVar, s')
    ensures PhaseRunning(s'.threads, t) && |s'.threads[t].loads| > 0
    ensures var r := s'.threads[t].loads[|s'.threads[t].loads| - 1]; r.arc == Cur(s', r.x)
  {
    hide RunFrom, FreeToRead;
  }

  predicate PhaseRunning(threads: map<Tid, Thread>, t: Tid) {
    t in threads && threads[t].phase.Running?
  }

  /** A load that stops the run has just found the variable changed. */
  lemma LoadConflict(ecd: bool, s: State, t: Tid, s': State, x: Addr)
    requires Inv(ecd, s') && t in s.threads && RunStep(ecd, s, t, LoadVar, s')
    requires t in s'.threads && StoppedBy(s'.threads[t], x)
    ensures ConflictIsReal(s', s'.threads[t], x)
  {
    hide *;
    StoppedMeans(s'.threads[t], x);
    LoadShape(ecd, s, t, s');
    StoppedSaw(ecd, s', t, x);
    RecordedWasThere(ecd, s', t, x);
    SeenIsStale(s', t, x);
  }

  lemma StoppedMeans(th: Thread, x: Addr)
    requires StoppedBy(th, x)
    ensures !th.phase.Idle? && th.run.Done? && FailedEarly(th.run)
  {
  }

  lemma StoppedSaw(ecd: bool, s: State, t: Tid, x: Addr)
    requires Inv(ecd, s) && t in s.threads && StoppedBy(s.threads[t], x)
    ensures SeenToChange(LogOf(s.threads[t]), x, s.threads[t].loads, NO_ANSWERS)
    ensures x in Waits(LogOf(s.threads[t]))
  {
    InvThread(ecd, s, t);
    InvHistory(ecd, s);
    assert SerialsDistinct(s.threads[t].allocs);
    hide Inv, Coherent, SerialsDistinct;
    FinishedLog(ecd, s.threads[t]);
  }

  lemma SeenIsStale(s: State, t: Tid, x: Addr)
    requires PhaseRunning(s.threads, t)
    requires SeenToChange(LogOf(s.threads[t]), x, s.threads[t].loads, NO_ANSWERS)
    requires x in Waits(LogOf(s.threads[t])) && Waits(LogOf(s.threads[t]))[x] in HistAt(s, x)
    requires |s.threads[t].loads| > 0
    requires var r := s.threads[t].loads[|s.threads[t].loads| - 1]; r.arc == Cur(s, r.x)
    ensures ConflictIsReal(s, s.threads[t], x)
  {
    hide LogOf, HistAt, Cur;
  }

  /** A value found in a variable and still wanted is the value there. */
  lemma CheckingCompares(ecd: bool, s: State, t: Tid)
    requires Inv(ecd, s) && t in s.threads && s.threads[t].phase.Checking?
    ensures var x := s.threads[t].phase.x;
            x in Waits(LogOf(s.threads[t])) && (PtrEq(Waits(LogOf(s.threads[t]))[x], Cur(s, x)) ==>
              Waits(LogOf(s.threads[t]))[x] == Cur(s, x))
  {
    var th := s.threads[t];
    var x := th.phase.x;
    InvThread(ecd, s, t);
    InvHistory(ecd, s);
    hide Inv;
    var a := Waits(LogOf(th))[x];
    assert a in HeldBy(th);
    hide HeldBy;
    assert InThread(s, a);
    CurrentInUse(s, x);
    hide InUse;
    PtrEqIsEq(s, a, Cur(s, x));
  }

  lemma WaitCompares(ecd: bool, s: State, t: Tid, a: Action, s': State, x: Addr)
    requires t in s.threads && WaitStep(ecd, s, t, a, s') && PhaseFits(s.threads[t]) && !a.Leave?
    requires x in Waits(LogOf(s.threads[t])) && x !in Compared(s.threads[t].phase) && !Asleep(s.threads[t].phase)
    requires s.threads[t].phase.Checking? && s.threads[t].phase.x == x ==>
               !PtrEq(Waits(LogOf(s.threads[t]))[x], Cur(s, x))
    ensures t in s'.threads && x !in Compared(s'.threads[t].phase) && !Asleep(s'.threads[t].phase)
  {
    if a.Check? || a.StartPoll? {
      CheckCompares(ecd, s, t, a, s', x);
    } else {
      OthersDoNotCompare(ecd, s, t, a, s');
    }
  }

  lemma CheckCompares(ecd: bool, s: State, t: Tid, a: Action, s': State, x: Addr)
    requires t in s.threads && WaitStep(ecd, s, t, a, s') && PhaseFits(s.threads[t]) && (a.Check? || a.StartPoll?)
    requires x in Waits(LogOf(s.threads[t])) && x !in Compared(s.threads[t].phase)
    requires s.threads[t].phase.Checking? && s.threads[t].phase.x == x ==>
               !PtrEq(Waits(LogOf(s.threads[t]))[x], Cur(s, x))
    ensures t in s'.threads && x !in Compared(s'.threads[t].phase) && !Asleep(s'.threads[t].phase)
  {
    hide LogOf, Waits, FreeToRead;
  }

  lemma OthersDoNotCompare(ecd: bool, s: State, t: Tid, a: Action, s': State)
    requires t in s.threads && WaitStep(ecd, s, t, a, s') && !a.Check? && !a.StartPoll? && !a.Leave?
    requires !Asleep(s.threads[t].phase)
    ensures t in s'.threads && Compared(s'.threads[t].phase) <= Compared(s.threads[t].phase)
        && !Asleep(s'.threads[t].phase)
  {
    hide LogOf, Waits, Alive, ListFree, Retain;
  }

  /** A stopped thread that moves on neither sleeps nor finds `x` unchanged. */
  lemma StaysAwake(ecd: bool, s: State, t: Tid, a: Action, s': State, x: Addr)
    requires Inv(ecd, s) && t in s.threads && Next(ecd, s, By(t, a), s') && !Restarts(a) && !a.LoadVar? && !a.Box?
    requires ConflictIsReal(s, s.threads[t], x)
    ensures t in s'.threads && x !in Compared(s'.threads[t].phase) && !Asleep(s'.threads[t].phase)
  {
    assert !a.Leave? && !a.Restart?;
    hide *;
    StepOf(ecd, s, t, a, s');
    InvFits(ecd, s, t);
    ConflictMeans(s, s.threads[t], x);
    if s.threads[t].phase.Checking? {
      CheckingCompares(ecd, s, t);
    }
    match PartOf(a) {
      case Closure => RunPhaseOnly(ecd, s, t, a, s');
      case Commit =>
        CommitPhases(ecd, s, t, a, s');
        CommittingComparesNothing(s'.threads[t].phase);
      case Wake =>
        WakeStepMoves(s, t, a, s');
        CommittingComparesNothing(s'.threads[t].phase);
      case Wait => WaitCompares(ecd, s, t, a, s', x);
    }
  }

  lemma InvFits(ecd: bool, s: State, t: Tid)
    requires Inv(ecd, s) && t in s.threads
    ensures PhaseFits(s.threads[t])
  {
    InvThread(ecd, s, t);
  }

  lemma ConflictMeans(s: State, th: Thread, x: Addr)
    requires ConflictIsReal(s, th, x)
    ensures x in Waits(LogOf(th)) && Waits(LogOf(th))[x] != Cur(s, x) && x !in Compared(th.phase) && !Asleep(th.phase)
  {
    hide LogOf, Cur, HistAt;
  }

  lemma CommittingComparesNothing(ph: Phase)
    requires Committing(ph) || ph.Idle?
    ensures Compared(ph) == {} && !Asleep(ph)
  {
  }

  lemma WakeStepMoves(s: State, t: Tid, a: Action, s': State)
    requires t in s.threads && WakeStep(s, t, a, s')
    ensures t in s'.threads && (Committing(s'.threads[t].phase) || s'.threads[t].phase.Idle?)
  {
    hide WakeStep, SameValues;
    WakeStepShape(s, t, a, s');
  }

  lemma ConflictStays(s: State, s': State, th: Thread, th': Thread, x: Addr)
    requires HistoryOk(s) && HistoryOk(s') && HistAt(s, x) <= HistAt(s', x)
    requires ConflictIsReal(s, th, x) && th'.run == th.run
    requires !Asleep(th'.phase) && x !in Compared(th'.phase)
    ensures ConflictIsReal(s', th', x)
  {
    hide HistoryOk, Stale;
    StaleStays(s, s', x, LogOf(th)[x].orig);
  }

  lemma MoverConflict(ecd: bool, s: State, t: Tid, a: Action, s': State, x: Addr)
    requires Inv(ecd, s) && Inv(ecd, s') && ConflictsReal(s)
    requires t in s.threads && Next(ecd, s, By(t, a), s') && HistAt(s, x) <= HistAt(s', x)
    requires t in s'.threads && StoppedBy(s'.threads[t], x)
    ensures ConflictIsReal(s', s'.threads[t], x)
  {
    hide Inv, Next, RunStep, CommitStep, WakeStep, WaitStep, HistAt, Begin, ConflictIsReal;
    StepOf(ecd, s, t, a, s');
    InvThread(ecd, s, t);
    InvHistory(ecd, s);
    InvHistory(ecd, s');
    if a.LoadVar? {
      LoadConflict(ecd, s, t, s', x);
    } else if a.Box? {
      BoxNotStopped(ecd, s, t, a.ptr, s');
    } else if Restarts(a) {
      RestartShape(ecd, s, t, a, s');
      var body: Body :| s' == SetThread(s, t, Begin(ecd, body));
      BeginNotStopped(ecd, body);
    } else {
      MovesOn(ecd, s, t, a, s');
      StaysAwake(ecd, s, t, a, s', x);
      ConflictStays(s, s', s.threads[t], s'.threads[t], x);
    }
  }

  lemma OtherConflict(s: State, t: Tid, s': State, u: Tid, x: Addr)
    requires HistoryOk(s) && HistoryOk(s') && ConflictsReal(s)
    requires HistAt(s, x) <= HistAt(s', x)
    requires u in s.threads && u in s'.threads && s'.threads[u] == s.threads[u] && StoppedBy(s'.threads[u], x)
    ensures ConflictIsReal(s', s'.threads[u], x)
  {
    hide StoppedBy, HistoryOk, HistAt;
    assert StoppedBy(s.threads[u], x);
    hide ConflictIsReal;
    ConflictStays(s, s', s.threads[u], s'.threads[u], x) by {
      ConflictMeans(s, s.threads[u], x);
    }
  }

  lemma ThreadsOtherThan(ecd: bool, s: State, m: Move, s': State, u: Tid)
    requires Next(ecd, s, m, s') && u in s'.threads && (m.By? ==> m.t != u)
    ensures u in s.threads && s'.threads[u] == s.threads[u]
  {
    hide RunStep, CommitStep, WakeStep, WaitStep, FreeToWrite, Unallocated, Begin;
    if m.By? {
      hide Next;
      MoverExists(ecd, s, m.t, m.a, s');
      OnlyOneMoves(ecd, s, m.t, m.a, s');
    }
  }

  lemma OnlyOneMoves(ecd: bool, s: State, t: Tid, a: Action, s': State)
    requires t in s.threads && Next(ecd, s, By(t, a), s')
    ensures OnlyMoves(s, t, s')
  {
    hide Next, RunStep, CommitStep, WakeStep, WaitStep, Begin, SameValues;
    StepOf(ecd, s, t, a, s');
    match PartOf(a) {
      case Closure => RunStepShape(ecd, s, t, a, s');
      case Commit => CommitStepShape(ecd, s, t, a, s');
      case Wake => WakeStepShape(s, t, a, s');
      case Wait => WaitStepShape(ecd, s, t, a, s');
    }
  }

  lemma NextKeepsConflicts(ecd: bool, s: State, m: Move, s': State)
    requires Inv(ecd, s) && Inv(ecd, s') && ConflictsReal(s) && Next(ecd, s, m, s')
    ensures ConflictsReal(s')
  {
    NextGrowsHistory(ecd, s, m, s');
    InvHistory(ecd, s);
    InvHistory(ecd, s');
    hide Inv, Next, HistAt, HistoryOk, LoadsOk, ArcsUnique, AllocsDistinct, StoppedBy, ConflictIsReal;
    forall u, x | u in s'.threads && StoppedBy(s'.threads[u], x) ensures ConflictIsReal(s', s'.threads[u], x) {
      if m.By? && m.t == u {
        MoverExists(ecd, s, m.t, m.a, s');
        MoverConflict(ecd, s, u, m.a, s', x);
      } else {
        ThreadsOtherThan(ecd, s, m, s', u);
        OtherConflict(s, u, s', u, x);
      }
    }
  }

  lemma InitConflicts(s: State)
    requires Init(s)
    ensures ConflictsReal(s)
  {
  }

  lemma {:induction false} BehaviourKeepsConflicts(ecd: bool, states: seq<State>, moves: seq<Move>, i: nat)
    requires Behaviour(ecd, states, moves) && i < |states|
    ensures ConflictsReal(states[i])
  {
    hide *;
    BehaviourShape(ecd, states, moves);
    if i == 0 {
      InitConflicts(states[0]);
    } else {
      BehaviourKeepsConflicts(ecd, states, moves, i - 1);
      BehaviourKeepsInv(ecd, states, moves, i - 1);
      BehaviourKeepsInv(ecd, states, moves, i);
      BehaviourNext(ecd, states, moves, i - 1);
      NextKeepsConflicts(ecd, states[i - 1], moves[i - 1], states[i]);
    }
  }

  // ---------------------------------------------------------------- the theorems

  lemma ConflictOf(s: State, t: Tid, x: Addr)
    requires ConflictsReal(s) && t in s.threads && StoppedBy(s.threads[t], x)
    ensures x in Reads(LogOf(s.threads[t])) && Stale(s, x, Reads(LogOf(s.threads[t]))[x])
    ensures !Asleep(s.threads[t].phase)
  {
    hide LogOf, HistAt, Cur, StoppedBy;
  }

  /** Early conflict detection is never wrong. Once it has stopped a run because of `x`, the log
      of that run has a validated entry for `x` that `commit` would reject in that state and in
      every later one, for as long as the recorded allocation is kept alive. */
  lemma EarlyConflictIsFinal(ecd: bool, states: seq<State>, moves: seq<Move>, i: nat, j: nat, t: Tid, x: Addr)
    requires Behaviour(ecd, states, moves) && i <= j < |states|
    requires t in states[i].threads && StoppedBy(states[i].threads[t], x)
    ensures var log := LogOf(states[i].threads[t]);
            && x in Reads(log) && Stale(states[j], x, Reads(log)[x])
            && (InUse(states[j], Reads(log)[x]) ==> !Admits(log[x], Cur(states[j], x)))
  {
    hide *;
    BehaviourKeepsConflicts(ecd, states, moves, i);
    ConflictOf(states[i], t, x);
    var log := LogOf(states[i].threads[t]);
    BehaviourKeepsInv(ecd, states, moves, i);
    BehaviourKeepsInv(ecd, states, moves, j);
    HistoryGrows(ecd, states, moves, i, j, x);
    InvHistory(ecd, states[i]);
    InvHistory(ecd, states[j]);
    StaleStays(states[i], states[j], x, Reads(log)[x]);
    StaleIsRejected(states[j], log, x);
  }

  lemma StaleIsRejected(s: State, log: Log, x: Addr)
    requires ArcsUnique(s) && x in Reads(log) && Stale(s, x, Reads(log)[x])
    ensures InUse(s, Reads(log)[x]) ==> !Admits(log[x], Cur(s, x))
  {
    CurrentInUse(s, x);
    hide InUse, Cur, HistAt;
    if InUse(s, Reads(log)[x]) {
      PtrEqIsEq(s, Reads(log)[x], Cur(s, x));
    }
  }

  /** Nobody sleeps on a `Failure` raised by the library, although `with_err` calls
      `wait_for_change` on it: a thread in `ControlBlock::wait` blocked for a reason of its own. */
  lemma SleepersRetried(ecd: bool, states: seq<State>, moves: seq<Move>, i: nat, t: Tid)
    requires Behaviour(ecd, states, moves) && i < |states|
    requires t in states[i].threads && Asleep(states[i].threads[t].phase)
    ensures var r := states[i].threads[t].run; r.Done? && (r.out.Retried? || r.out == Failed(None))
  {
    hide Behaviour, Inv;
    BehaviourKeepsConflicts(ecd, states, moves, i);
    BehaviourKeepsInv(ecd, states, moves, i);
    var s := states[i];
    InvThread(ecd, s, t);
    hide ConflictIsReal;
    if FailedEarly(s.threads[t].run) {
      assert StoppedBy(s.threads[t], s.threads[t].run.out.at.value);
      ConflictOf(s, t, s.threads[t].run.out.at.value);
    }
  }
}
