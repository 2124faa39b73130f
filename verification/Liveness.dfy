/** Who can move: a waiter leaves its wait exactly if it was signalled, and a thread is held up only
    by a lock, by a sweep or by memory. */
module Liveness {
  import opened Values
  import opened Logs
  import opened Programs
  import opened RunFacts
  import opened Machine
  import opened Invariants
  import opened Safety
  import opened Serializability
  import opened Versions
  import opened Conflicts
  import opened Wakeup
  import opened Progress
  import opened Refinements

  // ---------------------------------------------------------------- leaving the wait

  lemma {:induction false} LeadsOn(ecd: bool, s: State, t: Tid, acts: seq<Action>, s1: State,
      more: seq<Action>, s': State)
    requires Leads(ecd, s, t, acts, s1) && Leads(ecd, s1, t, more, s')
    ensures Leads(ecd, s, t, acts + more, s')
    decreases |acts|
  {
    hide Next;
    if acts == [] {
      assert acts + more == more;
    } else {
      var next :| Next(ecd, s, By(t, acts[0]), next) && Leads(ecd, next, t, acts[1..], s1);
      LeadsOn(ecd, next, t, acts[1..], s1, more, s');
      LeadsNext(ecd, s, t, acts[0], next, acts[1..] + more, s');
      assert [acts[0]] + (acts[1..] + more) == acts + more;
    }
  }

  /** The variable after `set_dead`: one more counted, or the list cleaned up. */
  function Buried(s: State, x: Addr): Var {
    if s.vars[x].dead >= 64 then Var(s.vars[x].value, Retain(s, s.vars[x].waiting), 0)
    else s.vars[x].(dead := s.vars[x].dead + 1)
  }

  /** `set_dead` has been called on the variables in `xs` and on nothing else, by `t`, now at `ph`. */
  ghost predicate AllBuried(s: State, t: Tid, xs: set<Addr>, ph: Phase, s': State) {
    && t in s.threads && s'.threads == s.threads[t := s.threads[t].(phase := ph)]
    && (forall x: Addr :: VarAt(s', x) == if x in xs then Buried(s, x) else VarAt(s, x))
    && s'.changed == s.changed && s'.tokens == s.tokens
  }

  lemma NoneBuried(s: State, t: Tid, ph: Phase)
    requires t in s.threads && s.threads[t].phase == ph
    ensures AllBuried(s, t, {}, ph, s)
  {
    hide Buried;
    assert s.threads[t := s.threads[t].(phase := ph)] == s.threads;
  }

  lemma SameBuried(s: State, t: Tid, s1: State, x: Addr)
    requires t in s.threads && s1.threads.Keys == s.threads.Keys
    requires forall u :: u in s.threads && u != t ==> s1.threads[u] == s.threads[u]
    requires CbOf(s1.threads[t].phase) == CbOf(s.threads[t].phase) && s1.vars[x] == s.vars[x]
    ensures Buried(s1, x) == Buried(s, x)
  {
    SameAlive(s, t, s1, s.vars[x].waiting);
    hide Retain, CbOf;
  }

  lemma BuriedAt(s: State, t: Tid, x: Addr, s1: State, xs: set<Addr>, ph: Phase, s': State, y: Addr)
    requires t in s.threads && t in s1.threads && Touches(s, t, x, s1) && s1.vars[x] == Buried(s, x)
    requires CbOf(s1.threads[t].phase) == CbOf(s.threads[t].phase)
    requires x !in xs && AllBuried(s1, t, xs, ph, s')
    ensures VarAt(s', y) == if y in xs + {x} then Buried(s, y) else VarAt(s, y)
  {
    assert VarAt(s', y) == if y in xs then Buried(s1, y) else VarAt(s1, y);
    if y == x {
      hide Buried;
    } else {
      assert VarAt(s1, y) == VarAt(s, y);
      SameBuried(s, t, s1, y);
      hide Buried;
    }
  }

  lemma SamePlaces(s: State, t: Tid, x: Addr, s1: State, ph: Phase)
    requires t in s.threads && t in s1.threads && Touches(s, t, x, s1)
    ensures s1.threads[t := s1.threads[t].(phase := ph)] == s.threads[t := s.threads[t].(phase := ph)]
  {
    hide VarAt;
  }

  lemma OneMoreBuried(s: State, t: Tid, x: Addr, s1: State, xs: set<Addr>, ph: Phase, s': State)
    requires t in s.threads && t in s1.threads && Touches(s, t, x, s1) && s1.vars[x] == Buried(s, x)
    requires CbOf(s1.threads[t].phase) == CbOf(s.threads[t].phase)
    requires x !in xs && AllBuried(s1, t, xs, ph, s')
    ensures AllBuried(s, t, xs + {x}, ph, s')
  {
    SamePlaces(s, t, x, s1, ph);
    hide Buried, CbOf, VarAt;
    forall y: Addr ensures VarAt(s', y) == if y in xs + {x} then Buried(s, y) else VarAt(s, y) {
      BuriedAt(s, t, x, s1, xs, ph, s', y);
    }
  }

  lemma StillFreeAll(s: State, t: Tid, x: Addr, s1: State, xs: set<Addr>)
    requires Touches(s, t, x, s1) && s1.threads[t].phase.Dying?
    requires forall y :: y in xs ==> ListFree(s, y)
    ensures forall y :: y in xs ==> ListFree(s1, y)
  {
  }

  lemma DiesAt(ecd: bool, s: State, t: Tid, x: Addr) returns (acts: seq<Action>, s1: State)
    requires t in s.threads && s.threads[t].phase.Dying? && x in s.threads[t].phase.todo && ListFree(s, x)
    ensures Leads(ecd, s, t, acts, s1) && Touches(s, t, x, s1) && s1.vars[x] == Buried(s, x)
    ensures t in s1.threads && CbOf(s1.threads[t].phase) == CbOf(s.threads[t].phase)
    ensures s1.threads[t].phase == Dying(s.threads[t].phase.cb, s.threads[t].phase.todo - {x})
  {
    hide Leads, Touches, ListFree, Retain;
    acts, s1 := Dies(ecd, s, t, x);
  }

  lemma BuriesOn(ecd: bool, s: State, t: Tid, x: Addr, first: seq<Action>, s1: State, more: seq<Action>, s': State)
    requires t in s.threads && t in s1.threads && s.threads[t].phase.Dying? && x in s.threads[t].phase.todo
    requires Leads(ecd, s, t, first, s1) && Touches(s, t, x, s1) && s1.vars[x] == Buried(s, x)
    requires CbOf(s1.threads[t].phase) == CbOf(s.threads[t].phase) && Leads(ecd, s1, t, more, s')
    requires var ph := s.threads[t].phase; AllBuried(s1, t, ph.todo - {x}, Dying(ph.cb, {}), s')
    ensures Leads(ecd, s, t, first + more, s')
    ensures AllBuried(s, t, s.threads[t].phase.todo, Dying(s.threads[t].phase.cb, {}), s')
  {
    var cb, todo := s.threads[t].phase.cb, s.threads[t].phase.todo;
    assert todo - {x} + {x} == todo && x !in todo - {x};
    hide *;
    LeadsOn(ecd, s, t, first, s1, more, s');
    OneMoreBuried(s, t, x, s1, todo - {x}, Dying(cb, {}), s');
  }

  /** The `set_dead` loop, undisturbed. */
  lemma {:induction false} DiesEverywhere(ecd: bool, s: State, t: Tid) returns (acts: seq<Action>, s': State)
    requires t in s.threads && s.threads[t].phase.Dying?
    requires forall x :: x in s.threads[t].phase.todo ==> ListFree(s, x)
    ensures Leads(ecd, s, t, acts, s')
    ensures AllBuried(s, t, s.threads[t].phase.todo, Dying(s.threads[t].phase.cb, {}), s')
    decreases if t in s.threads && s.threads[t].phase.Dying? then |s.threads[t].phase.todo| else 0
  {
    var cb, todo := s.threads[t].phase.cb, s.threads[t].phase.todo;
    hide Leads, AllBuried, ListFree, Touches, Next, Buried, CbOf;
    if todo == {} {
      acts, s' := [], s;
      assert s.threads[t].phase == Dying(cb, {});
      NoneBuried(s, t, Dying(cb, {}));
      NoSteps(ecd, s, t);
    } else {
      var x :| x in todo;
      var first, s1 := DiesAt(ecd, s, t, x);
      StillFreeAll(s, t, x, s1, todo);
      var more;
      more, s' := DiesEverywhere(ecd, s1, t);
      BuriesOn(ecd, s, t, x, first, s1, more, s');
      acts := first + more;
    }
  }

  lemma NoSteps(ecd: bool, s: State, t: Tid)
    ensures Leads(ecd, s, t, [], s)
  {
  }

  lemma PollsOut(ecd: bool, s: State, t: Tid) returns (s': State)
    requires t in s.threads && s.threads[t].phase.Polling? && s.threads[t].phase.cb in s.changed
    ensures Next(ecd, s, By(t, Poll), s')
    ensures s' == SetPhase(s, t, Dying(s.threads[t].phase.cb, Waits(LogOf(s.threads[t])).Keys))
  {
    hide Waits, LogOf, RunStep, CommitStep, WakeStep;
    s' := SetPhase(s, t, Dying(s.threads[t].phase.cb, Waits(LogOf(s.threads[t])).Keys));
    assert WaitStep(ecd, s, t, Poll, s');
  }

  lemma GetsUp(ecd: bool, s: State, t: Tid) returns (s': State)
    requires t in s.threads && s.threads[t].phase.Parked?
    ensures Next(ecd, s, By(t, Unparked), s')
    ensures s' == SetPhase(s, t, Polling(s.threads[t].phase.cb)).(tokens := s.tokens - {t})
  {
    hide Waits, LogOf, RunStep, CommitStep, WakeStep;
    s' := SetPhase(s, t, Polling(s.threads[t].phase.cb)).(tokens := s.tokens - {t});
    assert WaitStep(ecd, s, t, Unparked, s');
  }

  lemma Leaves(ecd: bool, s: State, t: Tid) returns (s': State)
    requires t in s.threads && s.threads[t].phase.Dying? && s.threads[t].phase.todo == {}
    ensures Next(ecd, s, By(t, Leave), s') && s' == SetThread(s, t, Begin(ecd, s.threads[t].body))
  {
    hide Begin, RunStep, CommitStep, WakeStep;
    s' := SetThread(s, t, Begin(ecd, s.threads[t].body));
    assert WaitStep(ecd, s, t, Leave, s');
  }

  /** What is left when the thread is back at its closure: it has let go of every list. */
  ghost predicate Returned(ecd: bool, s: State, t: Tid, s': State) {
    && t in s.threads && s'.threads == s.threads[t := Begin(ecd, s.threads[t].body)]
    && (forall x: Addr :: VarAt(s', x) == if x in Waits(LogOf(s.threads[t])) then Buried(s, x) else VarAt(s, x))
    && s'.changed == s.changed && s'.tokens == s.tokens
  }

  /** Where the lists and who is alive are the same, so is what `set_dead` would do. */
  lemma BuriedAlike(s: State, t: Tid, s1: State)
    requires t in s.threads && t in s1.threads && s1.threads == s.threads[t := s1.threads[t]] && s1.vars == s.vars
    requires CbOf(s1.threads[t].phase) == CbOf(s.threads[t].phase)
    ensures forall x: Addr :: VarAt(s1, x) == VarAt(s, x) && Buried(s1, x) == Buried(s, x)
  {
    hide CbOf;
    forall x: Addr ensures Buried(s1, x) == Buried(s, x) {
      SameBuried(s, t, s1, x);
    }
    hide Buried;
  }

  lemma SameVarsAt(s: State, s1: State)
    requires s1.vars == s.vars
    ensures forall x: Addr :: VarAt(s1, x) == VarAt(s, x)
  {
  }

  lemma BuriedReturns(ecd: bool, s: State, t: Tid, s1: State, s2: State, s': State)
    requires t in s.threads && s.threads[t].phase.Polling?
    requires s1 == SetPhase(s, t, Dying(s.threads[t].phase.cb, Waits(LogOf(s.threads[t])).Keys))
    requires AllBuried(s1, t, Waits(LogOf(s.threads[t])).Keys, Dying(s.threads[t].phase.cb, {}), s2)
    requires t in s2.threads && s' == SetThread(s2, t, Begin(ecd, s2.threads[t].body))
    ensures Returned(ecd, s, t, s')
  {
    BuriedAlike(s, t, s1);
    SameVarsAt(s2, s');
    hide Buried, Waits, LogOf, RunFrom, VarAt;
    assert s'.threads == s.threads[t := Begin(ecd, s.threads[t].body)];
  }

  lemma PollingLeaves(ecd: bool, s: State, t: Tid) returns (acts: seq<Action>, s': State)
    requires t in s.threads && s.threads[t].phase.Polling? && s.threads[t].phase.cb in s.changed
    requires forall x :: x in Waits(LogOf(s.threads[t])) ==> ListFree(s, x)
    ensures Leads(ecd, s, t, [Poll] + acts + [Leave], s') && Returned(ecd, s, t, s')
  {
    hide Leads, ListFree, Next, Waits, LogOf, Begin, Returned, Buried;
    var s1 := PollsOut(ecd, s, t);
    assert forall x :: x in Waits(LogOf(s.threads[t])) ==> ListFree(s1, x) by { StillFreeInPhase(s, t, s1); }
    var s2;
    acts, s2 := DiesEverywhere(ecd, s1, t);
    s' := Leaves(ecd, s2, t);
    BuriedReturns(ecd, s, t, s1, s2, s');
    LeadsOnce(ecd, s, t, Poll, s1);
    LeadsOnce(ecd, s2, t, Leave, s');
    LeadsOn(ecd, s, t, [Poll], s1, acts, s2);
    LeadsOn(ecd, s, t, [Poll] + acts, s2, [Leave], s');
  }

  lemma StillFreeInPhase(s: State, t: Tid, s1: State)
    requires t in s.threads && t in s1.threads && s1.threads == s.threads[t := s1.threads[t]]
    requires !s1.threads[t].phase.Sweeping?
    ensures forall x: Addr :: ListFree(s, x) ==> ListFree(s1, x)
  {
  }

  /** Whoever was signalled wakes up. A parked thread whose flag is cleared, as a waker leaves it, gets
      out of its sleep by steps of its own: it uses up its token, finds the flag cleared, counts
      itself as dead in the list of every variable it waited for, and runs the same closure afresh. */
  lemma SignalledLeaves(ecd: bool, s: State, t: Tid) returns (acts: seq<Action>, s': State)
    requires t in s.threads && s.threads[t].phase.Parked? && s.threads[t].phase.cb in s.changed
    requires forall x :: x in Waits(LogOf(s.threads[t])) ==> ListFree(s, x)
    ensures Leads(ecd, s, t, [Unparked] + ([Poll] + acts + [Leave]), s')
    ensures s'.threads == s.threads[t := Begin(ecd, s.threads[t].body)]
    ensures forall x: Addr :: VarAt(s', x) == if x in Waits(LogOf(s.threads[t])) then Buried(s, x) else VarAt(s, x)
    ensures s'.changed == s.changed && s'.tokens == s.tokens - {t}
  {
    hide Leads, ListFree, Next, Waits, LogOf, Begin, Returned, Buried;
    var s1 := GetsUp(ecd, s, t);
    assert forall x :: x in Waits(LogOf(s.threads[t])) ==> ListFree(s1, x) by { StillFreeInPhase(s, t, s1); }
    SameLog(s.threads[t], s1.threads[t].phase);
    acts, s' := PollingLeaves(ecd, s1, t);
    ReturnedAlike(ecd, s, t, s1, s');
    LeadsNext(ecd, s, t, Unparked, s1, [Poll] + acts + [Leave], s');
  }

  lemma SameLog(th: Thread, ph: Phase)
    ensures LogOf(th.(phase := ph)) == LogOf(th)
  {
  }

  lemma ReturnedAlike(ecd: bool, s: State, t: Tid, s1: State, s': State)
    requires t in s.threads && s.threads[t].phase.Parked?
    requires s1 == SetPhase(s, t, Polling(s.threads[t].phase.cb)).(tokens := s.tokens - {t})
    requires Returned(ecd, s1, t, s')
    ensures s'.threads == s.threads[t := Begin(ecd, s.threads[t].body)]
    ensures forall x: Addr :: VarAt(s', x) == if x in Waits(LogOf(s.threads[t])) then Buried(s, x) else VarAt(s, x)
    ensures s'.changed == s.changed && s'.tokens == s.tokens - {t}
  {
    BuriedAlike(s, t, s1);
    SameLog(s.threads[t], s1.threads[t].phase);
    hide Buried, Waits, LogOf, RunFrom, VarAt;
    assert s'.threads == s.threads[t := Begin(ecd, s.threads[t].body)];
  }

  /** And nobody else does: with its flag set a thread may wake up, by a timeout, by a token left over
      or for no reason, but it goes back to sleep with the same control block. */
  lemma WaitsUntilSignalled(ecd: bool, s: State, t: Tid, a: Action, s': State)
    requires t in s.threads && Asleep(s.threads[t].phase) && Next(ecd, s, By(t, a), s')
    ensures t in s'.threads && CbOf(s'.threads[t].phase) == CbOf(s.threads[t].phase)
    ensures !Asleep(s'.threads[t].phase) <==> s.threads[t].phase.Polling? && s.threads[t].phase.cb in s.changed
  {
    hide Next, RunStep, CommitStep, WakeStep, WaitStep;
    AsleepWaits(ecd, s, t, a, s');
    AsleepSteps(ecd, s, t, a, s');
  }

  lemma AsleepWaits(ecd: bool, s: State, t: Tid, a: Action, s': State)
    requires t in s.threads && Asleep(s.threads[t].phase) && Next(ecd, s, By(t, a), s')
    ensures WaitStep(ecd, s, t, a, s')
  {
    hide Next, RunStep, CommitStep, WakeStep, WaitStep;
    StepOf(ecd, s, t, a, s');
    match PartOf(a) {
      case Closure => ClosurePhases(ecd, s, t, a, s');
      case Commit => CommitPhases(ecd, s, t, a, s');
      case Wake => WakeStepShape(s, t, a, s');
      case Wait =>
    }
  }

  lemma AsleepSteps(ecd: bool, s: State, t: Tid, a: Action, s': State)
    requires t in s.threads && Asleep(s.threads[t].phase) && WaitStep(ecd, s, t, a, s')
    ensures t in s'.threads && CbOf(s'.threads[t].phase) == CbOf(s.threads[t].phase)
    ensures !Asleep(s'.threads[t].phase) <==> s.threads[t].phase.Polling? && s.threads[t].phase.cb in s.changed
  {
    hide Waits, LogOf, ListFree, Retain, FreeToRead, RunFrom;
  }

  // ---------------------------------------------------------------- who is held up, and by what

  /** The record needs a lock that others hold. */
  ghost predicate LockTaken(s: State, e: LogVar, x: Addr) {
    || (e.Read? && !FreeToRead(s, x))
    || ((e.Write? || e.ReadWrite? || e.ReadObsoleteWrite?) && !FreeToWrite(s, x))
  }

  /** The thread waits: for a variable somebody is writing back, for memory, for a lock, for the list of
      a variable that somebody sweeps. */
  ghost predicate HeldUp(s: State, t: Tid)
    requires t in s.threads
  {
    var th := s.threads[t];
    match th.phase
    case Running =>
      th.run.Ask? && (if th.run.q.AskLoad? then !FreeToRead(s, th.run.q.x) else forall ptr :: !Unallocated(s, ptr))
    case Locking(todo, _, _) =>
      exists x :: Least(x, todo) && x in LogOf(th) && LockTaken(s, LogOf(th)[x], x)
    case Waking(todo, taken, unpark) =>
      taken == [] && unpark.None? && exists x :: Least(x, todo) && !ListFree(s, x)
    case Registering(_, todo, _) => todo != {} && forall x :: x in todo ==> !ListFree(s, x)
    case Checking(_, x, _, _) => !FreeToRead(s, x)
    case Sweeping(_, x, _, locked) => !locked && !ListFree(s, x)
    case _ => false
  }

  lemma RunningHeld(ecd: bool, s: State, t: Tid, a: Action, s': State)
    requires t in s.threads && RunStep(ecd, s, t, a, s')
    ensures !HeldUp(s, t)
  {
    hide LogOf, Waits, RunFrom, FreeToRead, Unallocated;
  }

  lemma LeastIsOne(x: Addr, y: Addr, xs: set<Addr>)
    requires Least(x, xs) && Least(y, xs)
    ensures x == y
  {
  }

  lemma LockingHeld(s: State, t: Tid, x: Addr, s': State)
    requires t in s.threads && s.threads[t].phase.Locking? && LockStep(s, t, x, s')
    ensures !HeldUp(s, t)
  {
    hide FreeToRead, FreeToWrite, LogOf, Admits, Least;
    forall y | Least(y, s.threads[t].phase.todo) ensures y == x {
      LeastIsOne(x, y, s.threads[t].phase.todo);
    }
  }

  lemma NoLeastOfNone(x: Addr)
    ensures !Least(x, {})
  {
  }

  lemma CommitHeld(ecd: bool, s: State, t: Tid, a: Action, s': State)
    requires t in s.threads && CommitStep(ecd, s, t, a, s')
    ensures !HeldUp(s, t)
  {
    if a.Lock? {
      assert s.threads[t].phase.Locking? && LockStep(s, t, a.x, s');
      hide CommitStep, LockStep, HeldUp;
      LockingHeld(s, t, a.x, s');
    } else {
      forall x ensures !Least(x, {}) { NoLeastOfNone(x); }
      hide LogOf, Writes, RunFrom, Least, AllInstalled, Decision, LockTaken;
    }
  }

  lemma WakeHeld(s: State, t: Tid, a: Action, s': State)
    requires t in s.threads && WakeStep(s, t, a, s')
    ensures !HeldUp(s, t)
  {
    forall x ensures !Least(x, {}) { NoLeastOfNone(x); }
    if a.Take? {
      forall y | Least(y, s.threads[t].phase.todo) ensures y == a.x {
        LeastIsOne(a.x, y, s.threads[t].phase.todo);
      }
    }
    hide ListFree, Alive, Least;
  }

  lemma WaitHeld(ecd: bool, s: State, t: Tid, a: Action, s': State)
    requires t in s.threads && WaitStep(ecd, s, t, a, s')
    ensures !HeldUp(s, t)
  {
    hide ListFree, FreeToRead, LogOf, Waits, Retain, RunFrom;
  }

  lemma MoverIsFree(ecd: bool, s: State, t: Tid, a: Action)
    requires CanStep(ecd, s, t, a)
    ensures t in s.threads && !HeldUp(s, t)
  {
    hide Next, RunStep, CommitStep, WakeStep, WaitStep, HeldUp;
    var s' := StepTo(ecd, s, t, a);
    StepOf(ecd, s, t, a, s');
    match PartOf(a) {
      case Closure => RunningHeld(ecd, s, t, a, s');
      case Commit => CommitHeld(ecd, s, t, a, s');
      case Wake => WakeHeld(s, t, a, s');
      case Wait => WaitHeld(ecd, s, t, a, s');
    }
  }

  lemma RunStepMoves(ecd: bool, s: State, t: Tid, a: Action, s': State)
    requires t in s.threads && RunStep(ecd, s, t, a, s')
    ensures CanStep(ecd, s, t, a) && CanMove(ecd, s, t)
  {
    hide RunStep, CommitStep, WakeStep, WaitStep;
    assert Next(ecd, s, By(t, a), s');
    assert CanStep(ecd, s, t, a);
  }

  lemma WaitStepMoves(ecd: bool, s: State, t: Tid, a: Action, s': State)
    requires t in s.threads && WaitStep(ecd, s, t, a, s')
    ensures CanMove(ecd, s, t)
  {
    hide RunStep, CommitStep, WakeStep, WaitStep;
    assert Next(ecd, s, By(t, a), s');
    assert CanStep(ecd, s, t, a);
  }

  lemma NextMoves(ecd: bool, s: State, t: Tid, a: Action, s': State)
    requires t in s.threads && Next(ecd, s, By(t, a), s')
    ensures CanMove(ecd, s, t)
  {
    hide Next;
    assert CanStep(ecd, s, t, a);
  }

  lemma IdleMoves(ecd: bool, s: State, t: Tid)
    requires t in s.threads && s.threads[t].phase.Idle?
    ensures CanMove(ecd, s, t)
  {
    hide Begin, CanMove;
    var body: Body := Return(Nothing);
    assert RunStep(ecd, s, t, Start(body), SetThread(s, t, Begin(ecd, body)));
    RunStepMoves(ecd, s, t, Start(body), SetThread(s, t, Begin(ecd, body)));
  }

  lemma AskingMoves(ecd: bool, s: State, t: Tid)
    requires t in s.threads && s.threads[t].phase.Running? && s.threads[t].run.Ask? && !HeldUp(s, t)
    ensures CanMove(ecd, s, t)
  {
    var th := s.threads[t];
    hide CanMove, Loaded, Allocated, FreeToRead, Unallocated;
    if th.run.q.AskLoad? {
      var s' := SetThread(s, t, Loaded(ecd, th, th.run.q.x, s.vars[th.run.q.x].value));
      assert RunStep(ecd, s, t, LoadVar, s');
      RunStepMoves(ecd, s, t, LoadVar, s');
    } else {
      var ptr :| Unallocated(s, ptr);
      var s' := SetThread(s, t, Allocated(ecd, th, Id(ptr, s.nextId))).(nextId := s.nextId + 1);
      assert RunStep(ecd, s, t, Box(ptr), s');
      RunStepMoves(ecd, s, t, Box(ptr), s');
    }
  }

  /** What the driver loops do with a closure that has ended: commit if and only if it returned; run it
      again at once only if it failed; wait, as `with_err` does for a failure too, or give up, only if
      it did not return. */
  lemma DriversChoose(ecd: bool, s: State, t: Tid)
    requires t in s.threads && s.threads[t].phase.Running? && s.threads[t].run.Done?
    ensures CanStep(ecd, s, t, EnterCommit) <==> s.threads[t].run.out.Ok?
    ensures CanStep(ecd, s, t, Rerun) <==> s.threads[t].run.out.Failed?
    ensures CanStep(ecd, s, t, Block) <==> !s.threads[t].run.out.Ok?
    ensures CanStep(ecd, s, t, GiveUp) <==> !s.threads[t].run.out.Ok?
  {
    hide CanStep, CanMove;
    EnterWhenOk(ecd, s, t);
    RerunWhenFailed(ecd, s, t);
    BlockWhenNotOk(ecd, s, t);
    GiveUpWhenNotOk(ecd, s, t);
  }

  lemma ClosureStepOf(ecd: bool, s: State, t: Tid, a: Action)
    requires t in s.threads && CanStep(ecd, s, t, a) && PartOf(a) == Closure
    ensures exists s' :: RunStep(ecd, s, t, a, s')
  {
    hide Next, RunStep, CommitStep, WakeStep, WaitStep;
    var s' := StepTo(ecd, s, t, a);
    StepOf(ecd, s, t, a, s');
  }

  lemma EnterWhenOk(ecd: bool, s: State, t: Tid)
    requires t in s.threads && s.threads[t].phase.Running? && s.threads[t].run.Done?
    ensures CanStep(ecd, s, t, EnterCommit) <==> s.threads[t].run.out.Ok?
  {
    hide LogOf, CanStep;
    assert PartOf(EnterCommit) == Closure;
    if s.threads[t].run.out.Ok? {
      var s' := SetPhase(s, t, Locking(LogOf(s.threads[t]).Keys, {}, {}));
      assert RunStep(ecd, s, t, EnterCommit, s');
      RunStepMoves(ecd, s, t, EnterCommit, s');
    } else if CanStep(ecd, s, t, EnterCommit) {
      ClosureStepOf(ecd, s, t, EnterCommit);
    }
  }

  lemma RerunWhenFailed(ecd: bool, s: State, t: Tid)
    requires t in s.threads && s.threads[t].phase.Running? && s.threads[t].run.Done?
    ensures CanStep(ecd, s, t, Rerun) <==> s.threads[t].run.out.Failed?
  {
    hide Begin, CanStep;
    assert PartOf(Rerun) == Closure;
    if s.threads[t].run.out.Failed? {
      var s' := SetThread(s, t, Begin(ecd, s.threads[t].body));
      assert RunStep(ecd, s, t, Rerun, s');
      RunStepMoves(ecd, s, t, Rerun, s');
    } else if CanStep(ecd, s, t, Rerun) {
      ClosureStepOf(ecd, s, t, Rerun);
    }
  }

  lemma BlockWhenNotOk(ecd: bool, s: State, t: Tid)
    requires t in s.threads && s.threads[t].phase.Running? && s.threads[t].run.Done?
    ensures CanStep(ecd, s, t, Block) <==> !s.threads[t].run.out.Ok?
  {
    hide LogOf, Waits, CanStep;
    assert PartOf(Block) == Closure;
    if !s.threads[t].run.out.Ok? {
      var waits := Waits(LogOf(s.threads[t]));
      var s' := SetPhase(s, t, Registering(Cb(t, s.nextCb), waits.Keys, {})).(nextCb := s.nextCb + 1);
      assert RunStep(ecd, s, t, Block, s');
      RunStepMoves(ecd, s, t, Block, s');
    } else if CanStep(ecd, s, t, Block) {
      ClosureStepOf(ecd, s, t, Block);
    }
  }

  lemma GiveUpWhenNotOk(ecd: bool, s: State, t: Tid)
    requires t in s.threads && s.threads[t].phase.Running? && s.threads[t].run.Done?
    ensures CanStep(ecd, s, t, GiveUp) <==> !s.threads[t].run.out.Ok?
  {
    hide CanStep;
    assert PartOf(GiveUp) == Closure;
    if !s.threads[t].run.out.Ok? {
      assert RunStep(ecd, s, t, GiveUp, SetPhase(s, t, Idle));
      RunStepMoves(ecd, s, t, GiveUp, SetPhase(s, t, Idle));
    } else if CanStep(ecd, s, t, GiveUp) {
      ClosureStepOf(ecd, s, t, GiveUp);
    }
  }

  lemma DoneMoves(ecd: bool, s: State, t: Tid)
    requires t in s.threads && s.threads[t].phase.Running? && s.threads[t].run.Done?
    ensures CanMove(ecd, s, t)
  {
    hide CanStep;
    DriversChoose(ecd, s, t);
  }

  lemma LockingMoves(ecd: bool, s: State, t: Tid)
    requires t in s.threads && s.threads[t].phase.Locking? && PhaseFits(s.threads[t]) && !HeldUp(s, t)
    ensures CanMove(ecd, s, t)
  {
    var todo := s.threads[t].phase.todo;
    hide CanMove, CanFinish, FreeToRead, FreeToWrite, LogOf;
    if todo == {} {
      DecideCanStep(ecd, s, t);
    } else {
      var x := LeastExists(todo);
      assert Least(x, todo) && x in LogOf(s.threads[t]);
      LockCanStep(ecd, s, t, x);
    }
  }

  lemma WakingMoves(ecd: bool, s: State, t: Tid)
    requires t in s.threads && s.threads[t].phase.Waking? && !HeldUp(s, t)
    ensures CanMove(ecd, s, t)
  {
    var ph := s.threads[t].phase;
    hide CanMove, CanFinish, ListFree;
    if ph.unpark.Some? {
      UnparkCanStep(ecd, s, t);
    } else if ph.taken != [] {
      SignalCanStep(ecd, s, t);
    } else if ph.todo != {} {
      var x := LeastExists(ph.todo);
      TakeListCanStep(ecd, s, t, x);
    } else {
      FinishCanStep(ecd, s, t);
    }
  }

  lemma RegisteringMoves(ecd: bool, s: State, t: Tid)
    requires t in s.threads && s.threads[t].phase.Registering? && !HeldUp(s, t)
    ensures CanMove(ecd, s, t)
  {
    var ph := s.threads[t].phase;
    hide CanMove, ListFree, Waits, LogOf;
    if ph.todo == {} {
      assert WaitStep(ecd, s, t, StartPoll, SetPhase(s, t, Polling(ph.cb)));
      WaitStepMoves(ecd, s, t, StartPoll, SetPhase(s, t, Polling(ph.cb)));
    } else {
      var x :| x in ph.todo && ListFree(s, x);
      var s' := SetPhase(SetVar(s, x, s.vars[x].(waiting := s.vars[x].waiting + [ph.cb])), t,
                         Checking(ph.cb, x, ph.todo - {x}, ph.reg));
      Registers(ecd, s, t, x, s');
      hide Next;
      NextMoves(ecd, s, t, Register(x), s');
    }
  }

  lemma CheckingMoves(ecd: bool, s: State, t: Tid)
    requires t in s.threads && s.threads[t].phase.Checking? && PhaseFits(s.threads[t]) && !HeldUp(s, t)
    ensures CanMove(ecd, s, t)
  {
    var ph, waits := s.threads[t].phase, Waits(LogOf(s.threads[t]));
    assert ph.x in waits;
    hide CanMove, FreeToRead, Waits, LogOf;
    var s' := SetPhase(s, t,
                       if PtrEq(waits[ph.x], s.vars[ph.x].value) then Registering(ph.cb, ph.todo, ph.reg + {ph.x})
                       else Dying(ph.cb, ph.reg + {ph.x}));
    assert WaitStep(ecd, s, t, Check, s');
    WaitStepMoves(ecd, s, t, Check, s');
  }

  lemma AsleepMoves(ecd: bool, s: State, t: Tid)
    requires t in s.threads && Asleep(s.threads[t].phase)
    ensures CanMove(ecd, s, t)
  {
    hide CanMove, Next, Waits, LogOf;
    if s.threads[t].phase.Parked? {
      var s' := GetsUp(ecd, s, t);
      NextMoves(ecd, s, t, Unparked, s');
    } else if s.threads[t].phase.cb in s.changed {
      var s' := PollsOut(ecd, s, t);
      NextMoves(ecd, s, t, Poll, s');
    } else {
      assert WaitStep(ecd, s, t, Poll, SetPhase(s, t, Parked(s.threads[t].phase.cb)));
      WaitStepMoves(ecd, s, t, Poll, SetPhase(s, t, Parked(s.threads[t].phase.cb)));
    }
  }

  lemma DyingMoves(ecd: bool, s: State, t: Tid)
    requires t in s.threads && (s.threads[t].phase.Dying? || s.threads[t].phase.Sweeping?) && !HeldUp(s, t)
    ensures CanMove(ecd, s, t)
  {
    var ph := s.threads[t].phase;
    hide CanMove, Next, ListFree;
    if ph.Dying? {
      if ph.todo == {} {
        var s' := Leaves(ecd, s, t);
        NextMoves(ecd, s, t, Leave, s');
      } else {
        var x :| x in ph.todo;
        var s' := MarksDead(ecd, s, t, x);
        NextMoves(ecd, s, t, MarkDead(x), s');
      }
    } else if ph.locked {
      var s' := EndsSweep(ecd, s, t, ph.x);
      NextMoves(ecd, s, t, SweepEnd, s');
    } else {
      var s' := StartsSweep(ecd, s, t, ph.x);
      NextMoves(ecd, s, t, SweepStart, s');
    }
  }

  lemma FreeMoves(ecd: bool, s: State, t: Tid)
    requires t in s.threads && PhaseFits(s.threads[t]) && !HeldUp(s, t)
    ensures CanMove(ecd, s, t)
  {
    hide CanMove, PhaseFits, HeldUp, CanFinish;
    match s.threads[t].phase {
      case Idle => IdleMoves(ecd, s, t);
      case Running =>
        if s.threads[t].run.Ask? {
          AskingMoves(ecd, s, t);
        } else {
          DoneMoves(ecd, s, t);
        }
      case Locking(_, _, _) => LockingMoves(ecd, s, t);
      case Unlocking(_, _) => UnlockingCanStep(ecd, s, t);
      case Publishing(_, _) => PublishingCanStep(ecd, s, t);
      case Waking(_, _, _) => WakingMoves(ecd, s, t);
      case Registering(_, _, _) => RegisteringMoves(ecd, s, t);
      case Checking(_, _, _, _) => CheckingMoves(ecd, s, t);
      case Polling(_) => AsleepMoves(ecd, s, t);
      case Parked(_) => AsleepMoves(ecd, s, t);
      case Dying(_, _) => DyingMoves(ecd, s, t);
      case Sweeping(_, _, _, _) => DyingMoves(ecd, s, t);
    }
  }

  /** Exactly who is held up, and by what: in every reachable state a thread can take a step unless it
      needs a lock that another thread holds, a list that another one sweeps, or memory that is not
      there. A sleeper is never held up: it can always look at its flag again. */
  lemma MovesUnlessHeldUp(ecd: bool, s: State, t: Tid)
    requires Reachable(ecd, s) && t in s.threads
    ensures CanMove(ecd, s, t) <==> !HeldUp(s, t)
  {
    hide Reachable, Inv, PhaseFits, HeldUp, CanStep;
    ReachableInv(ecd, s);
    InvFits(ecd, s, t);
    if CanMove(ecd, s, t) {
      var a :| CanStep(ecd, s, t, a);
      MoverIsFree(ecd, s, t, a);
    }
    if !HeldUp(s, t) {
      FreeMoves(ecd, s, t);
    }
  }

  lemma NobodyHolds(s: State, t: Tid)
    requires t in s.threads && forall u :: u in s.threads ==> !Committing(s.threads[u].phase)
    requires forall u :: u in s.threads ==> !(s.threads[u].phase.Sweeping? && s.threads[u].phase.locked)
    ensures forall x: Addr :: FreeToRead(s, x) && ListFree(s, x)
  {
  }

  lemma NothingHolds(s: State, t: Tid, ptr: nat)
    requires t in s.threads && !Committing(s.threads[t].phase) && Unallocated(s, ptr)
    requires forall x: Addr :: FreeToRead(s, x) && ListFree(s, x)
    ensures !HeldUp(s, t)
  {
    hide FreeToRead, ListFree, Unallocated;
  }

  /** No deadlock in the whole system: as long as there is memory left, some thread can take a step. */
  lemma SomebodyMoves(ecd: bool, s: State, ptr: nat)
    requires Reachable(ecd, s) && s.threads != map[] && Unallocated(s, ptr)
    ensures exists t, a :: CanStep(ecd, s, t, a)
  {
    hide Reachable, Unallocated, HeldUp, CanStep, FreeToRead, ListFree;
    if t :| t in s.threads && Committing(s.threads[t].phase) {
      CommitsDoNotDeadlock(ecd, s, t);
    } else if t :| t in s.threads && s.threads[t].phase.Sweeping? && s.threads[t].phase.locked {
      SweepEndCanStep(ecd, s, t);
    } else {
      var t :| t in s.threads;
      NobodyHolds(s, t);
      NothingHolds(s, t, ptr);
      MovesUnlessHeldUp(ecd, s, t);
    }
  }
}
