/** Pointer comparison is version comparison, so aborts and early conflicts are always real. */
module Versions {
  import opened Values
  import opened Logs
  import opened Programs
  import opened RunFacts
  import opened Machine
  import opened Invariants
  import opened Safety
  import opened Commits
  import opened Publication
  import opened Serializability
  import opened Validation

  // ---------------------------------------------------------------- what steps touch

  lemma RunStepShape(ecd: bool, s: State, t: Tid, a: Action, s': State)
    requires t in s.threads && RunStep(ecd, s, t, a, s')
    ensures OnlyMoves(s, t, s')
    ensures s'.vars == s.vars && s'.hist == s.hist && s'.changed == s.changed && s'.tokens == s.tokens
    ensures s'.atomics == s.atomics && s.nextCb <= s'.nextCb
  {
    ClosureShape(ecd, s, t, a, s');
    hide RunStep;
  }

  lemma LockOnlyPhase(s: State, t: Tid, x: Addr, s': State)
    requires t in s.threads && s.threads[t].phase.Locking? && LockStep(s, t, x, s')
    ensures s' == SetPhase(s, t, s'.threads[t].phase)
  {
    hide FreeToRead, FreeToWrite, LogOf, Admits;
  }

  lemma WriteBackTouches(ecd: bool, s: State, t: Tid, x: Addr, s': State)
    requires t in s.threads && CommitStep(ecd, s, t, WriteBack(x), s')
    ensures PhaseOnly(s, t, s')
    ensures s'.changed == s.changed && s'.tokens == s.tokens && s'.atomics == s.atomics && s'.nextCb == s.nextCb
  {
    hide LogOf, Writes, Least;
  }

  lemma DecideTouches(ecd: bool, s: State, t: Tid, s': State)
    requires t in s.threads && CommitStep(ecd, s, t, Decide, s')
    ensures PhaseOnly(s, t, s')
    ensures s'.changed == s.changed && s'.tokens == s.tokens && s'.atomics == s.atomics && s'.nextCb == s.nextCb
    ensures s'.vars == s.vars && s'.hist == s.hist
  {
    hide LogOf, AllInstalled, Decision;
  }

  lemma GuardStepTouches(ecd: bool, s: State, t: Tid, a: Action, s': State)
    requires t in s.threads && CommitStep(ecd, s, t, a, s') && !a.WriteBack? && !a.Decide? && !a.Lock?
    ensures if a.Restart? then s' == SetThread(s, t, Begin(ecd, s.threads[t].body))
            else s' == SetPhase(s, t, s'.threads[t].phase)
  {
    hide LogOf, Begin, Writes, Least;
  }

  lemma CommitStepShape(ecd: bool, s: State, t: Tid, a: Action, s': State)
    requires t in s.threads && CommitStep(ecd, s, t, a, s')
    ensures OnlyMoves(s, t, s')
    ensures a.Restart? || PhaseOnly(s, t, s')
    ensures s'.changed == s.changed && s'.tokens == s.tokens && s'.atomics == s.atomics && s'.nextCb == s.nextCb
    ensures !a.WriteBack? ==> s'.vars == s.vars && s'.hist == s.hist
  {
    if a.Lock? {
      assert s.threads[t].phase.Locking? && LockStep(s, t, a.x, s');
      LockOnlyPhase(s, t, a.x, s');
    } else if a.WriteBack? {
      WriteBackTouches(ecd, s, t, a.x, s');
    } else if a.Decide? {
      DecideTouches(ecd, s, t, s');
    } else {
      GuardStepTouches(ecd, s, t, a, s');
    }
    hide CommitStep, LockStep, Begin;
  }

  lemma SameHistGrows(s: State, s': State)
    requires s'.hist == s.hist
    ensures forall x: Addr :: HistAt(s, x) <= HistAt(s', x)
  {
  }

  /** Histories only grow. */
  lemma NextGrowsHistory(ecd: bool, s: State, m: Move, s': State)
    requires Next(ecd, s, m, s')
    ensures forall x: Addr :: HistAt(s, x) <= HistAt(s', x)
  {
    hide RunStep, CommitStep, WakeStep, WaitStep, AtomicStep, HistAt, Begin;
    match m
    case Atomic(x, ptr, v) =>
      AtomicShape(s, x, ptr, v, s');
    case By(t, a) =>
      if RunStep(ecd, s, t, a, s') {
        RunStepShape(ecd, s, t, a, s');
        SameHistGrows(s, s');
      } else if CommitStep(ecd, s, t, a, s') {
        CommitStepShape(ecd, s, t, a, s');
        if a.WriteBack? {
          WriteBackShape(ecd, s, t, a.x, s');
        } else {
          SameHistGrows(s, s');
        }
      } else if WakeStep(s, t, a, s') {
        WakeStepShape(s, t, a, s');
        SameHistGrows(s, s');
      } else {
        WaitStepShape(ecd, s, t, a, s');
        SameHistGrows(s, s');
      }
  }

  lemma {:induction false} HistoryGrows(ecd: bool, states: seq<State>, moves: seq<Move>, i: nat, j: nat, x: Addr)
    requires Behaviour(ecd, states, moves) && i <= j < |states|
    ensures HistAt(states[i], x) <= HistAt(states[j], x)
  {
    hide *;
    if i < j {
      BehaviourShape(ecd, states, moves);
      HistoryGrows(ecd, states, moves, i, j - 1, x);
      BehaviourNext(ecd, states, moves, j - 1);
      NextGrowsHistory(ecd, states[j - 1], moves[j - 1], states[j]);
    }
  }

  // ---------------------------------------------------------------- pointers and versions

  /** The number of writes variable `x` has seen. */
  function Version(s: State, x: Addr): int {
    |HistAt(s, x)| - 1
  }

  /** Where two live allocations are compared, pointer comparison is comparison of identity. */
  lemma PtrEqIsEq(s: State, a: Arc, b: Arc)
    requires ArcsUnique(s) && InUse(s, a) && InUse(s, b)
    ensures PtrEq(a, b) <==> a == b
  {
    hide InUse;
  }

  /** A value that was version `i` of `x` is its value now exactly if `x` is at version `i`. */
  lemma CurrentVersion(s: State, x: Addr, i: nat)
    requires HistoryOk(s) && i <= Version(s, x)
    ensures HistAt(s, x)[i] == Cur(s, x) <==> i == Version(s, x)
  {
    hide HistAt, Cur, Installed;
    if HistAt(s, x)[i] == Cur(s, x) {
      assert HistAt(s, x)[Version(s, x)].id.serial == HistAt(s, x)[i].id.serial;
    }
  }

  /** No ABA. Take a value found in `x` and kept alive ever since: however often addresses were
      reused in between, `Arc::ptr_eq` with the present value holds exactly if nobody wrote `x`. */
  lemma PtrEqMeansUnwritten(ecd: bool, states: seq<State>, moves: seq<Move>, i: nat, j: nat, x: Addr)
    requires Behaviour(ecd, states, moves) && i <= j < |states|
    requires InUse(states[j], Cur(states[i], x))
    ensures PtrEq(Cur(states[i], x), Cur(states[j], x)) <==> Version(states[j], x) == Version(states[i], x)
  {
    hide Behaviour, Next, InUse, Cur, HistAt;
    BehaviourKeepsInv(ecd, states, moves, i);
    BehaviourKeepsInv(ecd, states, moves, j);
    HistoryGrows(ecd, states, moves, i, j, x);
    var s, s' := states[i], states[j];
    InvHistory(ecd, s);
    InvHistory(ecd, s');
    hide Inv;
    assert HistAt(s', x)[Version(s, x)] == Cur(s, x);
    CurrentVersion(s', x, Version(s, x));
    assert InUse(s', Cur(s', x)) by { CurrentInUse(s', x); }
    PtrEqIsEq(s', Cur(s, x), Cur(s', x));
  }

  lemma CurrentInUse(s: State, x: Addr)
    ensures InUse(s, Cur(s, x))
  {
    assert InVariable(s, Cur(s, x));
  }

  lemma InvHistory(ecd: bool, s: State)
    requires Inv(ecd, s)
    ensures HistoryOk(s) && LoadsOk(s) && ArcsUnique(s) && AllocsDistinct(s)
  {
  }

  /** A value `x` had once and has no more. */
  ghost predicate Stale(s: State, x: Addr, a: Arc) {
    a in HistAt(s, x) && a != Cur(s, x)
  }

  lemma StaleStays(s: State, s': State, x: Addr, a: Arc)
    requires HistoryOk(s) && HistoryOk(s') && HistAt(s, x) <= HistAt(s', x)
    requires Stale(s, x, a)
    ensures Stale(s', x, a)
  {
    var i :| 0 <= i < |HistAt(s, x)| && HistAt(s, x)[i] == a;
    CurrentVersion(s, x, i);
    CurrentVersion(s', x, i);
  }

  // ---------------------------------------------------------------- aborts

  /** What the log of an unfinished commit recorded was once in the variable. */
  lemma RecordedWasThere(ecd: bool, s: State, t: Tid, x: Addr)
    requires Inv(ecd, s) && t in s.threads && !s.threads[t].phase.Idle? && s.threads[t].run.Done?
    requires x in Waits(LogOf(s.threads[t]))
    ensures Waits(LogOf(s.threads[t]))[x] in HistAt(s, x)
  {
    var th := s.threads[t];
    InvThread(ecd, s, t);
    InvHistory(ecd, s);
    hide Inv;
    assert SerialsDistinct(th.allocs);
    FinishedLog(ecd, th);
    assert Access(x, LogOf(th)[x].orig) in th.loads;
  }

  lemma LockingKeepsAlive(s: State, t: Tid, x: Addr)
    requires t in s.threads && s.threads[t].phase.Locking? && x in Waits(LogOf(s.threads[t]))
    ensures InUse(s, Waits(LogOf(s.threads[t]))[x])
  {
    var a := Waits(LogOf(s.threads[t]))[x];
    assert a in LogOf(s.threads[t])[x].Parts();
    assert a in HeldBy(s.threads[t]);
    hide HeldBy;
    assert InThread(s, a);
  }

  /** Every abort is charged to progress. `commit` gives up on a record exactly if that record is
      validated and its variable has been written since the value was read. Giving up changes no
      variable, list or flag and records no event. */
  lemma AbortIsCharged(ecd: bool, s: State, t: Tid, x: Addr, s': State)
    requires Inv(ecd, s) && t in s.threads && CommitStep(ecd, s, t, Lock(x), s')
    ensures var log := LogOf(s.threads[t]);
            s'.threads[t].phase.Unlocking? <==> x in Reads(log) && Stale(s, x, Reads(log)[x])
    ensures s'.vars == s.vars && s'.changed == s.changed && s'.tokens == s.tokens
    ensures s'.abs == s.abs && s'.events == s.events
  {
    var log := LogOf(s.threads[t]);
    assert x in log;
    CommitStepShape(ecd, s, t, Lock(x), s');
    CommitStepsKeepAbs(ecd, s, t, Lock(x), s');
    LockOutcome(s, t, x, s');
    InvHistory(ecd, s);
    if x in Reads(log) {
      RecordedWasThere(ecd, s, t, x);
      LockingKeepsAlive(s, t, x);
      hide InUse, Inv;
      CurrentInUse(s, x);
      PtrEqIsEq(s, Cur(s, x), Reads(log)[x]);
    }
  }

  /** And it lets go of every lock before it runs the closure again, still without a trace. */
  lemma AbortReleases(ecd: bool, s: State, t: Tid, a: Action, s': State)
    requires t in s.threads && s.threads[t].phase.Unlocking? && CommitStep(ecd, s, t, a, s')
    ensures s'.vars == s.vars && s'.changed == s.changed && s'.tokens == s.tokens
    ensures s'.abs == s.abs && s'.events == s.events
    ensures t in s'.threads && (s'.threads[t].phase.Unlocking? || s'.threads[t].phase.Running?)
    ensures s'.threads[t].phase.Running? ==>
        WriteGuards(s.threads[t].phase) == {} && ReadGuards(s.threads[t].phase) == {}
  {
    CommitStepShape(ecd, s, t, a, s');
    UnlockingMoves(ecd, s, t, a, s');
    CommitStepsKeepAbs(ecd, s, t, a, s');
  }

  lemma UnlockingMoves(ecd: bool, s: State, t: Tid, a: Action, s': State)
    requires t in s.threads && s.threads[t].phase.Unlocking? && CommitStep(ecd, s, t, a, s')
    ensures !a.WriteBack? && !a.Decide?
    ensures t in s'.threads && (s'.threads[t].phase.Unlocking? || s'.threads[t].phase.Running?)
    ensures s'.threads[t].phase.Running? ==>
        WriteGuards(s.threads[t].phase) == {} && ReadGuards(s.threads[t].phase) == {}
  {
    hide LogOf, Writes, RunFrom, LockStep, Least, AllInstalled, Decision;
  }

  lemma LockOutcome(s: State, t: Tid, x: Addr, s': State)
    requires t in s.threads && s.threads[t].phase.Locking? && LockStep(s, t, x, s')
    ensures s'.threads[t].phase.Unlocking? <==> !Admits(LogOf(s.threads[t])[x], Cur(s, x))
  {
    hide FreeToRead, FreeToWrite, LogOf;
  }

  /** Which locks a record takes, and whether `commit` gives up on it: only real reads are compared,
      and a record left by a branch that retried takes no lock at all. */
  lemma LockComparesReals(ecd: bool, s: State, t: Tid, x: Addr, s': State)
    requires t in s.threads && CommitStep(ecd, s, t, Lock(x), s')
    ensures x in LogOf(s.threads[t]) && t in s'.threads
    ensures var e, ph, ph' := LogOf(s.threads[t])[x], s.threads[t].phase, s'.threads[t].phase;
            && (ph'.Unlocking? <==> (e.Read? || e.ReadWrite?) && !PtrEq(Cur(s, x), e.orig))
            && (!ph'.Unlocking? ==> ph'.Locking? && ph'.todo == ph.todo - {x})
            && ReadGuards(ph') == ReadGuards(ph) + (if e.Read? then {x} else {})
            && WriteGuards(ph') == WriteGuards(ph)
                 + (if e.Write? || e.ReadWrite? || e.ReadObsoleteWrite? then {x} else {})
  {
    hide FreeToRead, FreeToWrite, LogOf;
  }

  /** The log of a thread in `commit` has real reads of what the path taken depends on. */
  lemma CommitsWhatItNeeds(ecd: bool, s: State, t: Tid)
    requires Inv(ecd, s) && t in s.threads && !s.threads[t].phase.Idle? && s.threads[t].run.Done?
    ensures var th := s.threads[t];
            RealReads(LogOf(th)) == Needs(ecd, th.body, Ctx(map[], Replay(th.loads, th.allocs), []))
  {
    InvThread(ecd, s, t);
    var th := s.threads[t];
    RunIsExec(ecd, th);
    hide Inv, Exec, LogOf, Coherent, ValidatedHolds;
    ReadsAreNeeded(ecd, th.body, Ctx(map[], Replay(th.loads, th.allocs), []));
    assert RealReads(map[]) == {};
  }

  /** So `commit` gives up on `x` if and only if the path taken depends on `x` and `x` has another value
      than it saw. */
  lemma AbortsOnNeedsOnly(ecd: bool, s: State, t: Tid, x: Addr, s': State)
    requires Inv(ecd, s) && t in s.threads && CommitStep(ecd, s, t, Lock(x), s')
    ensures x in LogOf(s.threads[t]) && t in s'.threads
    ensures var th := s.threads[t];
            s'.threads[t].phase.Unlocking? <==>
              && x in Needs(ecd, th.body, Ctx(map[], Replay(th.loads, th.allocs), []))
              && LogOf(th)[x].HasOrig() && !PtrEq(Cur(s, x), LogOf(th)[x].orig)
  {
    LockComparesReals(ecd, s, t, x, s');
    assert s.threads[t].phase.Locking?;
    InvThread(ecd, s, t);
    assert s.threads[t].run.Done?;
    hide Inv, CommitStep, LogOf, Needs, Coherent, ReadGuards, WriteGuards;
    CommitsWhatItNeeds(ecd, s, t);
  }

  /** `Stale` in terms of versions: some write came after the one that installed the value. */
  lemma StaleMeansOvertaken(s: State, x: Addr, a: Arc)
    requires HistoryOk(s)
    ensures Stale(s, x, a) <==> exists i :: 0 <= i < Version(s, x) && HistAt(s, x)[i] == a
  {
    if Stale(s, x, a) {
      var i :| 0 <= i < |HistAt(s, x)| && HistAt(s, x)[i] == a;
      CurrentVersion(s, x, i);
    }
    if i :| 0 <= i < Version(s, x) && HistAt(s, x)[i] == a {
      CurrentVersion(s, x, i);
    }
  }
}
