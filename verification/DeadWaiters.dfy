/** The list of a variable never holds many dead waiters, although the counter of dead ones is
    read, reset and incremented without one lock around all of it. */
module DeadWaiters {
  import opened Values
  import opened Logs
  import opened Programs
  import opened RunFacts
  import opened Machine
  import opened Invariants
  import opened Safety
  import opened Publication
  import opened Serializability
  import opened Versions
  import opened Conflicts
  import opened Wakeup

  // ---------------------------------------------------------------- counting waiters

  /** The thread in this phase has passed over `x` in its `set_dead` loop. */
  predicate PassedOver(ph: Phase, x: Addr) {
    (ph.Dying? || ph.Sweeping?) && x !in ph.todo
  }

  /** Inside the `if` of `set_dead` on `x`; holding the mutex around the list or not. */
  predicate SweepsAt(ph: Phase, x: Addr) {
    ph.Sweeping? && ph.x == x
  }

  predicate LockedAt(ph: Phase, x: Addr) {
    SweepsAt(ph, x) && ph.locked
  }

  /** `set_dead` was called on `x` for this waiter, or it is dead. */
  predicate IsMarked(s: State, cb: Cb, x: Addr) {
    !Alive(s, cb) || PassedOver(s.threads[cb.owner].phase, x)
  }

  /** The waiter is dead, or its thread is not in a sweep of `x`. */
  predicate NotSweeping(s: State, cb: Cb, x: Addr) {
    !Alive(s, cb) || !SweepsAt(s.threads[cb.owner].phase, x)
  }

  function MarkedAt(s: State, x: Addr): set<Cb> {
    set cb | cb in ListAt(s, x) && IsMarked(s, cb, x)
  }

  function NotSweepingAt(s: State, x: Addr): set<Cb> {
    set cb | cb in ListAt(s, x) && NotSweeping(s, cb, x)
  }

  function DeadAmong(s: State, x: Addr): set<Cb> {
    set cb | cb in ListAt(s, x) && !Alive(s, cb)
  }

  /** Threads that have decided to sweep `x` and do not hold the mutex yet. */
  function Sweepers(s: State, x: Addr): set<Tid> {
    set t | t in s.threads && SweepsAt(s.threads[t].phase, x) && !LockedAt(s.threads[t].phase, x)
  }

  /** The counter runs past 64 only by threads about to sweep; while the list is not being swept
      all but a thread's worth of marked waiters are counted; while it is, what is in it that the
      sweepers themselves do not keep alive is bounded. */
  ghost predicate Bounded(s: State, x: Addr) {
    && DeadAt(s, x) <= 64 + |Sweepers(s, x)|
    && (ListFree(s, x) ==> |MarkedAt(s, x)| <= DeadAt(s, x) + |s.threads.Keys|)
    && (!ListFree(s, x) ==> |NotSweepingAt(s, x)| <= 64 + 2 * |s.threads.Keys|)
  }

  // ---------------------------------------------------------------- finite sets

  lemma SmallerSet<T>(a: set<T>, b: set<T>)
    requires a <= b
    ensures |a| <= |b|
  {
    assert b == a + (b - a);
  }

  /** Live control blocks belong to different threads. */
  lemma {:induction false} LivePerThread(s: State, live: set<Cb>, owners: set<Tid>)
    requires forall cb :: cb in live ==> Alive(s, cb) && cb.owner in owners
    ensures |live| <= |owners|
    decreases live
  {
    hide CbOf;
    if live != {} {
      var cb :| cb in live;
      LivePerThread(s, live - {cb}, owners - {cb.owner});
    }
  }

  // ---------------------------------------------------------------- the bound, in one state

  lemma ListFreeMeans(s: State, x: Addr)
    ensures ListFree(s, x) <==> forall t :: t in s.threads ==> !LockedAt(s.threads[t].phase, x)
  {
  }

  lemma LiveElsewhere(s: State, x: Addr)
    requires ListFree(s, x)
    ensures |NotSweepingAt(s, x) - DeadAmong(s, x)| <= |s.threads.Keys| - |Sweepers(s, x)|
  {
    ListFreeMeans(s, x);
    var others := s.threads.Keys - Sweepers(s, x);
    var live := NotSweepingAt(s, x) - DeadAmong(s, x);
    assert forall cb :: cb in live ==> Alive(s, cb) && cb.owner in others;
    hide Alive, ListFree, NotSweepingAt, DeadAmong, SweepsAt;
    LivePerThread(s, live, others);
    assert Sweepers(s, x) <= s.threads.Keys;
    assert |others| == |s.threads.Keys| - |Sweepers(s, x)|;
  }

  lemma FreeBound(s: State, x: Addr)
    requires Bounded(s, x) && ListFree(s, x)
    ensures |MarkedAt(s, x)| <= 64 + 2 * |s.threads.Keys|
    ensures |NotSweepingAt(s, x)| <= 64 + 2 * |s.threads.Keys|
  {
    assert Sweepers(s, x) <= s.threads.Keys;
    assert DeadAmong(s, x) <= MarkedAt(s, x) && DeadAmong(s, x) <= NotSweepingAt(s, x);
    LiveElsewhere(s, x);
    hide Alive, ListFree, NotSweepingAt, DeadAmong, MarkedAt, Sweepers, DeadAt;
    SmallerSet(Sweepers(s, x), s.threads.Keys);
    SmallerSet(DeadAmong(s, x), MarkedAt(s, x));
    assert NotSweepingAt(s, x) == (NotSweepingAt(s, x) - DeadAmong(s, x)) + DeadAmong(s, x);
  }

  lemma DeadBound(s: State, x: Addr)
    requires Bounded(s, x)
    ensures |DeadAmong(s, x)| <= 64 + 2 * |s.threads.Keys|
  {
    SmallerSet(DeadAmong(s, x), MarkedAt(s, x));
    SmallerSet(DeadAmong(s, x), NotSweepingAt(s, x));
    if ListFree(s, x) {
      FreeBound(s, x);
    }
    hide Alive, ListFree, IsMarked, NotSweeping;
  }

  // ---------------------------------------------------------------- what a step does to a list

  predicate Waiting(ph: Phase) {
    ph.Registering? || ph.Checking? || ph.Polling? || ph.Parked?
  }

  /** Entries are control blocks handed out before, none twice, and a waiting thread is only in
      the lists of variables it has registered with. */
  ghost predicate EntriesIssued(s: State) {
    forall x: Addr, cb :: cb in ListAt(s, x) ==> cb.serial < s.nextCb
  }

  ghost predicate EntriesRegistered(s: State) {
    forall t, x :: t in s.threads && Waiting(s.threads[t].phase) && CbOf(s.threads[t].phase).value in ListAt(s, x) ==>
      x in RegisteredWith(s.threads[t])
  }

  ghost predicate EntriesOk(s: State) {
    EntriesIssued(s) && EntriesRegistered(s) && forall x: Addr :: NoRepeats(ListAt(s, x))
  }

  /** The step enters its thread in the list of `x`. */
  ghost predicate Enters(s: State, t: Tid, a: Action, x: Addr) {
    a == Register(x) && t in s.threads && s.threads[t].phase.Registering? && x in s.threads[t].phase.todo
  }

  lemma WaitLists(ecd: bool, s: State, t: Tid, a: Action, s': State, x: Addr)
    requires t in s.threads && WaitStep(ecd, s, t, a, s')
    ensures || ListAt(s', x) == ListAt(s, x)
            || (a.SweepEnd? && ListAt(s', x) == Retain(s, ListAt(s, x)))
            || (Enters(s, t, a, x) && ListAt(s', x) == ListAt(s, x) + [s.threads[t].phase.cb])
  {
    hide Alive, ListFree, FreeToRead, Retain, Begin, Waits, LogOf;
  }

  lemma WakeLists(s: State, t: Tid, a: Action, s': State, x: Addr)
    requires t in s.threads && WakeStep(s, t, a, s')
    ensures ListAt(s', x) == ListAt(s, x) || (a.Take? && ListAt(s', x) == [])
  {
    hide Alive, ListFree, Least, LogOf;
  }

  /** How a step may change the list of `x`. */
  ghost predicate ListMoves(s: State, t: Tid, a: Action, s': State, x: Addr) {
    || ListAt(s', x) == ListAt(s, x)
    || ListAt(s', x) == []
    || ListAt(s', x) == Retain(s, ListAt(s, x))
    || (Enters(s, t, a, x) && ListAt(s', x) == ListAt(s, x) + [s.threads[t].phase.cb])
  }

  lemma SameVarsSameList(s: State, s': State, x: Addr)
    requires s'.vars == s.vars
    ensures ListAt(s', x) == ListAt(s, x) && DeadAt(s', x) == DeadAt(s, x)
  {
  }

  lemma StepLists(ecd: bool, s: State, t: Tid, a: Action, s': State, x: Addr)
    requires t in s.threads && Next(ecd, s, By(t, a), s')
    ensures ListMoves(s, t, a, s', x)
  {
    hide Next, RunStep, CommitStep, WakeStep, WaitStep, ListAt, Enters, DeadAt, Retain;
    StepOf(ecd, s, t, a, s');
    match PartOf(a) {
      case Closure =>
        RunStepShape(ecd, s, t, a, s');
        SameVarsSameList(s, s', x);
      case Commit =>
        CommitStepShape(ecd, s, t, a, s');
        if a.WriteBack? {
          WriteBackLists(ecd, s, t, a.x, s');
        } else {
          SameVarsSameList(s, s', x);
        }
      case Wake => WakeLists(s, t, a, s', x);
      case Wait => WaitLists(ecd, s, t, a, s', x);
    }
  }

  lemma RetainNoRepeats(s: State, list: seq<Cb>)
    requires NoRepeats(list)
    ensures NoRepeats(Retain(s, list))
  {
    hide NoRepeats, Keep, Upgradable;
    KeepNoRepeats(list, Upgradable(s, list));
  }

  lemma StepEntry(s: State, t: Tid, a: Action, s': State, x: Addr, cb: Cb)
    requires ListMoves(s, t, a, s', x) && cb in ListAt(s', x)
    ensures cb in ListAt(s, x) || (Enters(s, t, a, x) && cb == s.threads[t].phase.cb)
  {
    RetainKeepsLive(s, ListAt(s, x), cb);
    hide Alive, ListAt, Retain, Enters;
  }

  lemma StepKeepsIssued(s: State, t: Tid, a: Action, s': State)
    requires EntriesIssued(s) && CbsOwned(s) && s.nextCb <= s'.nextCb
    requires forall x: Addr :: ListMoves(s, t, a, s', x)
    ensures EntriesIssued(s')
  {
    hide ListAt, ListMoves;
    forall x: Addr, cb | cb in ListAt(s', x) ensures cb.serial < s'.nextCb {
      StepEntry(s, t, a, s', x, cb);
      if Enters(s, t, a, x) {
        assert CbOf(s.threads[t].phase) == Some(s.threads[t].phase.cb);
      }
    }
  }

  lemma NewEntry(ecd: bool, s: State, t: Tid, a: Action, x: Addr)
    requires Inv(ecd, s) && EntriesRegistered(s) && Enters(s, t, a, x)
    ensures s.threads[t].phase.cb !in ListAt(s, x)
  {
    InvFits(ecd, s, t);
    assert x !in RegisteredWith(s.threads[t]);
  }

  lemma StepKeepsNoRepeats(ecd: bool, s: State, t: Tid, a: Action, s': State, x: Addr)
    requires Inv(ecd, s) && EntriesRegistered(s) && NoRepeats(ListAt(s, x)) && ListMoves(s, t, a, s', x)
    ensures NoRepeats(ListAt(s', x))
  {
    RetainNoRepeats(s, ListAt(s, x));
    hide Inv, EntriesRegistered, ListAt, Retain, Enters;
    if Enters(s, t, a, x) {
      NewEntry(ecd, s, t, a, x);
    }
  }

  lemma WaitingHasCb(ph: Phase)
    ensures Waiting(ph) ==> CbOf(ph).Some?
    ensures Committing(ph) || ph.Idle? || ph.Running? ==> !Waiting(ph)
  {
  }

  lemma ClosureWaits(ecd: bool, s: State, t: Tid, a: Action, s': State)
    requires t in s.threads && RunStep(ecd, s, t, a, s')
    ensures t in s'.threads && (Waiting(s'.threads[t].phase) ==> CbOf(s'.threads[t].phase) == Some(Cb(t, s.nextCb)))
  {
    ClosureShape(ecd, s, t, a, s');
    hide RunStep;
  }

  /** A thread that goes on waiting stays registered, and `Register` registers it. */
  lemma RegisterGrows(ecd: bool, s: State, t: Tid, a: Action, s': State)
    requires t in s.threads && WaitStep(ecd, s, t, a, s') && PhaseFits(s.threads[t]) && a.Register?
    ensures t in s'.threads && Waiting(s.threads[t].phase)
    ensures RegisteredWith(s'.threads[t]) == RegisteredWith(s.threads[t]) + {a.x}
  {
    hide LogOf, Waits, ListFree;
  }

  lemma CheckGrows(ecd: bool, s: State, t: Tid, a: Action, s': State)
    requires t in s.threads && WaitStep(ecd, s, t, a, s') && a.Check?
    ensures t in s'.threads && Waiting(s.threads[t].phase)
    ensures Waiting(s'.threads[t].phase) ==> RegisteredWith(s'.threads[t]) == RegisteredWith(s.threads[t])
  {
    hide LogOf, Waits, FreeToRead;
  }

  lemma PollGrows(ecd: bool, s: State, t: Tid, a: Action, s': State)
    requires t in s.threads && WaitStep(ecd, s, t, a, s') && PhaseFits(s.threads[t])
    requires a.StartPoll? || a.Poll? || a.Unparked?
    ensures t in s'.threads && Waiting(s.threads[t].phase)
    ensures Waiting(s'.threads[t].phase) ==> RegisteredWith(s'.threads[t]) == RegisteredWith(s.threads[t])
  {
    hide Waits;
  }

  lemma DyingDoesNotWait(ecd: bool, s: State, t: Tid, a: Action, s': State)
    requires t in s.threads && WaitStep(ecd, s, t, a, s')
    requires !a.Register? && !a.Check? && !a.StartPoll? && !a.Poll? && !a.Unparked?
    ensures t in s'.threads && !Waiting(s'.threads[t].phase)
  {
    hide LogOf, Waits, RunFrom, ListFree, Alive, Retain;
  }

  lemma WaitingGrows(ecd: bool, s: State, t: Tid, a: Action, s': State)
    requires t in s.threads && WaitStep(ecd, s, t, a, s') && PhaseFits(s.threads[t])
    ensures t in s'.threads
    ensures Waiting(s'.threads[t].phase) ==>
              Waiting(s.threads[t].phase) && RegisteredWith(s.threads[t]) <= RegisteredWith(s'.threads[t])
    ensures a.Register? ==> a.x in RegisteredWith(s'.threads[t])
  {
    hide *;
    if a.Register? {
      RegisterGrows(ecd, s, t, a, s');
    } else if a.Check? {
      CheckGrows(ecd, s, t, a, s');
    } else if a.StartPoll? || a.Poll? || a.Unparked? {
      PollGrows(ecd, s, t, a, s');
    } else {
      DyingDoesNotWait(ecd, s, t, a, s');
    }
  }

  lemma WaitEntry(ecd: bool, s: State, t: Tid, a: Action, s': State, x: Addr)
    requires Inv(ecd, s) && EntriesRegistered(s) && ListMoves(s, t, a, s', x)
    requires t in s.threads && t in s'.threads && WaitStep(ecd, s, t, a, s')
    requires Waiting(s'.threads[t].phase) && CbOf(s'.threads[t].phase).Some?
    requires CbOf(s'.threads[t].phase).value in ListAt(s', x)
    ensures x in RegisteredWith(s'.threads[t])
  {
    hide *;
    var cb := CbOf(s'.threads[t].phase).value;
    InvFits(ecd, s, t);
    WaitKeepsCb(ecd, s, t, a, s');
    WaitingGrows(ecd, s, t, a, s');
    WaitingHasCb(s.threads[t].phase);
    StepEntry(s, t, a, s', x, cb);
    if Enters(s, t, a, x) {
      EntersNamed(s, t, a, x);
    } else {
      WasRegistered(s, t, x);
    }
  }

  lemma EntersNamed(s: State, t: Tid, a: Action, x: Addr)
    requires Enters(s, t, a, x)
    ensures a == Register(x) && a.Register?
  {
  }

  lemma WasRegistered(s: State, t: Tid, x: Addr)
    requires EntriesRegistered(s) && t in s.threads && Waiting(s.threads[t].phase)
    requires CbOf(s.threads[t].phase).Some? && CbOf(s.threads[t].phase).value in ListAt(s, x)
    ensures x in RegisteredWith(s.threads[t])
  {
    hide ListAt, RegisteredWith;
  }

  lemma MoverEntry(ecd: bool, s: State, t: Tid, a: Action, s': State, x: Addr)
    requires Inv(ecd, s) && EntriesIssued(s) && EntriesRegistered(s) && ListMoves(s, t, a, s', x)
    requires t in s.threads && t in s'.threads && Next(ecd, s, By(t, a), s')
    requires Waiting(s'.threads[t].phase) && CbOf(s'.threads[t].phase).value in ListAt(s', x)
    ensures x in RegisteredWith(s'.threads[t])
  {
    hide Inv, Next, RunStep, CommitStep, WakeStep, WaitStep, ListMoves, ListAt, CbOf, RegisteredWith, Waiting;
    StepOf(ecd, s, t, a, s');
    WaitingHasCb(s'.threads[t].phase);
    match PartOf(a) {
      case Closure =>
        ClosureWaits(ecd, s, t, a, s');
        StepEntry(s, t, a, s', x, CbOf(s'.threads[t].phase).value);
      case Commit => CommitRegistersNothing(ecd, s, t, a, s');
      case Wake => WakeRegistersNothing(s, t, a, s');
      case Wait => WaitEntry(ecd, s, t, a, s', x);
    }
  }

  lemma StepKeepsRegistered(ecd: bool, s: State, t: Tid, a: Action, s': State)
    requires Inv(ecd, s) && CbsOwned(s) && EntriesIssued(s) && EntriesRegistered(s)
    requires t in s.threads && Next(ecd, s, By(t, a), s') && OnlyMoves(s, t, s')
    requires forall x: Addr :: ListMoves(s, t, a, s', x)
    ensures EntriesRegistered(s')
  {
    hide Inv, Next, ListMoves, ListAt, RegisteredWith;
    forall u, x | u in s'.threads && Waiting(s'.threads[u].phase) && CbOf(s'.threads[u].phase).value in ListAt(s', x)
      ensures x in RegisteredWith(s'.threads[u])
    {
      assert ListMoves(s, t, a, s', x);
      if u == t {
        MoverEntry(ecd, s, t, a, s', x);
      } else {
        assert s'.threads[u] == s.threads[u];
        StepEntry(s, t, a, s', x, CbOf(s'.threads[u].phase).value);
        assert Enters(s, t, a, x) ==> CbOf(s.threads[t].phase) == Some(s.threads[t].phase.cb);
      }
    }
  }

  // ---------------------------------------------------------------- marks

  lemma OthersSame(s: State, t: Tid, s': State, cb: Cb)
    requires OnlyMoves(s, t, s') && cb.owner != t
    ensures Alive(s', cb) <==> Alive(s, cb)
    ensures cb.owner in s.threads ==> cb.owner in s'.threads && s'.threads[cb.owner] == s.threads[cb.owner]
  {
    hide CbOf;
  }

  /** The step counts its waiter as dead at `x`. */
  predicate Counts(a: Action, x: Addr) {
    a == MarkDead(x)
  }

  /** Giving up on sleep leaves every list the thread is in still to be visited. */
  lemma DyingUnmarked(ecd: bool, s: State, t: Tid, a: Action, s': State, x: Addr)
    requires t in s.threads && WaitStep(ecd, s, t, a, s') && (a.Check? || a.Poll?)
    requires x in RegisteredWith(s.threads[t])
    ensures t in s'.threads && !PassedOver(s'.threads[t].phase, x)
  {
    hide Waits, FreeToRead;
  }

  lemma WaitingUnmarked(ecd: bool, s: State, t: Tid, a: Action, s': State, x: Addr)
    requires t in s.threads && WaitStep(ecd, s, t, a, s') && !a.Check? && !a.Poll? && !Counts(a, x)
    requires t in s'.threads && PassedOver(s'.threads[t].phase, x)
    ensures PassedOver(s.threads[t].phase, x)
  {
    hide LogOf, Waits, RunFrom, ListFree, Alive, Retain;
  }

  lemma LeaveMarked(ecd: bool, s: State, t: Tid, a: Action, s': State, x: Addr)
    requires t in s.threads && WaitStep(ecd, s, t, a, s') && a.Leave?
    ensures PassedOver(s.threads[t].phase, x)
  {
    hide RunFrom;
  }

  lemma WaitMarks(ecd: bool, s: State, t: Tid, a: Action, s': State, cb: Cb, x: Addr)
    requires EntriesRegistered(s) && OnlyMoves(s, t, s') && WaitStep(ecd, s, t, a, s') && !Counts(a, x)
    requires cb.owner == t && cb in ListAt(s, x) && Alive(s, cb) && IsMarked(s', cb, x)
    ensures IsMarked(s, cb, x)
  {
    if a.Leave? {
      LeaveMarked(ecd, s, t, a, s', x);
    } else if a.Check? || a.Poll? {
      CheckedWaits(ecd, s, t, a, s');
      assert x in RegisteredWith(s.threads[t]);
      OnlyLeaveDrops(ecd, s, t, a, s');
      DyingUnmarked(ecd, s, t, a, s', x);
    } else {
      OnlyLeaveDrops(ecd, s, t, a, s');
      WaitingUnmarked(ecd, s, t, a, s', x);
    }
  }

  lemma CheckedWaits(ecd: bool, s: State, t: Tid, a: Action, s': State)
    requires t in s.threads && WaitStep(ecd, s, t, a, s') && (a.Check? || a.Poll?)
    ensures Waiting(s.threads[t].phase)
  {
    hide Waits, FreeToRead, LogOf;
  }

  lemma NotWaitingHasNoCb(ecd: bool, s: State, t: Tid, a: Action, s': State)
    requires t in s.threads && Next(ecd, s, By(t, a), s') && PartOf(a) != Wait
    ensures CbOf(s.threads[t].phase).None?
  {
    hide Next, RunStep, CommitStep, WakeStep, WaitStep;
    StepOf(ecd, s, t, a, s');
    match PartOf(a) {
      case Closure => ClosureHasNoCb(ecd, s, t, a, s');
      case Commit => CommitPhases(ecd, s, t, a, s');
      case Wake => WakeStepShape(s, t, a, s');
    }
  }

  lemma ClosureHasNoCb(ecd: bool, s: State, t: Tid, a: Action, s': State)
    requires t in s.threads && RunStep(ecd, s, t, a, s')
    ensures CbOf(s.threads[t].phase).None?
  {
    ClosurePhases(ecd, s, t, a, s');
    hide RunStep;
  }

  /** Only a call of `set_dead` on `x` adds a mark at `x`. */
  lemma StepMarks(ecd: bool, s: State, t: Tid, a: Action, s': State, cb: Cb, x: Addr)
    requires EntriesRegistered(s) && OnlyMoves(s, t, s') && Next(ecd, s, By(t, a), s')
    requires cb in ListAt(s, x) && IsMarked(s', cb, x)
    ensures IsMarked(s, cb, x) || (Counts(a, x) && CbOf(s.threads[t].phase) == Some(cb))
  {
    hide Next, RunStep, CommitStep, WakeStep, WaitStep, EntriesRegistered, ListAt, CbOf, PassedOver;
    if cb.owner != t {
      OthersSame(s, t, s', cb);
    } else if Alive(s, cb) && !Counts(a, x) {
      StepOf(ecd, s, t, a, s');
      if PartOf(a) == Wait {
        WaitMarks(ecd, s, t, a, s', cb, x);
      } else {
        NotWaitingHasNoCb(ecd, s, t, a, s');
      }
    }
  }

  // ---------------------------------------------------------------- sweeps

  lemma WaitSweeps(ecd: bool, s: State, t: Tid, a: Action, s': State, x: Addr)
    requires t in s.threads && WaitStep(ecd, s, t, a, s') && t in s'.threads
    ensures var ph, ph' := s.threads[t].phase, s'.threads[t].phase;
            && (a.SweepEnd? && SweepsAt(ph, x) ==> LockedAt(ph, x) && !SweepsAt(ph', x))
            && (a.SweepStart? && SweepsAt(ph, x) ==> !LockedAt(ph, x) && LockedAt(ph', x) && ListFree(s, x))
            && (!a.SweepEnd? && !a.SweepStart? ==> !SweepsAt(ph, x))
            && (!a.MarkDead? && SweepsAt(ph', x) ==> SweepsAt(ph, x) && LockedAt(ph', x))
            && (a.MarkDead? && SweepsAt(ph', x) ==> Counts(a, x) && !LockedAt(ph', x))
            && (Counts(a, x) && DeadAt(s, x) >= 64 ==> SweepsAt(ph', x))
  {
    hide LogOf, Waits, RunFrom, Alive, Retain, FreeToRead, ListFree;
  }

  /** The thread enters or leaves a sweep of `x`. */
  ghost predicate BeginsSweep(s: State, t: Tid, a: Action, x: Addr) {
    a.SweepStart? && t in s.threads && SweepsAt(s.threads[t].phase, x)
  }

  ghost predicate EndsSweep(s: State, t: Tid, a: Action, x: Addr) {
    a.SweepEnd? && t in s.threads && SweepsAt(s.threads[t].phase, x)
  }

  ghost predicate SweepMoves(s: State, t: Tid, a: Action, s': State, x: Addr) {
    && t in s.threads && t in s'.threads
    && var ph, ph' := s.threads[t].phase, s'.threads[t].phase;
       && (EndsSweep(s, t, a, x) ==> LockedAt(ph, x) && !SweepsAt(ph', x))
       && (BeginsSweep(s, t, a, x) ==> !LockedAt(ph, x) && LockedAt(ph', x) && ListFree(s, x))
       && (!EndsSweep(s, t, a, x) && !BeginsSweep(s, t, a, x) ==>
             !SweepsAt(ph, x) && !LockedAt(ph', x) && (SweepsAt(ph', x) ==> Counts(a, x)))
       && (Counts(a, x) && DeadAt(s, x) >= 64 ==> SweepsAt(ph', x))
  }

  lemma WaitSweepMoves(ecd: bool, s: State, t: Tid, a: Action, s': State, x: Addr)
    requires t in s.threads && WaitStep(ecd, s, t, a, s') && t in s'.threads
    ensures SweepMoves(s, t, a, s', x)
  {
    WaitSweeps(ecd, s, t, a, s', x);
    hide WaitStep, ListFree, DeadAt;
  }

  lemma ClosureSweepsNothing(ecd: bool, s: State, t: Tid, a: Action, s': State)
    requires t in s.threads && RunStep(ecd, s, t, a, s')
    ensures t in s'.threads && !s.threads[t].phase.Sweeping? && !s'.threads[t].phase.Sweeping?
  {
    ClosurePhases(ecd, s, t, a, s');
    hide RunStep;
  }

  lemma NoCbNoSweep(ph: Phase)
    ensures CbOf(ph).None? ==> !ph.Sweeping?
  {
  }

  lemma CommitActionsCountNothing(a: Action, x: Addr)
    ensures PartOf(a) != Wait ==> !Counts(a, x) && !a.SweepStart? && !a.SweepEnd?
  {
  }

  lemma NoSweepMoves(s: State, t: Tid, a: Action, s': State, x: Addr)
    requires t in s.threads && t in s'.threads && PartOf(a) != Wait
    requires !s.threads[t].phase.Sweeping? && !s'.threads[t].phase.Sweeping?
    ensures SweepMoves(s, t, a, s', x)
  {
    hide PartOf, ListFree, DeadAt;
    CommitActionsCountNothing(a, x);
  }

  lemma OutsideWaitNoSweep(ecd: bool, s: State, t: Tid, a: Action, s': State)
    requires t in s.threads && Next(ecd, s, By(t, a), s') && t in s'.threads && PartOf(a) != Wait
    ensures !s.threads[t].phase.Sweeping? && !s'.threads[t].phase.Sweeping?
  {
    hide *;
    NotWaitingHasNoCb(ecd, s, t, a, s');
    NoCbNoSweep(s.threads[t].phase);
    NoCbNoSweep(s'.threads[t].phase);
    StepOf(ecd, s, t, a, s');
    match PartOf(a) {
      case Closure => ClosureSweepsNothing(ecd, s, t, a, s');
      case Commit => CommitRegistersNothing(ecd, s, t, a, s');
      case Wake => WakeRegistersNothing(s, t, a, s');
    }
  }

  lemma StepSweeps(ecd: bool, s: State, t: Tid, a: Action, s': State, x: Addr)
    requires t in s.threads && Next(ecd, s, By(t, a), s') && t in s'.threads
    ensures SweepMoves(s, t, a, s', x)
  {
    hide *;
    StepOf(ecd, s, t, a, s');
    if PartOf(a) == Wait {
      WaitSweepMoves(ecd, s, t, a, s', x);
    } else {
      OutsideWaitNoSweep(ecd, s, t, a, s');
      NoSweepMoves(s, t, a, s', x);
    }
  }

  lemma WaitDeads(ecd: bool, s: State, t: Tid, a: Action, s': State, x: Addr)
    requires t in s.threads && WaitStep(ecd, s, t, a, s')
    ensures DeadAt(s', x) == if Counts(a, x) then DeadAt(s, x) + 1
                             else if BeginsSweep(s, t, a, x) then 0 else DeadAt(s, x)
  {
    hide LogOf, Waits, RunFrom, Alive, Retain, FreeToRead, ListFree;
  }

  lemma WakeDeads(s: State, t: Tid, a: Action, s': State, x: Addr)
    requires t in s.threads && WakeStep(s, t, a, s')
    ensures DeadAt(s', x) == DeadAt(s, x)
  {
    hide Alive, ListFree, Least, LogOf;
  }

  lemma StepDeads(ecd: bool, s: State, t: Tid, a: Action, s': State, x: Addr)
    requires t in s.threads && Next(ecd, s, By(t, a), s')
    ensures DeadAt(s', x) == if Counts(a, x) then DeadAt(s, x) + 1
                             else if BeginsSweep(s, t, a, x) then 0 else DeadAt(s, x)
  {
    hide Next, RunStep, CommitStep, WakeStep, WaitStep, DeadAt, ListAt;
    StepOf(ecd, s, t, a, s');
    CommitActionsCountNothing(a, x);
    match PartOf(a) {
      case Closure =>
        RunStepShape(ecd, s, t, a, s');
        SameVarsSameList(s, s', x);
      case Commit =>
        CommitStepShape(ecd, s, t, a, s');
        if a.WriteBack? {
          WriteBackLists(ecd, s, t, a.x, s');
        } else {
          SameVarsSameList(s, s', x);
        }
      case Wake => WakeDeads(s, t, a, s', x);
      case Wait => WaitDeads(ecd, s, t, a, s', x);
    }
  }

  /** Whether the list of `x` is being swept changes only with `BeginsSweep` and `EndsSweep`. */
  lemma FreeMoves(s: State, t: Tid, a: Action, s': State, x: Addr)
    requires OnlyMoves(s, t, s') && SweepMoves(s, t, a, s', x) && !EndsSweep(s, t, a, x)
    ensures ListFree(s', x) <==> ListFree(s, x) && !BeginsSweep(s, t, a, x)
  {
    ListFreeMeans(s, x);
    ListFreeMeans(s', x);
    hide ListFree, DeadAt;
    if BeginsSweep(s, t, a, x) {
      assert LockedAt(s'.threads[t].phase, x);
    } else {
      assert !LockedAt(s.threads[t].phase, x) && !LockedAt(s'.threads[t].phase, x);
      hide LockedAt, SweepsAt;
      forall u | u in s.threads ensures LockedAt(s.threads[u].phase, x) <==> LockedAt(s'.threads[u].phase, x) {
        assert u != t ==> s'.threads[u] == s.threads[u];
      }
    }
  }

  lemma SweepersMove(s: State, t: Tid, a: Action, s': State, x: Addr)
    requires OnlyMoves(s, t, s') && SweepMoves(s, t, a, s', x) && !BeginsSweep(s, t, a, x)
    ensures |Sweepers(s', x)| == |Sweepers(s, x)| + if SweepsAt(s'.threads[t].phase, x) then 1 else 0
  {
    hide ListFree, DeadAt;
    if SweepsAt(s'.threads[t].phase, x) {
      assert Sweepers(s', x) == Sweepers(s, x) + {t};
    } else {
      assert Sweepers(s', x) == Sweepers(s, x);
    }
  }

  // ---------------------------------------------------------------- the balance is kept

  /** Registration happens only while the list is free, and the new entry is alive. */
  lemma EntersUnmarked(ecd: bool, s: State, t: Tid, a: Action, s': State, x: Addr)
    requires t in s.threads && Next(ecd, s, By(t, a), s') && t in s'.threads && Enters(s, t, a, x) && CbsOwned(s)
    ensures ListFree(s, x) && !IsMarked(s', s.threads[t].phase.cb, x)
  {
    hide *;
    EntersIsWait(s, t, a, x);
    StepOf(ecd, s, t, a, s');
    EntersShape(ecd, s, t, a, s', x);
    CheckingUnmarked(s, t, s', x);
  }

  lemma EntersIsWait(s: State, t: Tid, a: Action, x: Addr)
    requires Enters(s, t, a, x)
    ensures PartOf(a) == Wait && t in s.threads && s.threads[t].phase.Registering?
  {
  }

  lemma CheckingUnmarked(s: State, t: Tid, s': State, x: Addr)
    requires CbsOwned(s) && t in s.threads && s.threads[t].phase.Registering?
    requires t in s'.threads && s'.threads[t].phase.Checking? && s'.threads[t].phase.cb == s.threads[t].phase.cb
    ensures !IsMarked(s', s.threads[t].phase.cb, x)
  {
    assert CbOf(s.threads[t].phase) == Some(s.threads[t].phase.cb);
  }

  lemma EntersShape(ecd: bool, s: State, t: Tid, a: Action, s': State, x: Addr)
    requires t in s.threads && t in s'.threads && Enters(s, t, a, x) && WaitStep(ecd, s, t, a, s')
    ensures ListFree(s, x) && s'.threads[t].phase.Checking? && s'.threads[t].phase.cb == s.threads[t].phase.cb
  {
    hide LogOf, Waits, ListFree;
  }

  /** A step that neither counts a waiter nor begins or ends a sweep of `x`. */
  lemma PlainMarks(ecd: bool, s: State, t: Tid, a: Action, s': State, x: Addr)
    requires EntriesRegistered(s) && CbsOwned(s) && OnlyMoves(s, t, s') && Next(ecd, s, By(t, a), s')
    requires ListMoves(s, t, a, s', x)
    ensures MarkedAt(s', x) <= MarkedAt(s, x) + if Counts(a, x) && CbOf(s.threads[t].phase).Some?
                                                 then {CbOf(s.threads[t].phase).value} else {}
  {
    hide Next, EntriesRegistered, CbsOwned, ListAt, CbOf, IsMarked, ListMoves, Enters;
    forall cb | cb in MarkedAt(s', x)
      ensures cb in MarkedAt(s, x) || (Counts(a, x) && CbOf(s.threads[t].phase) == Some(cb))
    {
      StepEntry(s, t, a, s', x, cb);
      if cb in ListAt(s, x) {
        StepMarks(ecd, s, t, a, s', cb, x);
      } else {
        EntersUnmarked(ecd, s, t, a, s', x);
      }
    }
  }

  /** Nobody leaves a sweep of `x` but by ending it. */
  lemma StillNotSweeping(s: State, t: Tid, a: Action, s': State, x: Addr, cb: Cb)
    requires OnlyMoves(s, t, s') && SweepMoves(s, t, a, s', x) && !EndsSweep(s, t, a, x)
    requires BeginsSweep(s, t, a, x) ==> CbOf(s'.threads[t].phase) == CbOf(s.threads[t].phase)
    requires NotSweeping(s', cb, x)
    ensures NotSweeping(s, cb, x)
  {
    hide CbOf, ListFree, DeadAt;
    if cb.owner != t {
      OthersSame(s, t, s', cb);
    }
  }

  lemma BeginKeepsCb(ecd: bool, s: State, t: Tid, a: Action, s': State, x: Addr)
    requires t in s.threads && Next(ecd, s, By(t, a), s') && BeginsSweep(s, t, a, x)
    ensures t in s'.threads && CbOf(s'.threads[t].phase) == CbOf(s.threads[t].phase)
  {
    assert PartOf(a) == Wait;
    hide Next, WaitStep;
    StepOf(ecd, s, t, a, s');
    OnlyLeaveDrops(ecd, s, t, a, s');
  }

  lemma NobodyEntersSwept(ecd: bool, s: State, t: Tid, a: Action, s': State, x: Addr)
    requires CbsOwned(s) && t in s.threads && t in s'.threads && Next(ecd, s, By(t, a), s')
    requires BeginsSweep(s, t, a, x) || !ListFree(s, x)
    ensures !Enters(s, t, a, x)
  {
    hide Next, CbsOwned, ListFree;
    if Enters(s, t, a, x) {
      EntersUnmarked(ecd, s, t, a, s', x);
    }
  }

  lemma PlainSweeping(ecd: bool, s: State, t: Tid, a: Action, s': State, x: Addr)
    requires CbsOwned(s) && OnlyMoves(s, t, s') && Next(ecd, s, By(t, a), s')
    requires ListMoves(s, t, a, s', x) && SweepMoves(s, t, a, s', x) && !EndsSweep(s, t, a, x)
    requires BeginsSweep(s, t, a, x) || !ListFree(s, x)
    ensures NotSweepingAt(s', x) <= NotSweepingAt(s, x)
  {
    SameKeys(s, t, s');
    NobodyEntersSwept(ecd, s, t, a, s', x);
    if BeginsSweep(s, t, a, x) {
      BeginKeepsCb(ecd, s, t, a, s', x);
    }
    hide Next, CbsOwned, ListAt, CbOf, ListMoves, SweepMoves, Enters, ListFree, NotSweeping, OnlyMoves, BeginsSweep;
    forall cb | cb in NotSweepingAt(s', x) ensures cb in NotSweepingAt(s, x) {
      StepEntry(s, t, a, s', x, cb);
      StillNotSweeping(s, t, a, s', x, cb);
    }
  }

  lemma MarksCounted(ecd: bool, s: State, t: Tid, a: Action, s': State, x: Addr)
    requires EntriesRegistered(s) && CbsOwned(s) && OnlyMoves(s, t, s') && Next(ecd, s, By(t, a), s')
    requires ListMoves(s, t, a, s', x)
    ensures |MarkedAt(s', x)| <= |MarkedAt(s, x)| + if Counts(a, x) then 1 else 0
  {
    PlainMarks(ecd, s, t, a, s', x);
    hide Next, EntriesRegistered, CbsOwned, ListMoves, ListAt, MarkedAt, CbOf;
    if Counts(a, x) && CbOf(s.threads[t].phase).Some? {
      MarksOneMore(MarkedAt(s, x), MarkedAt(s', x), CbOf(s.threads[t].phase).value);
    } else {
      SmallerSet(MarkedAt(s', x), MarkedAt(s, x));
    }
  }

  lemma SweepersCounted(s: State, t: Tid, a: Action, s': State, x: Addr)
    requires OnlyMoves(s, t, s') && SweepMoves(s, t, a, s', x)
    requires !EndsSweep(s, t, a, x) && !BeginsSweep(s, t, a, x)
    requires DeadAt(s, x) <= 64 + |Sweepers(s, x)|
    ensures DeadAt(s, x) + (if Counts(a, x) then 1 else 0) <= 64 + |Sweepers(s', x)|
  {
    SweepersMove(s, t, a, s', x);
    hide OnlyMoves, Sweepers, DeadAt, SweepsAt, LockedAt;
  }

  lemma StillBounded(s: State, s': State, x: Addr, counted: nat)
    requires Bounded(s, x) && s'.threads.Keys == s.threads.Keys
    requires (ListFree(s', x) <==> ListFree(s, x)) && DeadAt(s', x) == DeadAt(s, x) + counted
    requires DeadAt(s', x) <= 64 + |Sweepers(s', x)|
    requires ListFree(s, x) ==> |MarkedAt(s', x)| <= |MarkedAt(s, x)| + counted
    requires !ListFree(s, x) ==> |NotSweepingAt(s', x)| <= |NotSweepingAt(s, x)|
    ensures Bounded(s', x)
  {
    hide ListFree, DeadAt, Sweepers, MarkedAt, NotSweepingAt;
  }

  lemma BoundedMeans(s: State, x: Addr)
    requires Bounded(s, x)
    ensures DeadAt(s, x) <= 64 + |Sweepers(s, x)|
  {
  }

  lemma SameKeys(s: State, t: Tid, s': State)
    requires OnlyMoves(s, t, s')
    ensures t in s.threads && t in s'.threads && s'.threads.Keys == s.threads.Keys
  {
  }

  lemma CountKeepsBounded(ecd: bool, s: State, t: Tid, a: Action, s': State, x: Addr)
    requires EntriesRegistered(s) && CbsOwned(s) && OnlyMoves(s, t, s') && Next(ecd, s, By(t, a), s')
    requires ListMoves(s, t, a, s', x) && SweepMoves(s, t, a, s', x)
    requires Bounded(s, x) && !EndsSweep(s, t, a, x) && !BeginsSweep(s, t, a, x)
    ensures Bounded(s', x)
  {
    hide *;
    SameKeys(s, t, s');
    BoundedMeans(s, x);
    StepDeads(ecd, s, t, a, s', x);
    FreeMoves(s, t, a, s', x);
    SweepersCounted(s, t, a, s', x);
    if ListFree(s, x) {
      MarksCounted(ecd, s, t, a, s', x);
    } else {
      PlainSweeping(ecd, s, t, a, s', x);
      SmallerSet(NotSweepingAt(s', x), NotSweepingAt(s, x));
    }
    StillBounded(s, s', x, if Counts(a, x) then 1 else 0);
  }

  lemma MarksOneMore(m: set<Cb>, m': set<Cb>, cb: Cb)
    requires m' <= m + {cb}
    ensures |m'| <= |m| + 1
  {
    SmallerSet(m', m + {cb});
  }

  lemma BegunIsBounded(s: State, s': State, x: Addr)
    requires !ListFree(s', x) && DeadAt(s', x) == 0 && s'.threads.Keys == s.threads.Keys
    requires |NotSweepingAt(s', x)| <= 64 + 2 * |s.threads.Keys|
    ensures Bounded(s', x)
  {
    hide ListFree, DeadAt, Sweepers, MarkedAt, NotSweepingAt;
  }

  lemma BeginsOnly(s: State, t: Tid, a: Action, s': State, x: Addr)
    requires t in s.threads && t in s'.threads && SweepMoves(s, t, a, s', x) && BeginsSweep(s, t, a, x)
    ensures !EndsSweep(s, t, a, x) && !Counts(a, x) && ListFree(s, x)
  {
    hide ListFree;
  }

  lemma BeginKeepsBounded(ecd: bool, s: State, t: Tid, a: Action, s': State, x: Addr)
    requires CbsOwned(s) && OnlyMoves(s, t, s') && Next(ecd, s, By(t, a), s')
    requires ListMoves(s, t, a, s', x) && SweepMoves(s, t, a, s', x)
    requires Bounded(s, x) && BeginsSweep(s, t, a, x)
    ensures Bounded(s', x)
  {
    hide *;
    SameKeys(s, t, s');
    BeginsOnly(s, t, a, s', x);
    StepDeads(ecd, s, t, a, s', x);
    FreeMoves(s, t, a, s', x);
    PlainSweeping(ecd, s, t, a, s', x);
    SmallerSet(NotSweepingAt(s', x), NotSweepingAt(s, x));
    FreeBound(s, x);
    BegunIsBounded(s, s', x);
  }

  lemma EndShape(ecd: bool, s: State, t: Tid, a: Action, s': State, x: Addr)
    requires t in s.threads && t in s'.threads && WaitStep(ecd, s, t, a, s') && EndsSweep(s, t, a, x)
    ensures ListAt(s', x) == Retain(s, ListAt(s, x)) && CbOf(s'.threads[t].phase) == CbOf(s.threads[t].phase)
  {
    hide LogOf, Waits, Alive, Retain;
  }

  lemma EndLeavesLive(ecd: bool, s: State, t: Tid, a: Action, s': State, x: Addr)
    requires CbsOwned(s) && OnlyMoves(s, t, s') && Next(ecd, s, By(t, a), s') && EndsSweep(s, t, a, x)
    ensures forall cb :: cb in ListAt(s', x) ==> Alive(s', cb) && cb.owner in s'.threads
  {
    assert PartOf(a) == Wait;
    StepOf(ecd, s, t, a, s');
    hide Next, RunStep, CommitStep, WakeStep, WaitStep, CbsOwned, ListAt, CbOf, Retain;
    EndShape(ecd, s, t, a, s', x);
    forall cb | cb in ListAt(s', x) ensures Alive(s', cb) {
      RetainKeepsLive(s, ListAt(s, x), cb);
      if cb.owner != t {
        OthersSame(s, t, s', cb);
      }
    }
  }

  lemma EndLeavesFew(s: State, x: Addr)
    requires forall cb :: cb in ListAt(s, x) ==> Alive(s, cb) && cb.owner in s.threads
    ensures |MarkedAt(s, x)| <= |s.threads.Keys| && |NotSweepingAt(s, x)| <= |s.threads.Keys|
  {
    hide Alive, ListAt, IsMarked, NotSweeping;
    var live := set cb | cb in ListAt(s, x);
    LivePerThread(s, live, s.threads.Keys);
    SmallerSet(MarkedAt(s, x), live);
    SmallerSet(NotSweepingAt(s, x), live);
  }

  lemma FewIsBounded(s: State, s': State, x: Addr)
    requires Bounded(s, x) && s'.threads.Keys == s.threads.Keys
    requires DeadAt(s', x) == DeadAt(s, x) && |Sweepers(s', x)| == |Sweepers(s, x)|
    requires |MarkedAt(s', x)| <= |s.threads.Keys| && |NotSweepingAt(s', x)| <= |s.threads.Keys|
    ensures Bounded(s', x)
  {
    hide ListFree, DeadAt, Sweepers, MarkedAt, NotSweepingAt;
  }

  lemma EndsOnly(a: Action, s: State, t: Tid, x: Addr)
    requires t in s.threads && EndsSweep(s, t, a, x)
    ensures !BeginsSweep(s, t, a, x) && !Counts(a, x)
  {
  }

  lemma EndedSweep(s: State, t: Tid, a: Action, s': State, x: Addr)
    requires t in s.threads && t in s'.threads && SweepMoves(s, t, a, s', x) && EndsSweep(s, t, a, x)
    ensures !SweepsAt(s'.threads[t].phase, x)
  {
  }

  lemma EndKeepsBounded(ecd: bool, s: State, t: Tid, a: Action, s': State, x: Addr)
    requires CbsOwned(s) && OnlyMoves(s, t, s') && Next(ecd, s, By(t, a), s')
    requires SweepMoves(s, t, a, s', x)
    requires Bounded(s, x) && EndsSweep(s, t, a, x)
    ensures Bounded(s', x)
  {
    hide *;
    SameKeys(s, t, s');
    EndsOnly(a, s, t, x);
    EndedSweep(s, t, a, s', x);
    StepDeads(ecd, s, t, a, s', x);
    SweepersMove(s, t, a, s', x);
    EndLeavesLive(ecd, s, t, a, s', x);
    EndLeavesFew(s', x);
    FewIsBounded(s, s', x);
  }

  lemma StepKeepsBounded(ecd: bool, s: State, t: Tid, a: Action, s': State, x: Addr)
    requires EntriesRegistered(s) && CbsOwned(s) && OnlyMoves(s, t, s') && t in s'.threads
    requires t in s.threads && Next(ecd, s, By(t, a), s')
    requires Bounded(s, x)
    ensures Bounded(s', x)
  {
    hide *;
    StepLists(ecd, s, t, a, s', x);
    StepSweeps(ecd, s, t, a, s', x);
    if EndsSweep(s, t, a, x) {
      EndKeepsBounded(ecd, s, t, a, s', x);
    } else if BeginsSweep(s, t, a, x) {
      BeginKeepsBounded(ecd, s, t, a, s', x);
    } else {
      CountKeepsBounded(ecd, s, t, a, s', x);
    }
  }

  // ---------------------------------------------------------------- every reachable state

  ghost predicate ListsOk(s: State) {
    EntriesOk(s) && forall x: Addr :: Bounded(s, x)
  }

  lemma InitLists(s: State)
    requires Init(s)
    ensures ListsOk(s)
  {
    forall x: Addr ensures Bounded(s, x) && ListAt(s, x) == [] {
      assert ListAt(s, x) == [] && DeadAt(s, x) == 0;
      hide Init;
      assert MarkedAt(s, x) == {} && NotSweepingAt(s, x) == {};
    }
    hide Init, Bounded;
  }

  lemma SameListBounded(s: State, s': State, x: Addr)
    requires Bounded(s, x) && s'.threads == s.threads
    requires ListAt(s', x) == ListAt(s, x) && DeadAt(s', x) == DeadAt(s, x)
    ensures Bounded(s', x)
  {
    hide ListAt, DeadAt;
    assert ListFree(s', x) <==> ListFree(s, x);
    assert Sweepers(s', x) == Sweepers(s, x) && MarkedAt(s', x) == MarkedAt(s, x);
    assert NotSweepingAt(s', x) == NotSweepingAt(s, x);
  }

  lemma SameListsOk(s: State, s': State)
    requires ListsOk(s) && s'.threads == s.threads && s'.nextCb == s.nextCb
    requires forall x: Addr :: ListAt(s', x) == ListAt(s, x) && DeadAt(s', x) == DeadAt(s, x)
    ensures ListsOk(s')
  {
    hide ListAt, DeadAt, Bounded, NoRepeats, RegisteredWith, CbOf;
    forall x: Addr ensures Bounded(s', x) {
      assert Bounded(s, x);
      SameListBounded(s, s', x);
    }
    assert forall x: Addr :: NoRepeats(ListAt(s, x));
  }

  lemma AtomicKeepsLists(s: State, x: Addr, ptr: nat, v: Val, s': State)
    requires AtomicStep(s, x, ptr, v, s') && ListsOk(s)
    ensures ListsOk(s') && s'.threads.Keys == s.threads.Keys
  {
    assert s'.threads == s.threads && s'.nextCb == s.nextCb;
    assert forall y: Addr :: ListAt(s', y) == ListAt(s, y) && DeadAt(s', y) == DeadAt(s, y);
    hide *;
    SameListsOk(s, s');
  }

  lemma AllListsMove(ecd: bool, s: State, t: Tid, a: Action, s': State)
    requires t in s.threads && Next(ecd, s, By(t, a), s')
    ensures forall x: Addr :: ListMoves(s, t, a, s', x)
  {
    hide *;
    forall x: Addr ensures ListMoves(s, t, a, s', x) {
      StepLists(ecd, s, t, a, s', x);
    }
  }

  lemma CbNumbersGrow(s: State, t: Tid, s': State)
    requires CbMoves(s, t, s')
    ensures s.nextCb <= s'.nextCb
  {
    hide CbOf, RegisteredWith;
  }

  lemma StepKeepsEntries(ecd: bool, s: State, t: Tid, a: Action, s': State)
    requires Inv(ecd, s) && CbsOwned(s) && EntriesOk(s) && t in s.threads && Next(ecd, s, By(t, a), s')
    ensures EntriesOk(s')
  {
    hide Inv, CbsOwned, Next, OnlyMoves, CbMoves, EntriesIssued, EntriesRegistered, NoRepeats, ListMoves, ListAt,
        TokenStep, RunStep, CommitStep, WakeStep, WaitStep;
    OnlyOneMoves(ecd, s, t, a, s');
    StepTokens(ecd, s, t, a, s');
    CbNumbersGrow(s, t, s');
    AllListsMove(ecd, s, t, a, s');
    StepKeepsIssued(s, t, a, s');
    StepKeepsRegistered(ecd, s, t, a, s');
    forall x: Addr ensures NoRepeats(ListAt(s', x)) {
      StepKeepsNoRepeats(ecd, s, t, a, s', x);
    }
  }

  lemma StepKeepsLists(ecd: bool, s: State, t: Tid, a: Action, s': State)
    requires Inv(ecd, s) && CbsOwned(s) && ListsOk(s) && t in s.threads && Next(ecd, s, By(t, a), s')
    ensures ListsOk(s') && s'.threads.Keys == s.threads.Keys
  {
    hide Inv, CbsOwned, Next, OnlyMoves, Bounded, EntriesIssued, EntriesRegistered, NoRepeats, ListAt,
        RunStep, CommitStep, WakeStep, WaitStep;
    OnlyOneMoves(ecd, s, t, a, s');
    SameKeys(s, t, s');
    StepKeepsEntries(ecd, s, t, a, s');
    forall x: Addr ensures Bounded(s', x) {
      StepKeepsBounded(ecd, s, t, a, s', x);
    }
  }

  lemma NextKeepsLists(ecd: bool, s: State, m: Move, s': State)
    requires Inv(ecd, s) && CbsOwned(s) && ListsOk(s) && Next(ecd, s, m, s')
    ensures ListsOk(s') && s'.threads.Keys == s.threads.Keys
  {
    hide Inv, CbsOwned, ListsOk, RunStep, CommitStep, WakeStep, WaitStep, AtomicStep;
    match m
    case Atomic(x, ptr, v) => AtomicKeepsLists(s, x, ptr, v, s');
    case By(t, a) =>
      hide Next;
      MoverExists(ecd, s, t, a, s');
      StepKeepsLists(ecd, s, t, a, s');
  }

  lemma {:induction false} BehaviourKeepsLists(ecd: bool, states: seq<State>, moves: seq<Move>, i: nat)
    requires Behaviour(ecd, states, moves) && i < |states|
    ensures ListsOk(states[i]) && states[i].threads.Keys == states[0].threads.Keys
  {
    hide *;
    BehaviourShape(ecd, states, moves);
    if i == 0 {
      InitLists(states[0]);
    } else {
      BehaviourKeepsLists(ecd, states, moves, i - 1);
      BehaviourKeepsInv(ecd, states, moves, i - 1);
      BehaviourKeepsWaiters(ecd, states, moves, i - 1);
      WaitersHaveCbs(states[i - 1]);
      BehaviourNext(ecd, states, moves, i - 1);
      NextKeepsLists(ecd, states[i - 1], moves[i - 1], states[i]);
    }
  }

  lemma WaitersHaveCbs(s: State)
    requires WaitersOk(s)
    ensures CbsOwned(s)
  {
  }

  // ---------------------------------------------------------------- the theorem

  /** The waiters in `list` whose weak reference cannot be upgraded, and their entries in order. */
  function Unupgradable(s: State, list: seq<Cb>): set<Cb> {
    set cb | cb in list && !Alive(s, cb)
  }

  function DeadEntries(s: State, list: seq<Cb>): seq<Cb> {
    Keep(list, Unupgradable(s, list))
  }

  lemma DeadEntriesCounted(s: State, x: Addr)
    requires NoRepeats(ListAt(s, x))
    ensures |DeadEntries(s, ListAt(s, x))| == |DeadAmong(s, x)|
  {
    hide Alive, NoRepeats, Keep, ListAt;
    var list := ListAt(s, x);
    KeepSize(list, Unupgradable(s, list));
    assert DeadAmong(s, x) == set cb | cb in list && cb in Unupgradable(s, list);
  }

  lemma LiveEntriesCounted(s: State, list: seq<Cb>)
    requires NoRepeats(list)
    ensures |Keep(list, Upgradable(s, list))| <= |s.threads.Keys|
  {
    hide Alive, NoRepeats, Keep;
    var live := Upgradable(s, list);
    KeepSize(list, live);
    assert live == set cb | cb in list && cb in live;
    forall cb | cb in live ensures cb.owner in s.threads.Keys {
      AliveMeans(s, cb);
    }
    LivePerThread(s, live, s.threads.Keys);
  }

  lemma AliveMeans(s: State, cb: Cb)
    requires Alive(s, cb)
    ensures cb.owner in s.threads.Keys
  {
  }

  /** In every state of a run with `T` threads no list holds more than `64 + 2T` dead waiters, nor
      more than `64 + 3T` waiters in all, however `fetch_add` races with `store(0)` and `retain`. */
  lemma DeadWaitersBounded(ecd: bool, states: seq<State>, moves: seq<Move>, i: nat, x: Addr)
    requires Behaviour(ecd, states, moves) && i < |states|
    ensures |DeadEntries(states[i], ListAt(states[i], x))| <= 64 + 2 * |states[0].threads.Keys|
    ensures |ListAt(states[i], x)| <= 64 + 3 * |states[0].threads.Keys|
  {
    hide Behaviour, Alive, Bounded, NoRepeats, EntriesIssued, EntriesRegistered, ListAt;
    BehaviourKeepsLists(ecd, states, moves, i);
    var s := states[i];
    assert Bounded(s, x) && NoRepeats(ListAt(s, x));
    DeadBound(s, x);
    DeadEntriesCounted(s, x);
    LiveEntriesCounted(s, ListAt(s, x));
    KeepSplit(ListAt(s, x), Upgradable(s, ListAt(s, x)), Unupgradable(s, ListAt(s, x)));
  }
}
