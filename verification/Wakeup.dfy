/** No lost wakeup: register-then-check against write-then-wake. */
module Wakeup {
  import opened Values
  import opened Logs
  import opened Programs
  import opened LogLaws
  import opened RunFacts
  import opened Machine
  import opened Invariants
  import opened Safety
  import opened Commits
  import opened Publication
  import opened Serializability
  import opened Versions
  import opened Conflicts

  // ---------------------------------------------------------------- the two roles

  /** The variables whose list a waiting thread is in or was in, and those among them whose value
      it has compared with the one it saw. */
  function RegisteredWith(th: Thread): set<Addr> {
    match th.phase
    case Registering(_, _, reg) => reg
    case Checking(_, x, _, reg) => reg + {x}
    case Polling(_) => Waits(LogOf(th)).Keys
    case Parked(_) => Waits(LogOf(th)).Keys
    case _ => {}
  }

  function Matched(th: Thread): set<Addr> {
    match th.phase
    case Registering(_, _, reg) => reg
    case Checking(_, _, _, reg) => reg
    case Polling(_) => Waits(LogOf(th)).Keys
    case Parked(_) => Waits(LogOf(th)).Keys
    case _ => {}
  }

  /** The waiters a committing thread has taken out of a list and not signalled yet. */
  function TakenBy(ph: Phase): seq<Cb> {
    if ph.Waking? then ph.taken else []
  }

  ghost predicate InTaken(s: State, cb: Cb) {
    exists v :: v in s.threads && cb in TakenBy(s.threads[v].phase)
  }

  /** The thread has written `x` and has yet to take its list. */
  predicate WillTake(th: Thread, x: Addr) {
    || (th.phase.Publishing? && x in Writes(LogOf(th)) && x !in th.phase.wr)
    || (th.phase.Waking? && x in th.phase.todo)
  }

  ghost predicate SomeoneWillTake(s: State, x: Addr) {
    exists v :: v in s.threads && WillTake(s.threads[v], x)
  }

  /** After `x` held `a`, somebody changed it with `write_atomic`, which announces nothing. */
  ghost predicate MissedAtomic(s: State, x: Addr, a: Arc) {
    exists i, j :: 0 <= i < j < |HistAt(s, x)| && HistAt(s, x)[i] == a && HistAt(s, x)[j].id.serial in s.atomics
  }

  /** `x` holds what the thread waits to see change, or the change will be announced, or it was
      followed by a `write_atomic` after the thread saw that value. */
  ghost predicate StillAsSeen(s: State, th: Thread, x: Addr) {
    || (x in Waits(LogOf(th)) && MissedAtomic(s, x, Waits(LogOf(th))[x]))
    || (x in Waits(LogOf(th)) && Waits(LogOf(th))[x] == Cur(s, x))
    || SomeoneWillTake(s, x)
  }

  /** The waiter has been signalled, or somebody holds it and will, or it is in the list of `x`
      and no change of `x` has escaped it. */
  ghost predicate NotLost(s: State, th: Thread, x: Addr) {
    CbOf(th.phase).None? ||
    var cb := CbOf(th.phase).value;
    || cb in s.changed
    || InTaken(s, cb)
    || (cb in ListAt(s, x) && (x in Matched(th) ==> StillAsSeen(s, th, x)))
  }

  ghost predicate NoneLost(s: State) {
    forall t, x :: t in s.threads && x in RegisteredWith(s.threads[t]) ==> NotLost(s, s.threads[t], x)
  }

  /** Control blocks name their thread, and only those handed out are in use. */
  ghost predicate CbsOwned(s: State) {
    forall t :: t in s.threads && CbOf(s.threads[t].phase).Some? ==>
      CbOf(s.threads[t].phase).value.owner == t && CbOf(s.threads[t].phase).value.serial < s.nextCb
  }

  lemma OwnCbAlive(s: State, t: Tid)
    requires CbsOwned(s) && t in s.threads && CbOf(s.threads[t].phase).Some?
    ensures Alive(s, CbOf(s.threads[t].phase).value)
  {
    hide CbOf;
  }

  // ---------------------------------------------------------------- what a step owes the waiters

  /** No live waiter is dropped, and a change of a value is announced or will be. */
  ghost predicate KeepsTaken(s: State, t: Tid, s': State) {
    forall cb :: t in s.threads && t in s'.threads && cb in TakenBy(s.threads[t].phase) && Alive(s, cb) ==>
      cb in TakenBy(s'.threads[t].phase) || cb in s'.changed
  }

  ghost predicate KeepsPromises(s: State, t: Tid, s': State) {
    forall x, cb :: t in s.threads && t in s'.threads && WillTake(s.threads[t], x) && cb in ListAt(s, x) ==>
      WillTake(s'.threads[t], x) || cb in TakenBy(s'.threads[t].phase)
  }

  ghost predicate KeepsLists(s: State, t: Tid, s': State) {
    forall x: Addr, cb :: t in s'.threads && cb in ListAt(s, x) && Alive(s, cb) ==>
      cb in ListAt(s', x) || cb in TakenBy(s'.threads[t].phase)
  }

  ghost predicate AnnouncesValues(s: State, t: Tid, s': State) {
    forall x: Addr :: t in s'.threads && Cur(s', x) != Cur(s, x) ==> WillTake(s'.threads[t], x)
  }

  ghost predicate Careful(s: State, t: Tid, s': State) {
    && OnlyMoves(s, t, s')
    && s.changed <= s'.changed && s'.atomics == s.atomics
    && KeepsTaken(s, t, s') && KeepsPromises(s, t, s') && KeepsLists(s, t, s') && AnnouncesValues(s, t, s')
  }

  lemma TakenStays(s: State, t: Tid, s': State, cb: Cb)
    requires OnlyMoves(s, t, s') && KeepsTaken(s, t, s')
    requires InTaken(s, cb) && Alive(s, cb)
    ensures InTaken(s', cb) || cb in s'.changed
  {
    hide TakenBy, Alive;
    var v :| v in s.threads && cb in TakenBy(s.threads[v].phase);
    if cb !in s'.changed {
      assert cb in TakenBy(s'.threads[v].phase);
    }
  }

  lemma PromiseStays(s: State, t: Tid, s': State, x: Addr, cb: Cb)
    requires OnlyMoves(s, t, s') && KeepsPromises(s, t, s')
    requires SomeoneWillTake(s, x) && cb in ListAt(s, x)
    ensures SomeoneWillTake(s', x) || InTaken(s', cb)
  {
    hide TakenBy, WillTake, ListAt;
    var v :| v in s.threads && WillTake(s.threads[v], x);
    if v != t || WillTake(s'.threads[t], x) {
      assert WillTake(s'.threads[v], x);
    } else {
      assert cb in TakenBy(s'.threads[t].phase);
    }
  }

  lemma ListStays(s: State, t: Tid, s': State, x: Addr, cb: Cb)
    requires OnlyMoves(s, t, s') && KeepsLists(s, t, s')
    requires cb in ListAt(s, x) && Alive(s, cb)
    ensures cb in ListAt(s', x) || InTaken(s', cb)
  {
    hide TakenBy, Alive, ListAt;
    if cb !in ListAt(s', x) {
      assert cb in TakenBy(s'.threads[t].phase);
    }
  }

  lemma ValueStays(s: State, t: Tid, s': State, x: Addr)
    requires OnlyMoves(s, t, s') && AnnouncesValues(s, t, s')
    ensures Cur(s', x) == Cur(s, x) || SomeoneWillTake(s', x)
  {
    hide Cur, WillTake;
    if Cur(s', x) != Cur(s, x) {
      assert WillTake(s'.threads[t], x);
    }
  }

  /** No variable forgets a value it has held. */
  ghost predicate Remembers(s: State, s': State) {
    s.atomics <= s'.atomics && forall x: Addr :: HistAt(s, x) <= HistAt(s', x)
  }

  lemma MissedStays(s: State, s': State, x: Addr, a: Arc)
    requires Remembers(s, s') && MissedAtomic(s, x, a)
    ensures MissedAtomic(s', x, a)
  {
    hide HistAt;
    var i, j :| 0 <= i < j < |HistAt(s, x)| && HistAt(s, x)[i] == a && HistAt(s, x)[j].id.serial in s.atomics;
    assert HistAt(s', x)[i] == a && HistAt(s', x)[j].id.serial in s'.atomics;
  }

  lemma SeenStays(s: State, t: Tid, s': State, th: Thread, th': Thread, x: Addr, cb: Cb)
    requires Careful(s, t, s') && Remembers(s, s') && cb in ListAt(s, x) && th'.run == th.run
    requires StillAsSeen(s, th, x)
    ensures StillAsSeen(s', th', x) || InTaken(s', cb)
  {
    hide KeepsTaken, KeepsPromises, KeepsLists, AnnouncesValues, SomeoneWillTake, InTaken, ListAt, Cur, OnlyMoves,
         MissedAtomic, Remembers;
    if SomeoneWillTake(s, x) {
      PromiseStays(s, t, s', x, cb);
    }
    if x in Waits(LogOf(th)) && MissedAtomic(s, x, Waits(LogOf(th))[x]) {
      MissedStays(s, s', x, Waits(LogOf(th))[x]);
    }
    ValueStays(s, t, s', x);
  }

  /** Whoever was not lost is not lost after a careful step, as long as it waits for no more. */
  lemma CarefulLosesNone(s: State, t: Tid, s': State, u: Tid, x: Addr)
    requires Careful(s, t, s') && Remembers(s, s') && CbsOwned(s)
    requires u in s.threads && u in s'.threads && s'.threads[u].run == s.threads[u].run
    requires CbOf(s.threads[u].phase).Some? && CbOf(s'.threads[u].phase) == CbOf(s.threads[u].phase)
    requires x in Matched(s'.threads[u]) ==> x in Matched(s.threads[u])
    requires NotLost(s, s.threads[u], x)
    ensures NotLost(s', s'.threads[u], x)
  {
    var th, th' := s.threads[u], s'.threads[u];
    var cb := CbOf(th.phase).value;
    OwnCbAlive(s, u);
    hide Alive, KeepsTaken, KeepsPromises, KeepsLists, AnnouncesValues, SomeoneWillTake, InTaken, ListAt, Cur,
         CbOf, Matched, StillAsSeen, CbsOwned, Remembers;
    if InTaken(s, cb) {
      TakenStays(s, t, s', cb);
    } else if cb !in s.changed {
      ListStays(s, t, s', x, cb);
      if x in Matched(th') {
        SeenStays(s, t, s', th, th', x, cb);
      }
    }
  }

  // ---------------------------------------------------------------- every step is careful

  lemma SilentIsCareful(s: State, t: Tid, s': State)
    requires OnlyMoves(s, t, s') && s.changed <= s'.changed && s'.atomics == s.atomics && s'.vars == s.vars
    requires forall cb :: cb in TakenBy(s.threads[t].phase) ==> cb in TakenBy(s'.threads[t].phase)
    requires forall x :: WillTake(s.threads[t], x) ==> WillTake(s'.threads[t], x)
    ensures Careful(s, t, s')
  {
    hide TakenBy, WillTake, Alive;
  }

  lemma ClosureIsCareful(ecd: bool, s: State, t: Tid, a: Action, s': State)
    requires t in s.threads && RunStep(ecd, s, t, a, s')
    ensures Careful(s, t, s')
  {
    RunStepShape(ecd, s, t, a, s');
    assert s.threads[t].phase.Running? || s.threads[t].phase.Idle?;
    hide RunStep, LogOf;
    SilentIsCareful(s, t, s');
  }

  predicate WillTakeAny(ph: Phase) {
    ph.Publishing? || ph.Waking?
  }

  lemma DropReadPromises(ecd: bool, s: State, t: Tid, a: Action, s': State)
    requires t in s.threads && CommitStep(ecd, s, t, a, s') && (a.DropRead? || a.StartWake?)
    ensures t in s'.threads && forall x :: WillTake(s.threads[t], x) ==> WillTake(s'.threads[t], x)
  {
    hide Writes, Least;
  }

  lemma NoPromisesYet(ecd: bool, s: State, t: Tid, a: Action, s': State)
    requires t in s.threads && CommitStep(ecd, s, t, a, s') && !a.WriteBack? && !a.DropRead? && !a.StartWake?
    ensures !WillTakeAny(s.threads[t].phase)
  {
    hide LogOf, Begin, Writes, LockStep, AllInstalled, Decision;
  }

  lemma CommitPromises(ecd: bool, s: State, t: Tid, a: Action, s': State)
    requires t in s.threads && CommitStep(ecd, s, t, a, s') && !a.WriteBack?
    ensures t in s'.threads && forall x :: WillTake(s.threads[t], x) ==> WillTake(s'.threads[t], x)
  {
    CommitStepShape(ecd, s, t, a, s');
    if a.DropRead? || a.StartWake? {
      DropReadPromises(ecd, s, t, a, s');
    } else {
      NoPromisesYet(ecd, s, t, a, s');
    }
    hide CommitStep;
  }

  lemma CommitIsCareful(ecd: bool, s: State, t: Tid, a: Action, s': State)
    requires t in s.threads && CommitStep(ecd, s, t, a, s')
    ensures Careful(s, t, s')
  {
    CommitStepShape(ecd, s, t, a, s');
    if a.WriteBack? {
      WriteBackIsCareful(ecd, s, t, a.x, s');
    } else {
      CommitTakesNothing(ecd, s, t, a, s');
      CommitPromises(ecd, s, t, a, s');
      hide CommitStep, WillTake, TakenBy, PhaseOnly, Careful;
      SilentIsCareful(s, t, s');
    }
  }

  lemma CommitNotWaking(ecd: bool, s: State, t: Tid, a: Action, s': State)
    requires t in s.threads && CommitStep(ecd, s, t, a, s')
    ensures !s.threads[t].phase.Waking?
  {
    hide LogOf, Begin, Writes, LockStep, Least, AllInstalled, Decision, Installs, SetPhase, SetThread;
  }

  lemma CommitTakesNothing(ecd: bool, s: State, t: Tid, a: Action, s': State)
    requires t in s.threads && CommitStep(ecd, s, t, a, s')
    ensures TakenBy(s.threads[t].phase) == []
  {
    hide CommitStep;
    CommitNotWaking(ecd, s, t, a, s');
  }

  lemma WriteBackLists(ecd: bool, s: State, t: Tid, x: Addr, s': State)
    requires t in s.threads && CommitStep(ecd, s, t, WriteBack(x), s')
    ensures forall y: Addr :: ListAt(s', y) == ListAt(s, y)
    ensures forall y: Addr :: DeadAt(s', y) == DeadAt(s, y)
  {
    hide LogOf, Writes, Least;
  }

  lemma WriteBackIsCareful(ecd: bool, s: State, t: Tid, x: Addr, s': State)
    requires t in s.threads && CommitStep(ecd, s, t, WriteBack(x), s')
    ensures Careful(s, t, s')
  {
    WriteBackTouches(ecd, s, t, x, s');
    WriteBackShape(ecd, s, t, x, s');
    WriteBackLists(ecd, s, t, x, s');
    assert WillTake(s'.threads[t], x);
    assert forall y :: WillTake(s.threads[t], y) ==> WillTake(s'.threads[t], y);
    hide CommitStep, WillTake, LogOf, Writes, Cur, ListAt, DeadAt, Alive, Owed;
  }

  lemma TakeIsCareful(s: State, t: Tid, x: Addr, s': State)
    requires t in s.threads && WakeStep(s, t, Take(x), s')
    ensures Careful(s, t, s')
  {
    assert s'.threads[t].phase == Waking(s.threads[t].phase.todo - {x}, ListAt(s, x), None);
    assert forall y: Addr :: ListAt(s', y) == if y == x then [] else ListAt(s, y);
    assert forall y: Addr :: Cur(s', y) == Cur(s, y);
    hide ListFree, Alive, Least, LogOf, Cur, ListAt;
  }

  lemma SignalIsCareful(s: State, t: Tid, s': State)
    requires t in s.threads && WakeStep(s, t, Signal, s')
    ensures Careful(s, t, s')
  {
    var taken := s.threads[t].phase.taken;
    assert forall cb :: cb in taken ==> cb == taken[0] || cb in taken[1..];
    hide ListFree, Alive, LogOf;
  }

  lemma WakeIsCareful(s: State, t: Tid, a: Action, s': State)
    requires t in s.threads && WakeStep(s, t, a, s')
    ensures Careful(s, t, s')
  {
    if a.Take? {
      TakeIsCareful(s, t, a.x, s');
    } else if a.Signal? {
      SignalIsCareful(s, t, s');
    } else {
      assert forall x :: WillTake(s.threads[t], x) ==> WillTake(s'.threads[t], x);
      hide ListFree, Alive, LogOf, WillTake, Careful;
      SilentIsCareful(s, t, s');
    }
  }

  /** Cleanup keeps exactly the live waiters. */
  lemma RetainKeepsLive(s: State, list: seq<Cb>, cb: Cb)
    ensures cb in Retain(s, list) <==> cb in list && Alive(s, cb)
  {
    hide Alive, Keep;
    KeepMember(list, Upgradable(s, list), cb);
  }

  lemma WaitKeepsLists(ecd: bool, s: State, t: Tid, a: Action, s': State, x: Addr, cb: Cb)
    requires t in s.threads && WaitStep(ecd, s, t, a, s')
    requires cb in ListAt(s, x) && Alive(s, cb)
    ensures cb in ListAt(s', x)
  {
    if a.SweepEnd? {
      RetainKeepsLive(s, ListAt(s, x), cb);
      hide Alive, ListFree, Retain;
    } else {
      hide Alive, ListFree, FreeToRead, Retain, Begin, Waits, LogOf;
    }
  }

  lemma WaitStepFlags(ecd: bool, s: State, t: Tid, a: Action, s': State)
    requires t in s.threads && WaitStep(ecd, s, t, a, s')
    ensures s'.changed == s.changed && s'.nextCb == s.nextCb
    ensures !WillTakeAny(s.threads[t].phase)
  {
    hide Alive, ListFree, FreeToRead, Retain, Begin, Waits, LogOf;
  }

  lemma WaitIsCareful(ecd: bool, s: State, t: Tid, a: Action, s': State)
    requires t in s.threads && WaitStep(ecd, s, t, a, s')
    ensures Careful(s, t, s')
  {
    WaitStepShape(ecd, s, t, a, s');
    WaitStepFlags(ecd, s, t, a, s');
    forall x: Addr, cb | cb in ListAt(s, x) && Alive(s, cb) ensures cb in ListAt(s', x) {
      WaitKeepsLists(ecd, s, t, a, s', x, cb);
    }
    SameValuesSameStore(s, s', Touched(s.threads[t].phase, a));
    hide WaitStep, Alive, ListAt, SameValues, Begin, Touched;
    assert forall x: Addr :: Cur(s', x) == Cur(s, x);
    hide Cur, SameStore;
  }

  lemma StepIsCareful(ecd: bool, s: State, t: Tid, a: Action, s': State)
    requires t in s.threads && Next(ecd, s, By(t, a), s')
    ensures Careful(s, t, s')
  {
    hide *;
    StepOf(ecd, s, t, a, s');
    match PartOf(a) {
      case Closure => ClosureIsCareful(ecd, s, t, a, s');
      case Commit => CommitIsCareful(ecd, s, t, a, s');
      case Wake => WakeIsCareful(s, t, a, s');
      case Wait => WaitIsCareful(ecd, s, t, a, s');
    }
  }

  // ---------------------------------------------------------------- the invariant is kept

  lemma CommittingWaitsForNothing(th: Thread)
    requires Committing(th.phase) || th.phase.Idle? || th.phase.Running?
    ensures RegisteredWith(th) == {} && CbOf(th.phase).None?
  {
  }

  lemma ClosureRegistersNothing(ecd: bool, s: State, t: Tid, a: Action, s': State)
    requires t in s.threads && RunStep(ecd, s, t, a, s')
    ensures t in s'.threads && RegisteredWith(s'.threads[t]) == {}
    ensures CbOf(s'.threads[t].phase).Some? ==>
              CbOf(s'.threads[t].phase).value == Cb(t, s.nextCb) && s'.nextCb == s.nextCb + 1
  {
    ClosureShape(ecd, s, t, a, s');
    hide RunStep;
  }

  lemma CommitRegistersNothing(ecd: bool, s: State, t: Tid, a: Action, s': State)
    requires t in s.threads && CommitStep(ecd, s, t, a, s')
    ensures t in s'.threads && RegisteredWith(s'.threads[t]) == {} && CbOf(s'.threads[t].phase).None?
  {
    CommitPhases(ecd, s, t, a, s');
    if a.Restart? {
      RestartsAfresh(ecd, s, t, s');
      assert s'.threads[t].phase.Running?;
    }
    hide CommitStep, Begin;
    CommittingWaitsForNothing(s'.threads[t]);
  }

  lemma WakeRegistersNothing(s: State, t: Tid, a: Action, s': State)
    requires t in s.threads && WakeStep(s, t, a, s')
    ensures t in s'.threads && RegisteredWith(s'.threads[t]) == {} && CbOf(s'.threads[t].phase).None?
  {
    hide WakeStep, SameValues;
    WakeStepShape(s, t, a, s');
    CommittingWaitsForNothing(s'.threads[t]);
  }

  /** A waiting thread that moves on waits for nothing it did not wait for before, except that
      it may have entered a list, or may have compared a value and found it unchanged. */
  ghost predicate WaiterMoves(s: State, t: Tid, a: Action, s': State, x: Addr) {
    && t in s.threads && t in s'.threads
    && var th, th' := s.threads[t], s'.threads[t];
       && th'.run == th.run && CbOf(th.phase).Some? && CbOf(th'.phase) == CbOf(th.phase)
       && (|| (x in RegisteredWith(th) && (x in Matched(th') ==> x in Matched(th)))
           || (x !in Matched(th') && CbOf(th.phase).value in ListAt(s', x))
           || (&& th.phase.Checking? && th.phase.x == x && x in Waits(LogOf(th))
               && PtrEq(Waits(LogOf(th))[x], Cur(s, x)) && Cur(s', x) == Cur(s, x)))
  }

  lemma RegisterMoves(ecd: bool, s: State, t: Tid, x0: Addr, s': State, x: Addr)
    requires t in s.threads && WaitStep(ecd, s, t, Register(x0), s') && PhaseFits(s.threads[t])
    requires t in s'.threads && x in RegisteredWith(s'.threads[t])
    ensures WaiterMoves(s, t, Register(x0), s', x)
  {
    hide LogOf, Waits, ListFree;
  }

  lemma CheckMoves(ecd: bool, s: State, t: Tid, s': State, x: Addr)
    requires t in s.threads && WaitStep(ecd, s, t, Check, s')
    requires t in s'.threads && x in RegisteredWith(s'.threads[t])
    ensures WaiterMoves(s, t, Check, s', x)
  {
    hide Waits, FreeToRead;
  }

  lemma PollMoves(ecd: bool, s: State, t: Tid, a: Action, s': State, x: Addr)
    requires t in s.threads && WaitStep(ecd, s, t, a, s') && PhaseFits(s.threads[t])
    requires a.StartPoll? || a.Poll? || a.Unparked?
    requires t in s'.threads && x in RegisteredWith(s'.threads[t])
    ensures WaiterMoves(s, t, a, s', x)
  {
    hide Waits;
  }

  lemma DyingRegistersNothing(ecd: bool, s: State, t: Tid, a: Action, s': State)
    requires t in s.threads && WaitStep(ecd, s, t, a, s')
    requires !a.Register? && !a.Check? && !a.StartPoll? && !a.Poll? && !a.Unparked?
    ensures t in s'.threads && RegisteredWith(s'.threads[t]) == {}
  {
    hide LogOf, Waits, RunFrom, ListFree, Alive, Retain;
  }

  lemma WaitMoves(ecd: bool, s: State, t: Tid, a: Action, s': State, x: Addr)
    requires t in s.threads && WaitStep(ecd, s, t, a, s') && PhaseFits(s.threads[t])
    requires t in s'.threads && x in RegisteredWith(s'.threads[t])
    ensures WaiterMoves(s, t, a, s', x)
  {
    if a.Register? {
      RegisterMoves(ecd, s, t, a.x, s', x);
    } else if a.Check? {
      CheckMoves(ecd, s, t, s', x);
    } else if a.StartPoll? || a.Poll? || a.Unparked? {
      PollMoves(ecd, s, t, a, s', x);
    } else {
      DyingRegistersNothing(ecd, s, t, a, s');
    }
  }

  lemma MoverNotLost(ecd: bool, s: State, t: Tid, a: Action, s': State, x: Addr)
    requires Inv(ecd, s) && CbsOwned(s) && NoneLost(s)
    requires Careful(s, t, s') && Remembers(s, s') && WaiterMoves(s, t, a, s', x)
    ensures NotLost(s', s'.threads[t], x)
  {
    var th, th' := s.threads[t], s'.threads[t];
    var cb := CbOf(th.phase).value;
    hide Inv, Careful, Remembers, CbsOwned, Alive, StillAsSeen, InTaken, ListAt, Cur, LogOf, Waits;
    if x in RegisteredWith(th) && (x in Matched(th') ==> x in Matched(th)) {
      CarefulLosesNone(s, t, s', t, x);
    } else if th.phase.Checking? && th.phase.x == x && PtrEq(Waits(LogOf(th))[x], Cur(s, x)) {
      assert x in RegisteredWith(th);
      assert NotLost(s, th, x);
      CheckedNotLost(ecd, s, t, s', x);
    }
  }

  lemma CheckedNotLost(ecd: bool, s: State, t: Tid, s': State, x: Addr)
    requires Inv(ecd, s) && CbsOwned(s) && Careful(s, t, s')
    requires t in s.threads && t in s'.threads && s'.threads[t].run == s.threads[t].run
    requires CbOf(s'.threads[t].phase) == CbOf(s.threads[t].phase)
    requires s.threads[t].phase.Checking? && s.threads[t].phase.x == x && Cur(s', x) == Cur(s, x)
    requires x in Waits(LogOf(s.threads[t])) && PtrEq(Waits(LogOf(s.threads[t]))[x], Cur(s, x))
    requires NotLost(s, s.threads[t], x)
    ensures NotLost(s', s'.threads[t], x)
  {
    CheckingCompares(ecd, s, t);
    assert LogOf(s'.threads[t]) == LogOf(s.threads[t]);
    var cb := CbOf(s.threads[t].phase).value;
    OwnCbAlive(s, t);
    hide Inv, CbsOwned, Alive, InTaken, ListAt, Cur, LogOf, Waits, SomeoneWillTake, KeepsTaken, KeepsLists,
        KeepsPromises,
         AnnouncesValues;
    assert StillAsSeen(s', s'.threads[t], x);
    hide StillAsSeen;
    if InTaken(s, cb) {
      TakenStays(s, t, s', cb);
    } else if cb !in s.changed {
      ListStays(s, t, s', x, cb);
    }
  }

  lemma StepMovesWaiter(ecd: bool, s: State, t: Tid, a: Action, s': State, x: Addr)
    requires Inv(ecd, s) && t in s.threads && Next(ecd, s, By(t, a), s')
    requires t in s'.threads && x in RegisteredWith(s'.threads[t])
    ensures WaiterMoves(s, t, a, s', x)
  {
    hide *;
    StepOf(ecd, s, t, a, s');
    match PartOf(a) {
      case Closure => ClosureRegistersNothing(ecd, s, t, a, s');
      case Commit => CommitRegistersNothing(ecd, s, t, a, s');
      case Wake => WakeRegistersNothing(s, t, a, s');
      case Wait =>
        InvFits(ecd, s, t);
        WaitMoves(ecd, s, t, a, s', x);
    }
  }

  lemma StepRemembers(ecd: bool, s: State, t: Tid, a: Action, s': State)
    requires t in s.threads && Next(ecd, s, By(t, a), s') && Careful(s, t, s')
    ensures Remembers(s, s')
  {
    NextGrowsHistory(ecd, s, By(t, a), s');
    hide Next, HistAt, KeepsTaken, KeepsPromises, KeepsLists, AnnouncesValues;
  }

  lemma OtherNotLost(s: State, t: Tid, s': State, u: Tid, x: Addr)
    requires Careful(s, t, s') && Remembers(s, s') && CbsOwned(s)
    requires u in s.threads && u in s'.threads && s'.threads[u] == s.threads[u] && NotLost(s, s.threads[u], x)
    ensures NotLost(s', s'.threads[u], x)
  {
    if CbOf(s.threads[u].phase).Some? {
      hide NotLost, Careful, Remembers, CbsOwned, CbOf;
      CarefulLosesNone(s, t, s', u, x);
    }
  }

  lemma OthersStay(s: State, t: Tid, s': State, u: Tid)
    requires OnlyMoves(s, t, s') && u in s'.threads && u != t
    ensures u in s.threads && s'.threads[u] == s.threads[u]
  {
  }

  lemma NoneLostAt(s: State, u: Tid, x: Addr)
    requires NoneLost(s) && u in s.threads && x in RegisteredWith(s.threads[u])
    ensures NotLost(s, s.threads[u], x)
  {
  }

  lemma StepLosesNone(ecd: bool, s: State, t: Tid, a: Action, s': State)
    requires Inv(ecd, s) && CbsOwned(s) && NoneLost(s)
    requires t in s.threads && Next(ecd, s, By(t, a), s')
    ensures NoneLost(s')
  {
    StepIsCareful(ecd, s, t, a, s');
    StepRemembers(ecd, s, t, a, s');
    OnlyOneMoves(ecd, s, t, a, s');
    hide Inv, Next, CbsOwned, RegisteredWith, NotLost, Careful, Remembers, OnlyMoves, WaiterMoves;
    forall u, x | u in s'.threads && x in RegisteredWith(s'.threads[u]) ensures NotLost(s', s'.threads[u], x) {
      if u == t {
        StepMovesWaiter(ecd, s, t, a, s', x);
        MoverNotLost(ecd, s, t, a, s', x);
      } else {
        OthersStay(s, t, s', u);
        NoneLostAt(s, u, x);
        OtherNotLost(s, t, s', u, x);
      }
    }
  }

  /** `write_atomic` loses nobody but those it overtakes: whoever had seen the value it replaces. */
  lemma AtomicSeen(s: State, x: Addr, a: Arc, s': State, th: Thread, y: Addr)
    requires HistoryOk(s) && Overwriting(s, x, a, s') && s'.atomics == s.atomics + {a.id.serial}
    requires forall z :: SomeoneWillTake(s', z) <==> SomeoneWillTake(s, z)
    requires StillAsSeen(s, th, y)
    ensures StillAsSeen(s', th, y)
  {
    hide FreeToWrite, Unallocated, Cur, HistAt, AbsAt, SomeoneWillTake, LogOf, Waits, MissedAtomic, Installed;
    if y in Waits(LogOf(th)) {
      var seen := Waits(LogOf(th))[y];
      if MissedAtomic(s, y, seen) {
        MissedStays(s, s', y, seen);
      } else if y == x && seen == Cur(s, x) {
        var n := |HistAt(s, x)|;
        assert HistAt(s', x)[n - 1] == seen && HistAt(s', x)[n] == a;
        AtomicMissed(s', x, seen, n - 1, n);
      }
    }
  }

  lemma AtomicMissed(s: State, x: Addr, a: Arc, i: nat, j: nat)
    requires i < j < |HistAt(s, x)| && HistAt(s, x)[i] == a && HistAt(s, x)[j].id.serial in s.atomics
    ensures MissedAtomic(s, x, a)
  {
  }

  lemma SameTakers(s: State, s': State)
    requires s'.threads == s.threads
    ensures forall cb :: InTaken(s', cb) <==> InTaken(s, cb)
    ensures forall x :: SomeoneWillTake(s', x) <==> SomeoneWillTake(s, x)
  {
    hide WillTake, TakenBy;
  }

  lemma AtomicNotLost(s: State, x: Addr, a: Arc, s': State, th: Thread, y: Addr)
    requires HistoryOk(s) && Overwriting(s, x, a, s') && s'.atomics == s.atomics + {a.id.serial}
    requires s'.changed == s.changed && ListAt(s', y) == ListAt(s, y) && NotLost(s, th, y)
    requires forall cb :: InTaken(s', cb) <==> InTaken(s, cb)
    requires forall z :: SomeoneWillTake(s', z) <==> SomeoneWillTake(s, z)
    ensures NotLost(s', th, y)
  {
    hide HistoryOk, Overwriting, ListAt, Matched, CbOf, InTaken, SomeoneWillTake, StillAsSeen;
    if StillAsSeen(s, th, y) {
      AtomicSeen(s, x, a, s', th, y);
    }
  }

  lemma AtomicLosesNone(ecd: bool, s: State, x: Addr, ptr: nat, v: Val, s': State)
    requires Inv(ecd, s) && AtomicStep(s, x, ptr, v, s') && NoneLost(s)
    ensures NoneLost(s')
  {
    var a := Arc(Id(ptr, s.nextId), v);
    AtomicShape(s, x, ptr, v, s');
    InvHistory(ecd, s);
    assert s'.changed == s.changed && forall y: Addr :: ListAt(s', y) == ListAt(s, y);
    OverwritesNoThread(s, x, a, s');
    SameTakers(s, s');
    hide Inv, AtomicStep, HistoryOk, Overwriting, ListAt, RegisteredWith, InTaken, SomeoneWillTake, NotLost,
        LoadsOk, ArcsUnique, AllocsDistinct;
    forall u, y | u in s'.threads && y in RegisteredWith(s'.threads[u]) ensures NotLost(s', s'.threads[u], y) {
      AtomicNotLost(s, x, a, s', s.threads[u], y);
    }
  }

  lemma OverwritesNoThread(s: State, x: Addr, a: Arc, s': State)
    requires Overwriting(s, x, a, s')
    ensures s'.threads == s.threads
  {
  }

  // ---------------------------------------------------------------- control blocks and tokens

  /** The thread whose flag a waker has cleared and whom it has yet to unpark. */
  function UnparkOf(ph: Phase): Option<Tid> {
    if ph.Waking? then ph.unpark else None
  }

  ghost predicate UnparkPending(s: State, t: Tid) {
    exists v :: v in s.threads && UnparkOf(s.threads[v].phase) == Some(t)
  }

  /** A parked thread whose flag is cleared has its token, or is about to get it. */
  ghost predicate TokensOk(s: State) {
    forall t :: t in s.threads && s.threads[t].phase.Parked? && s.threads[t].phase.cb in s.changed ==>
      t in s.tokens || UnparkPending(s, t)
  }

  ghost predicate TokenStep(s: State, t: Tid, s': State) {
    && OnlyMoves(s, t, s')
    && (forall u :: u != t && u in s.tokens ==> u in s'.tokens)
    && (forall u :: UnparkOf(s.threads[t].phase) == Some(u) ==>
        UnparkOf(s'.threads[t].phase) == Some(u) || u in s'.tokens)
    && (forall cb :: cb in s'.changed ==> cb in s.changed || UnparkOf(s'.threads[t].phase) == Some(cb.owner))
    && (s'.threads[t].phase.Parked? ==> s'.threads[t].phase.cb !in s'.changed)
  }

  lemma QuietTokenStep(s: State, t: Tid, s': State)
    requires OnlyMoves(s, t, s') && s'.changed == s.changed && s'.tokens == s.tokens
    requires UnparkOf(s.threads[t].phase).None? && !s'.threads[t].phase.Parked?
    ensures TokenStep(s, t, s')
  {
    hide UnparkOf;
  }

  lemma TakeTokens(s: State, t: Tid, a: Action, s': State)
    requires t in s.threads && WakeStep(s, t, a, s') && (a.Take? || a.Finish?)
    ensures TokenStep(s, t, s') && s'.nextCb == s.nextCb
  {
    hide ListFree, Least;
  }

  lemma SignalTokens(s: State, t: Tid, a: Action, s': State)
    requires t in s.threads && WakeStep(s, t, a, s') && a.Signal?
    ensures TokenStep(s, t, s') && s'.nextCb == s.nextCb
  {
    hide Alive;
  }

  lemma UnparkTokens(s: State, t: Tid, a: Action, s': State)
    requires t in s.threads && WakeStep(s, t, a, s') && a.Unpark?
    ensures TokenStep(s, t, s') && s'.nextCb == s.nextCb
  {
  }

  lemma WakeTokens(s: State, t: Tid, a: Action, s': State)
    requires t in s.threads && WakeStep(s, t, a, s')
    ensures TokenStep(s, t, s') && s'.nextCb == s.nextCb
  {
    hide *;
    WakeActions(s, t, a, s');
    WakeParts(a);
    if a.Signal? {
      SignalTokens(s, t, a, s');
    } else if a.Unpark? {
      UnparkTokens(s, t, a, s');
    } else {
      TakeTokens(s, t, a, s');
    }
  }

  lemma WakeParts(a: Action)
    requires PartOf(a) == Wake
    ensures a.Take? || a.Signal? || a.Unpark? || a.Finish?
  {
  }

  lemma PollTokens(ecd: bool, s: State, t: Tid, a: Action, s': State)
    requires t in s.threads && WaitStep(ecd, s, t, a, s') && (a.Poll? || a.Unparked?)
    ensures TokenStep(s, t, s')
  {
    hide LogOf, Waits;
  }

  lemma WaitParksNobody(ecd: bool, s: State, t: Tid, a: Action, s': State)
    requires t in s.threads && WaitStep(ecd, s, t, a, s') && !a.Poll? && !a.Unparked?
    ensures t in s'.threads && !s'.threads[t].phase.Parked? && s'.tokens == s.tokens
    ensures UnparkOf(s.threads[t].phase).None?
  {
    hide Alive, ListFree, LogOf, Retain, Waits, RunFrom, FreeToRead;
  }

  lemma WaitingKeepsCb(ecd: bool, s: State, t: Tid, a: Action, s': State)
    requires t in s.threads && WaitStep(ecd, s, t, a, s')
    requires a.Register? || a.Check? || a.StartPoll? || a.Poll? || a.Unparked?
    ensures t in s'.threads && CbOf(s'.threads[t].phase) == CbOf(s.threads[t].phase)
  {
    hide ListFree, LogOf, Waits, FreeToRead;
  }

  lemma DyingKeepsCb(ecd: bool, s: State, t: Tid, a: Action, s': State)
    requires t in s.threads && WaitStep(ecd, s, t, a, s')
    requires a.MarkDead? || a.SweepStart? || a.SweepEnd?
    ensures t in s'.threads && CbOf(s'.threads[t].phase) == CbOf(s.threads[t].phase)
  {
    hide ListFree, LogOf, Waits, Retain;
  }

  lemma OnlyLeaveDrops(ecd: bool, s: State, t: Tid, a: Action, s': State)
    requires t in s.threads && WaitStep(ecd, s, t, a, s') && !a.Leave?
    ensures t in s'.threads && CbOf(s'.threads[t].phase) == CbOf(s.threads[t].phase)
  {
    hide *;
    WaitActions(ecd, s, t, a, s');
    WaitParts(a);
    if a.MarkDead? || a.SweepStart? || a.SweepEnd? {
      DyingKeepsCb(ecd, s, t, a, s');
    } else {
      WaitingKeepsCb(ecd, s, t, a, s');
    }
  }

  lemma WaitParts(a: Action)
    requires PartOf(a) == Wait
    ensures || a.Register? || a.Check? || a.StartPoll? || a.Poll? || a.Unparked?
            || a.MarkDead? || a.SweepStart? || a.SweepEnd? || a.Leave?
  {
  }

  lemma WaiterHasCb(ecd: bool, s: State, t: Tid, a: Action, s': State)
    requires t in s.threads && WaitStep(ecd, s, t, a, s')
    ensures CbOf(s.threads[t].phase).Some?
  {
    hide ListFree, LogOf, Waits, Retain, FreeToRead, RunFrom, SetPhase, SetThread, SetVar;
  }

  lemma LeaveDropsCb(ecd: bool, s: State, t: Tid, a: Action, s': State)
    requires t in s.threads && WaitStep(ecd, s, t, a, s') && a.Leave?
    ensures t in s'.threads && CbOf(s'.threads[t].phase).None? && s'.threads[t].phase.Running?
  {
    hide RunFrom, LogOf, Waits;
  }

  lemma WaitKeepsCb(ecd: bool, s: State, t: Tid, a: Action, s': State)
    requires t in s.threads && WaitStep(ecd, s, t, a, s')
    ensures t in s'.threads
    ensures CbOf(s'.threads[t].phase).None? || CbOf(s'.threads[t].phase) == CbOf(s.threads[t].phase)
  {
    hide *;
    if a.Leave? {
      LeaveDropsCb(ecd, s, t, a, s');
    } else {
      OnlyLeaveDrops(ecd, s, t, a, s');
    }
  }

  lemma WaitTokens(ecd: bool, s: State, t: Tid, a: Action, s': State)
    requires t in s.threads && WaitStep(ecd, s, t, a, s')
    ensures TokenStep(s, t, s') && s'.nextCb == s.nextCb
    ensures CbOf(s'.threads[t].phase).None? || CbOf(s'.threads[t].phase) == CbOf(s.threads[t].phase)
  {
    WaitStepFlags(ecd, s, t, a, s');
    WaitKeepsCb(ecd, s, t, a, s');
    hide WaitStep, CbOf, UnparkOf, Begin;
    if a.Poll? || a.Unparked? {
      PollTokens(ecd, s, t, a, s');
    } else {
      WaitParksNobody(ecd, s, t, a, s');
      WaitStepShape(ecd, s, t, a, s');
      QuietTokenStep(s, t, s');
    }
  }

  lemma ClosureTokens(ecd: bool, s: State, t: Tid, a: Action, s': State)
    requires t in s.threads && RunStep(ecd, s, t, a, s')
    ensures TokenStep(s, t, s') && s.nextCb <= s'.nextCb
    ensures CbOf(s'.threads[t].phase).None? ||
            (CbOf(s'.threads[t].phase) == Some(Cb(t, s.nextCb)) && s'.nextCb == s.nextCb + 1)
  {
    RunStepShape(ecd, s, t, a, s');
    ClosureRegistersNothing(ecd, s, t, a, s');
    ClosureDoesNotPark(ecd, s, t, a, s');
    hide RunStep, CbOf;
    QuietTokenStep(s, t, s');
  }

  lemma ClosureDoesNotPark(ecd: bool, s: State, t: Tid, a: Action, s': State)
    requires t in s.threads && RunStep(ecd, s, t, a, s')
    ensures t in s'.threads && UnparkOf(s.threads[t].phase).None? && !s'.threads[t].phase.Parked?
  {
    ClosurePhases(ecd, s, t, a, s');
    hide RunStep;
  }

  lemma CommitTokens(ecd: bool, s: State, t: Tid, a: Action, s': State)
    requires t in s.threads && CommitStep(ecd, s, t, a, s')
    ensures TokenStep(s, t, s') && s'.nextCb == s.nextCb && CbOf(s'.threads[t].phase).None?
  {
    hide CommitStep, CbOf, OnlyMoves, TokenStep;
    CommitStepShape(ecd, s, t, a, s');
    CommitRegistersNothing(ecd, s, t, a, s');
    CommitUnparksNobody(ecd, s, t, a, s');
    NoCbNotParked(s'.threads[t].phase);
    QuietTokenStep(s, t, s');
  }

  lemma NoCbNotParked(ph: Phase)
    ensures CbOf(ph).None? ==> !ph.Parked?
  {
  }

  lemma CommitUnparksNobody(ecd: bool, s: State, t: Tid, a: Action, s': State)
    requires t in s.threads && CommitStep(ecd, s, t, a, s')
    ensures UnparkOf(s.threads[t].phase).None?
  {
    hide CommitStep;
    CommitNotWaking(ecd, s, t, a, s');
  }

  /** The control block of the mover after its step: none, its old one, or a new one. */
  ghost predicate CbMoves(s: State, t: Tid, s': State) {
    && t in s.threads && t in s'.threads && s.nextCb <= s'.nextCb
    && (|| CbOf(s'.threads[t].phase).None?
        || CbOf(s'.threads[t].phase) == CbOf(s.threads[t].phase)
        || (CbOf(s'.threads[t].phase) == Some(Cb(t, s.nextCb)) && s'.nextCb == s.nextCb + 1))
  }

  lemma StepTokens(ecd: bool, s: State, t: Tid, a: Action, s': State)
    requires t in s.threads && Next(ecd, s, By(t, a), s')
    ensures TokenStep(s, t, s') && CbMoves(s, t, s')
  {
    hide Next, RunStep, CommitStep, WakeStep, WaitStep, TokenStep, CbOf, RegisteredWith;
    StepOf(ecd, s, t, a, s');
    match PartOf(a) {
      case Closure => ClosureTokens(ecd, s, t, a, s'); RunStepShape(ecd, s, t, a, s');
      case Commit => CommitTokens(ecd, s, t, a, s'); CommitStepShape(ecd, s, t, a, s');
      case Wake => WakeTokens(s, t, a, s'); WakeRegistersNothing(s, t, a, s');
      case Wait =>
        WaitTokens(ecd, s, t, a, s');
        OnlyOneMoves(ecd, s, t, a, s');
    }
  }

  lemma StepKeepsCbs(s: State, t: Tid, s': State)
    requires CbsOwned(s) && OnlyMoves(s, t, s') && CbMoves(s, t, s')
    ensures CbsOwned(s')
  {
    hide CbOf;
    forall u | u in s'.threads && CbOf(s'.threads[u].phase).Some?
      ensures CbOf(s'.threads[u].phase).value.owner == u && CbOf(s'.threads[u].phase).value.serial < s'.nextCb
    {
      assert u != t ==> s'.threads[u] == s.threads[u];
    }
  }

  lemma StepKeepsTokens(s: State, t: Tid, s': State)
    requires CbsOwned(s) && TokenStep(s, t, s') && TokensOk(s)
    ensures TokensOk(s')
  {
    assert forall u :: u in s.threads && s.threads[u].phase.Parked? ==>
        CbOf(s.threads[u].phase) == Some(s.threads[u].phase.cb);
    hide UnparkOf, CbOf;
    forall u | u in s'.threads && s'.threads[u].phase.Parked? && s'.threads[u].phase.cb in s'.changed
      ensures u in s'.tokens || UnparkPending(s', u)
    {
      assert u != t && s'.threads[u] == s.threads[u];
      var cb := s.threads[u].phase.cb;
      assert cb.owner == u;
      if UnparkOf(s'.threads[t].phase) == Some(u) {
        assert UnparkPending(s', u);
      } else if u !in s.tokens {
        var v :| v in s.threads && UnparkOf(s.threads[v].phase) == Some(u);
        if v != t {
          assert s'.threads[v] == s.threads[v];
          assert UnparkPending(s', u);
        }
      }
    }
  }

  ghost predicate WaitersOk(s: State) {
    CbsOwned(s) && NoneLost(s) && TokensOk(s)
  }

  lemma InitWaiters(s: State)
    requires Init(s)
    ensures WaitersOk(s)
  {
  }

  lemma AtomicKeepsCbs(s: State, x: Addr, ptr: nat, v: Val, s': State)
    requires AtomicStep(s, x, ptr, v, s') && CbsOwned(s) && TokensOk(s)
    ensures CbsOwned(s') && TokensOk(s')
  {
    hide FreeToWrite, Unallocated, CbOf, UnparkOf;
    assert forall u :: UnparkPending(s', u) <==> UnparkPending(s, u);
  }

  lemma NextKeepsWaiters(ecd: bool, s: State, m: Move, s': State)
    requires Inv(ecd, s) && WaitersOk(s) && Next(ecd, s, m, s')
    ensures WaitersOk(s')
  {
    hide Inv, CbsOwned, NoneLost, TokensOk, RunStep, CommitStep, WakeStep, WaitStep, AtomicStep, TokenStep;
    match m
    case Atomic(x, ptr, v) =>
      AtomicLosesNone(ecd, s, x, ptr, v, s');
      AtomicKeepsCbs(s, x, ptr, v, s');
    case By(t, a) =>
      hide Next, CbMoves;
      MoverExists(ecd, s, t, a, s');
      StepTokens(ecd, s, t, a, s');
      OnlyOneMoves(ecd, s, t, a, s');
      StepKeepsCbs(s, t, s');
      StepKeepsTokens(s, t, s');
      StepLosesNone(ecd, s, t, a, s');
  }

  lemma {:induction false} BehaviourKeepsWaiters(ecd: bool, states: seq<State>, moves: seq<Move>, i: nat)
    requires Behaviour(ecd, states, moves) && i < |states|
    ensures WaitersOk(states[i])
  {
    hide *;
    BehaviourShape(ecd, states, moves);
    if i == 0 {
      InitWaiters(states[0]);
    } else {
      BehaviourKeepsWaiters(ecd, states, moves, i - 1);
      BehaviourKeepsInv(ecd, states, moves, i - 1);
      BehaviourNext(ecd, states, moves, i - 1);
      NextKeepsWaiters(ecd, states[i - 1], moves[i - 1], states[i]);
    }
  }

  // ---------------------------------------------------------------- the theorems

  /** No lost wakeup. In every state of every run, a waiter that has entered the list of `x` and
      compared its value is signalled, or held by a waker that will signal it, or still in the
      list; and then `x` holds the value it saw, or somebody who wrote `x` has yet to take the
      list, or a `write_atomic` has replaced a value of `x` since. */
  lemma NoLostWakeup(ecd: bool, states: seq<State>, moves: seq<Move>, i: nat, t: Tid, x: Addr)
    requires Behaviour(ecd, states, moves) && i < |states|
    requires t in states[i].threads && x in Matched(states[i].threads[t])
    ensures var s, th := states[i], states[i].threads[t];
            && CbOf(th.phase).Some?
            && var cb := CbOf(th.phase).value;
               || cb in s.changed
               || InTaken(s, cb)
               || (cb in ListAt(s, x) && StillAsSeen(s, th, x))
  {
    hide Behaviour;
    BehaviourKeepsWaiters(ecd, states, moves, i);
    assert x in RegisteredWith(states[i].threads[t]);
    assert NotLost(states[i], states[i].threads[t], x);
  }

  /** No commit is between its first write back and its last wake. */
  ghost predicate NoCommitInFlight(s: State) {
    forall t :: t in s.threads ==> !s.threads[t].phase.Publishing? && !s.threads[t].phase.Waking?
  }

  lemma NobodyWillTake(s: State)
    requires NoCommitInFlight(s)
    ensures forall cb :: !InTaken(s, cb)
    ensures forall x :: !SomeoneWillTake(s, x)
    ensures forall t :: !UnparkPending(s, t)
  {
    hide Writes;
  }

  /** The thread sleeps, its flag is set, and no commit is in flight that might clear it. */
  ghost predicate SleepsOn(s: State, t: Tid) {
    t in s.threads && Asleep(s.threads[t].phase) && s.threads[t].phase.cb !in s.changed && NoCommitInFlight(s)
  }

  lemma OvertakenIsGone(s: State, x: Addr, a: Arc)
    requires HistoryOk(s) && MissedAtomic(s, x, a)
    ensures Cur(s, x) != a
  {
    hide Cur, HistAt, Installed;
    var i, j :| 0 <= i < j < |HistAt(s, x)| && HistAt(s, x)[i] == a && HistAt(s, x)[j].id.serial in s.atomics;
    CurrentVersion(s, x, i);
  }

  lemma SleeperMatched(s: State, t: Tid, x: Addr)
    requires SleepsOn(s, t) && x in Waits(LogOf(s.threads[t]))
    ensures t in s.threads && x in Matched(s.threads[t]) && NoCommitInFlight(s)
    ensures CbOf(s.threads[t].phase) == Some(s.threads[t].phase.cb) && s.threads[t].phase.cb !in s.changed
  {
    hide Waits, LogOf, NoCommitInFlight;
  }

  lemma SeenOrMissed(s: State, th: Thread, x: Addr)
    requires HistoryOk(s) && StillAsSeen(s, th, x) && !SomeoneWillTake(s, x) && x in Waits(LogOf(th))
    ensures Cur(s, x) == Waits(LogOf(th))[x] <==> !MissedAtomic(s, x, Waits(LogOf(th))[x])
  {
    hide Cur, LogOf, Waits, HistoryOk, MissedAtomic, SomeoneWillTake;
    if MissedAtomic(s, x, Waits(LogOf(th))[x]) {
      OvertakenIsGone(s, x, Waits(LogOf(th))[x]);
    }
  }

  /** With no commit in flight, a sleeping thread whose flag is still set is in the list of every
      variable it waits for, and such a variable holds what it saw if and only if `write_atomic` has
      not been used on it since. */
  lemma SleepersAreCurrent(ecd: bool, states: seq<State>, moves: seq<Move>, i: nat, t: Tid, x: Addr)
    requires Behaviour(ecd, states, moves) && i < |states|
    requires SleepsOn(states[i], t) && x in Waits(LogOf(states[i].threads[t]))
    ensures var s, seen := states[i], Waits(LogOf(states[i].threads[t]))[x];
            && (Cur(s, x) == seen <==> !MissedAtomic(s, x, seen))
            && s.threads[t].phase.cb in ListAt(s, x)
  {
    hide *;
    SleeperMatched(states[i], t, x);
    BehaviourKeepsInv(ecd, states, moves, i);
    InvHistory(ecd, states[i]);
    NoLostWakeup(ecd, states, moves, i, t, x);
    NobodyWillTake(states[i]);
    SeenOrMissed(states[i], states[i].threads[t], x);
  }

  /** With no commit in flight, a parked thread whose flag is cleared has its unpark token. */
  lemma SignalledHaveTokens(ecd: bool, states: seq<State>, moves: seq<Move>, i: nat, t: Tid)
    requires Behaviour(ecd, states, moves) && i < |states|
    requires var s := states[i];
             t in s.threads && s.threads[t].phase.Parked? && s.threads[t].phase.cb in s.changed && NoCommitInFlight(s)
    ensures t in states[i].tokens
  {
    hide Behaviour, CbsOwned, NoneLost;
    BehaviourKeepsWaiters(ecd, states, moves, i);
    NobodyWillTake(states[i]);
  }
}
