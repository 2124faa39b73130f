/** What every reachable state keeps, and why steps that move no value keep it. */
module Invariants {
  import opened Values
  import opened Logs
  import opened Programs
  import opened RunFacts
  import opened Machine

  // ---------------------------------------------------------------- the invariant

  /** Live allocations have distinct addresses, so comparing pointers compares allocations. */
  ghost predicate ArcsUnique(s: State) {
    && (forall a, b :: InUse(s, a) && InUse(s, b) && PtrEq(a, b) ==> a == b)
    && (forall a :: InUse(s, a) ==> a.id.serial < s.nextId)
  }

  /** Locks exclude. */
  ghost predicate GuardsExclude(s: State) {
    forall t, u, x :: t in s.threads && u in s.threads && t != u && x in WriteGuards(s.threads[t].phase) ==>
      x !in WriteGuards(s.threads[u].phase) && x !in ReadGuards(s.threads[u].phase)
  }

  /** Each phase fits the run of the closure it came from, and a committing thread has visited
      its records in address order. */
  ghost predicate Coherent(ecd: bool, th: Thread) {
    && (!th.phase.Idle? ==> th.run == RunFrom(ecd, th.body, th.loads, th.allocs) && Unused(th.run) == NO_ANSWERS)
    && PhaseFits(th)
  }

  ghost predicate PhaseFits(th: Thread) {
    var log := LogOf(th);
    match th.phase
    case Locking(todo, rd, wr) =>
      && th.run.Done? && th.run.out.Ok?
      && todo <= log.Keys
      && (forall x :: x in rd <==> x in log && x !in todo && log[x].Read?)
      && (forall x :: x in wr <==> x in log && x !in todo && log[x].HasPend())
      && (forall x, y :: x in log && x !in todo && y in todo ==> x < y)
    case Publishing(_, wr) =>
      && th.run.Done? && th.run.out.Ok?
      && wr <= Writes(log).Keys
    case Registering(_, todo, reg) =>
      && th.run.Done? && !th.run.out.Ok?
      && todo !! reg && todo + reg == Waits(log).Keys
    case Checking(_, x, todo, reg) =>
      && th.run.Done? && !th.run.out.Ok?
      && todo !! reg && x !in todo + reg && todo + {x} + reg == Waits(log).Keys
    case Polling(_) => th.run.Done? && !th.run.out.Ok?
    case Parked(_) => th.run.Done? && !th.run.out.Ok?
    case _ => true
  }

  /** What a committing thread has validated cannot change under its guards. */
  ghost predicate ValidatedHolds(s: State, th: Thread) {
    th.phase.Locking? ==>
      forall x :: x in Reads(LogOf(th)) && x !in th.phase.todo ==> Cur(s, x) == Reads(LogOf(th))[x]
  }

  /** The values a thread past its lock point has yet to write back. */
  function Owed(th: Thread): map<Addr, Arc> {
    if th.phase.Publishing? then map x | x in Writes(LogOf(th)) && x in th.phase.wr :: Writes(LogOf(th))[x]
    else map[]
  }

  /** The variables lag behind the atomic store by exactly the values not written back yet. */
  ghost predicate AbsMatches(s: State) {
    && (forall t, x :: t in s.threads && x in Owed(s.threads[t]) ==> AbsAt(s, x) == Owed(s.threads[t])[x])
    && (forall x: Addr :: AbsAt(s, x) == Cur(s, x) || exists t :: t in s.threads && x in Owed(s.threads[t]))
  }

  /** Serial numbers of allocations made by a thread and not installed in a variable yet. */
  function Boxes(th: Thread): set<int> {
    match th.phase
    case Running => set id | id in th.allocs :: id.serial
    case Locking(_, _, _) => set id | id in th.allocs :: id.serial
    case Publishing(_, _) => set x | x in Owed(th) :: Owed(th)[x].id.serial
    case _ => {}
  }

  ghost predicate SerialsDistinct(ids: seq<Id>) {
    forall i, j :: 0 <= i < j < |ids| ==> ids[i].serial != ids[j].serial
  }

  /** The serial number of some value a variable has held. */
  ghost predicate Installed(s: State, n: int) {
    exists x: Addr, i :: 0 <= i < |HistAt(s, x)| && HistAt(s, x)[i].id.serial == n
  }

  /** Every value is installed at most once. */
  ghost predicate InstalledOnce(s: State) {
    forall x: Addr, i, y: Addr, j ::
      0 <= i < |HistAt(s, x)| && 0 <= j < |HistAt(s, y)|
          && HistAt(s, x)[i].id.serial == HistAt(s, y)[j].id.serial ==>
      x == y && i == j
  }

  ghost predicate HistoryOk(s: State) {
    && (forall x: Addr :: |HistAt(s, x)| > 0 && HistAt(s, x)[|HistAt(s, x)| - 1] == Cur(s, x))
    && InstalledOnce(s)
    && (forall n :: Installed(s, n) ==> n < s.nextId)
  }

  /** Allocations waiting to be installed are new, and belong to one thread. */
  ghost predicate BoxesNew(s: State) {
    && (forall t, n :: t in s.threads && n in Boxes(s.threads[t]) ==> n < s.nextId)
    && (forall t, n :: t in s.threads && n in Boxes(s.threads[t]) ==> !Installed(s, n))
  }

  ghost predicate BoxesApart(s: State) {
    forall t, u, n :: t in s.threads && u in s.threads && t != u && n in Boxes(s.threads[t]) ==>
      n !in Boxes(s.threads[u])
  }

  ghost predicate AllocsDistinct(s: State) {
    forall t :: t in s.threads ==> SerialsDistinct(s.threads[t].allocs)
  }

  ghost predicate BoxesOk(s: State) {
    BoxesNew(s) && BoxesApart(s) && AllocsDistinct(s)
  }

  /** Every loaded value was once in the variable it was loaded from. */
  ghost predicate LoadsOk(s: State) {
    forall t, r :: t in s.threads && r in s.threads[t].loads ==> r.arc in HistAt(s, r.x)
  }

  ghost predicate ThreadsOk(ecd: bool, s: State) {
    forall t :: t in s.threads ==> Coherent(ecd, s.threads[t]) && ValidatedHolds(s, s.threads[t])
  }

  ghost predicate Inv(ecd: bool, s: State) {
    && ArcsUnique(s) && GuardsExclude(s) && ThreadsOk(ecd, s) && AbsMatches(s)
    && HistoryOk(s) && BoxesOk(s) && LoadsOk(s)
  }

  // ---------------------------------------------------------------- the start

  /** At the start variable `x` holds zero, at an even address: the odd ones are free. */
  ghost function FirstArc(x: Addr): Arc {
    Arc(Id(2 * x, -1 - x), Num(0))
  }

  ghost function StartState(tids: set<Tid>): State {
    var vars: Vars := imap x: Addr :: Var(FirstArc(x), [], 0);
    var abs: Store := imap x: Addr :: FirstArc(x);
    var hist: Histories := imap x: Addr :: [FirstArc(x)];
    var th := Thread(Return(Nothing), [], [], Ask(AskLoad(0), {}, NO_ANSWERS), Idle);
    State(vars, map t | t in tids :: th, {}, {}, 0, 0, abs, hist, [], {})
  }

  lemma StartAt(tids: set<Tid>, x: Addr)
    ensures var s := StartState(tids);
            && Cur(s, x) == FirstArc(x) && AbsAt(s, x) == FirstArc(x) && HistAt(s, x) == [FirstArc(x)]
            && ListAt(s, x) == [] && DeadAt(s, x) == 0
  {
  }

  lemma FirstArcsApart(x: Addr, y: Addr)
    requires x != y
    ensures !PtrEq(FirstArc(x), FirstArc(y)) && FirstArc(x).id.serial != FirstArc(y).id.serial
  {
  }

  lemma FirstArcOld(x: Addr)
    ensures FirstArc(x).id.serial < 0
  {
  }

  lemma StartRest(tids: set<Tid>)
    ensures var s := StartState(tids);
            && s.threads.Keys == tids && s.nextId == 0
            && (forall t :: t in s.threads ==>
                s.threads[t].phase.Idle? && s.threads[t].loads == [] && s.threads[t].allocs == [])
            && s.changed == {} && s.events == [] && s.atomics == {}
  {
  }

  /** Any number of threads can start. */
  lemma SomeStart(tids: set<Tid>)
    ensures Init(StartState(tids)) && StartState(tids).threads.Keys == tids
  {
    StartRest(tids);
    var s := StartState(tids);
    hide StartState, FirstArc, Cur, AbsAt, HistAt, ListAt, DeadAt, PtrEq;
    forall x: Addr ensures Cur(s, x) == FirstArc(x) && AbsAt(s, x) == FirstArc(x) && HistAt(s, x) == [FirstArc(x)]
                   ensures ListAt(s, x) == [] && DeadAt(s, x) == 0 && FirstArc(x).id.serial < 0
    {
      StartAt(tids, x);
      FirstArcOld(x);
    }
    forall x: Addr, y: Addr | x != y
      ensures !PtrEq(Cur(s, x), Cur(s, y)) && Cur(s, x).id.serial != Cur(s, y).id.serial
    {
      FirstArcsApart(x, y);
    }
  }

  lemma InitInv(ecd: bool, s: State)
    requires Init(s)
    ensures Inv(ecd, s)
  {
    InitArcs(s);
    InitThreads(ecd, s);
    InitHistory(s);
  }

  lemma InitThreads(ecd: bool, s: State)
    requires Init(s)
    ensures GuardsExclude(s) && ThreadsOk(ecd, s) && AbsMatches(s) && BoxesOk(s) && LoadsOk(s)
  {
    assert SerialsDistinct([]);
    assert forall t :: t in s.threads ==> Boxes(s.threads[t]) == {};
  }

  lemma InitArcs(s: State)
    requires Init(s)
    ensures ArcsUnique(s)
  {
    assert forall a :: !InThread(s, a);
  }

  lemma InitHistory(s: State)
    requires Init(s)
    ensures HistoryOk(s)
  {
    forall x: Addr, i, y: Addr, j |
      0 <= i < |HistAt(s, x)| && 0 <= j < |HistAt(s, y)| && HistAt(s, x)[i].id.serial == HistAt(s, y)[j].id.serial
      ensures x == y && i == j
    {
      assert HistAt(s, x) == [Cur(s, x)] && HistAt(s, y) == [Cur(s, y)];
    }
  }

  // ---------------------------------------------------------------- steps that move no value

  /** Only thread `t` moves. */
  ghost predicate OnlyMoves(s: State, t: Tid, s': State) {
    && t in s.threads && t in s'.threads
    && s'.threads == s.threads[t := s'.threads[t]]
  }

  /** After the step the thread boxes no more, holds only what was alive and remembers
      only what it did or what a variable held. */
  ghost predicate Quieter(s: State, th: Thread, th': Thread) {
    && (forall a :: a in HeldBy(th') ==> a in HeldBy(th) || InVariable(s, a))
    && Boxes(th') <= Boxes(th)
    && (forall r :: r in th'.loads ==> r in th.loads || r.arc in HistAt(s, r.x))
    && (th'.allocs == th.allocs || th'.allocs == [])
  }

  ghost predicate SameVars(s: State, s': State) {
    && (forall x: Addr :: Cur(s', x) == Cur(s, x))
    && (forall x: Addr :: HistAt(s', x) == HistAt(s, x))
    && s'.nextId == s.nextId
  }

  ghost predicate SameStore(s: State, s': State) {
    && SameVars(s, s')
    && (forall x: Addr :: AbsAt(s', x) == AbsAt(s, x))
    && s'.events == s.events && s'.atomics == s.atomics
  }

  /** No variable changes, and thread `t` gets hold of nothing new. */
  ghost predicate Silent(s: State, t: Tid, s': State) {
    OnlyMoves(s, t, s') && SameVars(s, s') && Quieter(s, s.threads[t], s'.threads[t])
  }

  lemma SilentKeepsInThread(s: State, t: Tid, s': State, a: Arc)
    requires Silent(s, t, s') && InThread(s', a)
    ensures InUse(s, a)
  {
    hide HeldBy, Boxes, SameVars;
    var u :| u in s'.threads && a in HeldBy(s'.threads[u]);
    assert u != t ==> a in HeldBy(s.threads[u]);
  }

  lemma SameVarsKeepsInVariable(s: State, s': State, a: Arc)
    requires SameVars(s, s') && InVariable(s', a)
    ensures InVariable(s, a)
  {
    var x: Addr :| Cur(s', x) == a;
    assert Cur(s, x) == a;
  }

  lemma SilentKeepsArcs(s: State, t: Tid, s': State)
    requires Silent(s, t, s') && ArcsUnique(s)
    ensures ArcsUnique(s')
  {
    hide InThread, InVariable, OnlyMoves, Quieter;
    forall a | InUse(s', a) ensures InUse(s, a) {
      if InThread(s', a) {
        SilentKeepsInThread(s, t, s', a);
      } else {
        SameVarsKeepsInVariable(s, s', a);
      }
    }
  }

  /** The thread guards no more than before. */
  ghost predicate GuardsShrink(th: Thread, th': Thread) {
    WriteGuards(th'.phase) <= WriteGuards(th.phase) && ReadGuards(th'.phase) <= ReadGuards(th.phase)
  }

  lemma ShrinkingKeepsGuards(s: State, t: Tid, s': State)
    requires OnlyMoves(s, t, s') && GuardsShrink(s.threads[t], s'.threads[t]) && GuardsExclude(s)
    ensures GuardsExclude(s')
  {
    hide WriteGuards, ReadGuards;
  }

  lemma SameDebtsKeepAbs(s: State, t: Tid, s': State)
    requires OnlyMoves(s, t, s') && SameStore(s, s') && AbsMatches(s)
    requires Owed(s'.threads[t]) == Owed(s.threads[t])
    ensures AbsMatches(s')
  {
    hide Owed;
    assert forall u :: u in s.threads ==> Owed(s'.threads[u]) == Owed(s.threads[u]);
  }

  lemma SilentKeepsHistory(s: State, t: Tid, s': State)
    requires Silent(s, t, s') && HistoryOk(s)
    ensures HistoryOk(s')
  {
    hide OnlyMoves, Quieter;
    assert forall n :: Installed(s', n) <==> Installed(s, n);
  }

  lemma SameVarsSameInstalled(s: State, s': State, n: int)
    requires SameVars(s, s')
    ensures Installed(s', n) <==> Installed(s, n)
  {
  }

  lemma SilentKeepsBoxes(s: State, t: Tid, s': State)
    requires Silent(s, t, s') && BoxesOk(s)
    ensures BoxesOk(s')
  {
    hide HeldBy, Boxes, Owed, Installed, SerialsDistinct;
    forall u, n | u in s'.threads && n in Boxes(s'.threads[u]) ensures n < s'.nextId && !Installed(s', n) {
      SameVarsSameInstalled(s, s', n);
      assert n in Boxes(s.threads[u]);
    }
    assert BoxesApart(s');
    forall u | u in s'.threads ensures SerialsDistinct(s'.threads[u].allocs) {
      NoneDistinct();
      assert SerialsDistinct(s.threads[u].allocs);
    }
  }

  lemma NoneDistinct()
    ensures SerialsDistinct([])
  {
  }

  lemma SilentKeepsLoads(s: State, t: Tid, s': State)
    requires Silent(s, t, s') && LoadsOk(s)
    ensures LoadsOk(s')
  {
    hide HeldBy, Boxes, Owed;
  }

  lemma SilentKeepsThreads(ecd: bool, s: State, t: Tid, s': State)
    requires Silent(s, t, s') && ThreadsOk(ecd, s)
    requires Coherent(ecd, s'.threads[t]) && ValidatedHolds(s', s'.threads[t])
    ensures ThreadsOk(ecd, s')
  {
    hide HeldBy, Boxes, Owed, Coherent, Reads;
    forall u | u in s'.threads ensures Coherent(ecd, s'.threads[u]) && ValidatedHolds(s', s'.threads[u]) {
      if u != t {
        assert s'.threads[u] == s.threads[u];
      }
    }
  }

  /** A silent step keeps the invariant if the thread that moves stays coherent. */
  lemma SilentKeepsInv(ecd: bool, s: State, t: Tid, s': State)
    requires Silent(s, t, s') && Inv(ecd, s)
    requires GuardsExclude(s') && AbsMatches(s')
    requires Coherent(ecd, s'.threads[t]) && ValidatedHolds(s', s'.threads[t])
    ensures Inv(ecd, s')
  {
    SilentKeepsArcs(s, t, s');
    SilentKeepsHistory(s, t, s');
    SilentKeepsBoxes(s, t, s');
    SilentKeepsLoads(s, t, s');
    SilentKeepsThreads(ecd, s, t, s');
  }

  // ---------------------------------------------------------------- silent moves

  /** A phase in which the thread guards, keeps and owes nothing. */
  predicate Plain(ph: Phase) {
    ph.Idle? || ph.Waking? || ph.Polling? || ph.Parked? || ph.Dying? || ph.Sweeping?
  }

  lemma PlainFacts(th: Thread, ph: Phase)
    requires Plain(ph)
    ensures var th' := th.(phase := ph);
            && HeldBy(th') == {} && Boxes(th') == {} && Owed(th') == map[]
            && WriteGuards(ph) == {} && ReadGuards(ph) == {}
  {
  }

  lemma BeginFacts(ecd: bool, body: Body)
    ensures var th := Begin(ecd, body);
            && HeldBy(th) == {} && Boxes(th) == {} && Owed(th) == map[] && Coherent(ecd, th)
            && WriteGuards(th.phase) == {} && ReadGuards(th.phase) == {}
  {
    DryRun(ecd, body, Ctx(map[], Replay([], []), []));
  }

  /** Starting the closure afresh is silent. */
  lemma ToBegin(ecd: bool, s: State, t: Tid, body: Body, s': State)
    requires Inv(ecd, s) && t in s.threads
    requires s' == SetThread(s, t, Begin(ecd, body))
    requires Owed(s.threads[t]) == map[]
    ensures Inv(ecd, s')
  {
    BeginFacts(ecd, body);
    hide HeldBy, Boxes, Owed, WriteGuards, ReadGuards, Coherent, RunFrom;
    assert SameStore(s, s');
    assert Quieter(s, s.threads[t], s'.threads[t]);
    ShrinkingKeepsGuards(s, t, s');
    SameDebtsKeepAbs(s, t, s');
    SilentKeepsInv(ecd, s, t, s');
  }

  /** Moving on within `commit` or `wait_for_change` without moving a value is silent. */
  lemma ToPhase(ecd: bool, s: State, t: Tid, ph: Phase, s': State)
    requires Inv(ecd, s) && t in s.threads && !s.threads[t].phase.Idle?
    requires s'.threads == s.threads[t := s.threads[t].(phase := ph)] && SameStore(s, s')
    requires var th, th' := s.threads[t], s.threads[t].(phase := ph);
             && PhaseFits(th') && ValidatedHolds(s', th')
             && HeldBy(th') <= HeldBy(th) && Boxes(th') <= Boxes(th) && Owed(th') == Owed(th)
    requires GuardsExclude(s')
    ensures Inv(ecd, s')
  {
    hide HeldBy, Boxes, Owed, WriteGuards, ReadGuards, PhaseFits, ValidatedHolds, RunFrom;
    assert Coherent(ecd, s.threads[t]);
    assert Coherent(ecd, s'.threads[t]);
    SameDebtsKeepAbs(s, t, s');
    SilentKeepsInv(ecd, s, t, s');
  }

  /** Going on to a plain phase is silent. */
  lemma ToPlain(ecd: bool, s: State, t: Tid, ph: Phase, s': State)
    requires Inv(ecd, s) && t in s.threads && !s.threads[t].phase.Idle?
    requires s'.threads == s.threads[t := s.threads[t].(phase := ph)] && SameStore(s, s')
    requires Plain(ph) && Owed(s.threads[t]) == map[]
    requires ph.Polling? || ph.Parked? ==> s.threads[t].run.Done? && !s.threads[t].run.out.Ok?
    ensures Inv(ecd, s')
  {
    var th' := s.threads[t].(phase := ph);
    PlainFacts(s.threads[t], ph);
    assert PhaseFits(th') && ValidatedHolds(s', th');
    hide HeldBy, Boxes, Owed, WriteGuards, ReadGuards, PhaseFits, ValidatedHolds, Inv, SameStore, Plain;
    assert GuardsExclude(s) by { InvGuards(ecd, s); }
    ShrinkingKeepsGuards(s, t, s');
    ToPhase(ecd, s, t, ph, s');
  }

  lemma InvGuards(ecd: bool, s: State)
    requires Inv(ecd, s)
    ensures GuardsExclude(s)
  {
  }

  lemma InvAbs(ecd: bool, s: State)
    requires Inv(ecd, s)
    ensures AbsMatches(s)
  {
  }

  lemma InvThread(ecd: bool, s: State, t: Tid)
    requires Inv(ecd, s) && t in s.threads
    ensures Coherent(ecd, s.threads[t]) && ValidatedHolds(s, s.threads[t])
  {
  }
}
