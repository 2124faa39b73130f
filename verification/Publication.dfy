/** The lock point and the two kinds of writes keep the invariant; so it holds of every
    reachable state. */
module Publication {
  import opened Values
  import opened Logs
  import opened Programs
  import opened RunFacts
  import opened Machine
  import opened Invariants
  import opened Safety
  import opened Commits

  // ---------------------------------------------------------------- the lock point

  lemma IdsDistinct(ids: seq<Id>)
    requires SerialsDistinct(ids)
    ensures Distinct(ids)
  {
  }

  lemma NothingUsed(loads: seq<Access>, allocs: seq<Id>)
    ensures Sound(Ctx(map[], Replay(loads, allocs), []), loads, allocs) && Used(NO_ANSWERS, allocs) == allocs
  {
  }

  lemma RunIsExec(ecd: bool, th: Thread)
    requires Coherent(ecd, th) && !th.phase.Idle? && th.run.Done?
    ensures Exec(ecd, th.body, Ctx(map[], Replay(th.loads, th.allocs), [])) == th.run
    ensures LogOf(th) == th.run.ctx.log && th.run.ctx.env == NO_ANSWERS
  {
    hide Exec, PhaseFits;
  }

  lemma SoundMeans(c: Ctx, loads: seq<Access>, allocs: seq<Id>)
    requires Sound(c, loads, allocs)
    ensures Recorded(c.log, loads) && RunFacts.Boxed(c.log, Used(c.env, allocs))
  {
    hide Recorded, RunFacts.Boxed, Leftover;
  }

  /** The log of a finished run holds only what that run loaded and allocated. */
  lemma FinishedLog(ecd: bool, th: Thread)
    requires Coherent(ecd, th) && !th.phase.Idle? && th.run.Done? && SerialsDistinct(th.allocs)
    ensures Recorded(LogOf(th), th.loads) && RunFacts.Boxed(LogOf(th), th.allocs)
    ensures FailedEarly(th.run) ==> SeenToChange(LogOf(th), th.run.out.at.value, th.loads, NO_ANSWERS)
  {
    IdsDistinct(th.allocs);
    NothingUsed(th.loads, th.allocs);
    RunIsExec(ecd, th);
    hide Exec, Sound, Later, Recorded, RunFacts.Boxed, SeenToChange, Distinct, SerialsDistinct, Coherent, LogOf, Used;
    SoundRun(ecd, th.body, Ctx(map[], Replay(th.loads, th.allocs), []), th.loads, th.allocs);
    SoundMeans(th.run.ctx, th.loads, th.allocs);
  }

  /** Pending writes of one log have different serial numbers. */
  lemma PendingApart(log: Log, allocs: seq<Id>, x: Addr, y: Addr)
    requires RunFacts.Boxed(log, allocs) && SerialsDistinct(allocs)
    requires x in Writes(log) && y in Writes(log) && x != y
    ensures Writes(log)[x].id.serial != Writes(log)[y].id.serial
  {
    var i :| 0 <= i < |allocs| && allocs[i] == Writes(log)[x].id;
    var j :| 0 <= j < |allocs| && allocs[j] == Writes(log)[y].id;
  }

  lemma PendingBoxed(log: Log, allocs: seq<Id>, x: Addr)
    requires RunFacts.Boxed(log, allocs) && x in Writes(log)
    ensures Writes(log)[x].id in allocs
  {
  }

  /** The thread passes its lock point: `abs` takes all of its writes at once. */
  ghost predicate Deciding(s: State, t: Tid, s': State) {
    && OnlyMoves(s, t, s') && SameVars(s, s')
    && var th, th' := s.threads[t], s'.threads[t];
       && th.phase.Locking? && th.phase.todo == {} && th.run.Done? && th.run.out.Ok?
       && th' == th.(phase := Publishing(th.phase.rd, th.phase.wr))
       && (forall x: Addr :: AbsAt(s', x) == if x in Writes(LogOf(th)) then Writes(LogOf(th))[x] else AbsAt(s, x))
  }

  lemma DecideShape(ecd: bool, s: State, t: Tid, s': State)
    requires t in s.threads && CommitStep(ecd, s, t, Decide, s')
    ensures Deciding(s, t, s')
    ensures s'.events == s.events + [Decision(s, t)] && s'.atomics == s.atomics
  {
    hide LogOf;
  }

  lemma DecidedOwes(th: Thread)
    requires th.phase.Locking? && th.phase.todo == {} && PhaseFits(th)
    ensures var th' := th.(phase := Publishing(th.phase.rd, th.phase.wr));
            && Owed(th') == Writes(LogOf(th)) && PhaseFits(th') && HeldBy(th') == HeldBy(th)
            && th.phase.wr == Writes(LogOf(th)).Keys
  {
  }

  lemma DecidedBoxes(ecd: bool, th: Thread)
    requires th.phase.Locking? && th.phase.todo == {} && Coherent(ecd, th) && SerialsDistinct(th.allocs)
    ensures Boxes(th.(phase := Publishing(th.phase.rd, th.phase.wr))) <= Boxes(th)
  {
    FinishedLog(ecd, th);
    DecidedOwes(th);
    var th' := th.(phase := Publishing(th.phase.rd, th.phase.wr));
    forall n | n in Boxes(th') ensures n in Boxes(th) {
      var x :| x in Owed(th') && n == Owed(th')[x].id.serial;
      PendingBoxed(LogOf(th), th.allocs, x);
    }
  }

  /** What a thread owes it also guards. */
  lemma OwedIsGuarded(th: Thread)
    ensures Owed(th).Keys <= WriteGuards(th.phase)
  {
  }

  lemma DecideKeepsAbs(s: State, t: Tid, s': State)
    requires Deciding(s, t, s') && AbsMatches(s) && GuardsExclude(s)
    requires Owed(s'.threads[t]) == Writes(LogOf(s.threads[t]))
    requires WriteGuards(s.threads[t].phase) == Writes(LogOf(s.threads[t])).Keys
    ensures AbsMatches(s')
  {
    assert Owed(s.threads[t]) == map[];
    hide Owed, WriteGuards, ReadGuards, Cur, AbsAt, HistAt, LogOf, Writes;
    forall u, x | u in s'.threads && x in Owed(s'.threads[u]) ensures AbsAt(s', x) == Owed(s'.threads[u])[x] {
      if u != t {
        assert s'.threads[u] == s.threads[u];
        OwedIsGuarded(s.threads[u]);
      }
    }
    forall x: Addr ensures AbsAt(s', x) == Cur(s', x) || exists u :: u in s'.threads && x in Owed(s'.threads[u]) {
      if x in Writes(LogOf(s.threads[t])) {
        assert x in Owed(s'.threads[t]);
      } else if u :| u in s.threads && x in Owed(s.threads[u]) {
        assert s'.threads[u] == s.threads[u];
      }
    }
  }

  lemma DecideKeepsInv(ecd: bool, s: State, t: Tid, s': State)
    requires Inv(ecd, s) && t in s.threads && CommitStep(ecd, s, t, Decide, s')
    ensures Inv(ecd, s')
  {
    DecideShape(ecd, s, t, s');
    var th := s.threads[t];
    InvThread(ecd, s, t);
    DecidedOwes(th);
    DecidedBoxes(ecd, th);
    assert GuardsShrink(th, s'.threads[t]) && ValidatedHolds(s', s'.threads[t]) && Coherent(ecd, s'.threads[t]);
    assert WriteGuards(th.phase) == th.phase.wr;
    hide Owed, WriteGuards, ReadGuards, Cur, AbsAt, HistAt, LogOf, Writes, HeldBy, Boxes, Coherent, ArcsUnique,
         ThreadsOk, HistoryOk, BoxesOk, LoadsOk, CommitStep, ValidatedHolds, GuardsShrink;
    ShrinkingKeepsGuards(s, t, s');
    DecideKeepsAbs(s, t, s');
    SilentKeepsInv(ecd, s, t, s');
  }

  // ---------------------------------------------------------------- a new value in a variable

  /** Variable `x` gets the value `a`, which no variable has held before. */
  ghost predicate Appends(s: State, s': State, x: Addr, a: Arc) {
    && (forall y: Addr :: Cur(s', y) == if y == x then a else Cur(s, y))
    && (forall y: Addr :: HistAt(s', y) == if y == x then HistAt(s, x) + [a] else HistAt(s, y))
    && s.nextId <= s'.nextId && a.id.serial < s'.nextId
    && !Installed(s, a.id.serial)
  }

  lemma AppendsInstalled(s: State, s': State, x: Addr, a: Arc, n: int)
    requires Appends(s, s', x, a)
    ensures Installed(s', n) <==> Installed(s, n) || n == a.id.serial
  {
    hide Cur, HistAt;
    if Installed(s, n) {
      var y: Addr, i :| 0 <= i < |HistAt(s, y)| && HistAt(s, y)[i].id.serial == n;
      assert HistAt(s', y)[i].id.serial == n;
    }
    if Installed(s', n) {
      var y: Addr, i :| 0 <= i < |HistAt(s', y)| && HistAt(s', y)[i].id.serial == n;
      if i < |HistAt(s, y)| {
        assert HistAt(s, y)[i].id.serial == n;
      }
    }
    assert HistAt(s', x)[|HistAt(s, x)|].id.serial == a.id.serial;
  }

  lemma AppendedAt(s: State, s': State, x: Addr, a: Arc, y: Addr, i: nat)
    requires Appends(s, s', x, a) && i < |HistAt(s', y)|
    ensures if i < |HistAt(s, y)| then HistAt(s', y)[i] == HistAt(s, y)[i] && HistAt(s', y)[i].id.serial != a.id.serial
            else y == x && i == |HistAt(s, x)| && HistAt(s', y)[i] == a
  {
    hide Cur, HistAt;
  }

  lemma AppendsInstalledOnce(s: State, s': State, x: Addr, a: Arc)
    requires Appends(s, s', x, a) && InstalledOnce(s)
    ensures InstalledOnce(s')
  {
    hide Cur, HistAt, Installed, Appends;
    forall y: Addr, i, z: Addr, j | 0 <= i < |HistAt(s', y)| && 0 <= j < |HistAt(s', z)|
                                      && HistAt(s', y)[i].id.serial == HistAt(s', z)[j].id.serial
      ensures y == z && i == j
    {
      AppendedAt(s, s', x, a, y, i);
      AppendedAt(s, s', x, a, z, j);
    }
  }

  lemma AppendsKeepsHistory(s: State, s': State, x: Addr, a: Arc)
    requires Appends(s, s', x, a) && HistoryOk(s)
    ensures HistoryOk(s')
  {
    AppendsInstalledOnce(s, s', x, a);
    hide Cur, HistAt, Installed, InstalledOnce;
    forall n | Installed(s', n) ensures n < s'.nextId {
      AppendsInstalled(s, s', x, a, n);
    }
  }

  lemma AppendsKeepsLoads(s: State, s': State, x: Addr, a: Arc)
    requires Appends(s, s', x, a) && LoadsOk(s)
    requires s'.threads.Keys == s.threads.Keys
    requires forall t :: t in s.threads ==> s'.threads[t].loads == s.threads[t].loads
    ensures LoadsOk(s')
  {
    hide Cur, HistAt, Installed;
  }

  /** A thread that is still locking guards all it has validated. */
  lemma ValidatedIsGuarded(th: Thread, x: Addr)
    requires th.phase.Locking? && PhaseFits(th)
    requires x in Reads(LogOf(th)) && x !in th.phase.todo
    ensures x in WriteGuards(th.phase) || x in ReadGuards(th.phase)
  {
  }

  lemma AppendsKeepsValidated(s: State, s': State, x: Addr, a: Arc, th: Thread)
    requires Appends(s, s', x, a) && ValidatedHolds(s, th) && PhaseFits(th)
    requires x !in WriteGuards(th.phase) && x !in ReadGuards(th.phase)
    ensures ValidatedHolds(s', th)
  {
    if th.phase.Locking? {
      forall y | y in Reads(LogOf(th)) && y !in th.phase.todo ensures Cur(s', y) == Reads(LogOf(th))[y] {
        ValidatedIsGuarded(th, y);
      }
    }
  }

  // ---------------------------------------------------------------- writing back

  ghost predicate Writing(s: State, t: Tid, x: Addr, a: Arc, s': State) {
    && OnlyMoves(s, t, s')
    && (forall y: Addr :: Cur(s', y) == if y == x then a else Cur(s, y))
    && (forall y: Addr :: HistAt(s', y) == if y == x then HistAt(s, x) + [a] else HistAt(s, y))
    && (forall y: Addr :: AbsAt(s', y) == AbsAt(s, y))
    && s'.nextId == s.nextId && s'.events == s.events && s'.atomics == s.atomics
    && var th, th' := s.threads[t], s'.threads[t];
       && th.phase.Publishing? && x in Owed(th) && a == Owed(th)[x]
       && th' == th.(phase := Publishing({}, th.phase.wr - {x}))
  }

  lemma WriteBackShape(ecd: bool, s: State, t: Tid, x: Addr, s': State)
    requires t in s.threads && CommitStep(ecd, s, t, WriteBack(x), s')
    ensures s.threads[t].phase.Publishing? && x in Owed(s.threads[t])
    ensures Writing(s, t, x, Owed(s.threads[t])[x], s')
    ensures s.threads[t].phase.rd == {}
  {
    hide LogOf, Writes;
  }

  lemma WrittenOwes(th: Thread, x: Addr)
    requires th.phase.Publishing? && x in Owed(th)
    ensures var th' := th.(phase := Publishing({}, th.phase.wr - {x}));
            && Owed(th') == Owed(th) - {x} && HeldBy(th') == HeldBy(th) && Owed(th)[x] in HeldBy(th)
            && GuardsShrink(th, th') && (PhaseFits(th) ==> PhaseFits(th'))
  {
    assert Owed(th)[x] in LogOf(th)[x].Parts();
  }

  lemma WrittenBoxes(ecd: bool, th: Thread, x: Addr)
    requires th.phase.Publishing? && x in Owed(th) && Coherent(ecd, th) && SerialsDistinct(th.allocs)
    ensures var th' := th.(phase := Publishing({}, th.phase.wr - {x}));
            && Boxes(th') <= Boxes(th) && Owed(th)[x].id.serial in Boxes(th) && Owed(th)[x].id.serial !in Boxes(th')
  {
    FinishedLog(ecd, th);
    WrittenOwes(th, x);
    var th' := th.(phase := Publishing({}, th.phase.wr - {x}));
    forall y | y in Owed(th') ensures Owed(th')[y].id.serial != Owed(th)[x].id.serial {
      PendingApart(LogOf(th), th.allocs, x, y);
    }
  }

  lemma WriteBackKeepsArcs(s: State, t: Tid, x: Addr, a: Arc, s': State)
    requires Writing(s, t, x, a, s') && ArcsUnique(s)
    requires HeldBy(s'.threads[t]) == HeldBy(s.threads[t]) && a in HeldBy(s.threads[t])
    ensures ArcsUnique(s')
  {
    hide HeldBy, Owed, Cur, HistAt, AbsAt;
    assert InThread(s, a);
    forall b | InUse(s', b) ensures InUse(s, b) {
      if InThread(s', b) {
        var u :| u in s'.threads && b in HeldBy(s'.threads[u]);
        assert b in HeldBy(s.threads[u]);
      } else {
        var y: Addr :| Cur(s', y) == b;
        if y != x { assert Cur(s, y) == b; }
      }
    }
    hide InUse;
  }

  lemma WriteBackKeepsAbs(s: State, t: Tid, x: Addr, a: Arc, s': State)
    requires Writing(s, t, x, a, s') && AbsMatches(s)
    requires Owed(s'.threads[t]) == Owed(s.threads[t]) - {x}
    ensures AbsMatches(s')
  {
    hide Owed, Cur, AbsAt, HistAt;
    forall u, y | u in s'.threads && y in Owed(s'.threads[u]) ensures AbsAt(s', y) == Owed(s'.threads[u])[y] {
      assert y in Owed(s.threads[u]);
    }
    forall y: Addr ensures AbsAt(s', y) == Cur(s', y) || exists u :: u in s'.threads && y in Owed(s'.threads[u]) {
      if y != x && AbsAt(s, y) != Cur(s, y) {
        var u :| u in s.threads && y in Owed(s.threads[u]);
        assert y in Owed(s'.threads[u]);
      }
    }
  }

  lemma WriteBackKeepsNew(s: State, t: Tid, x: Addr, a: Arc, s': State)
    requires Writing(s, t, x, a, s') && Appends(s, s', x, a) && BoxesNew(s) && BoxesApart(s)
    requires Boxes(s'.threads[t]) <= Boxes(s.threads[t])
    requires a.id.serial in Boxes(s.threads[t]) && a.id.serial !in Boxes(s'.threads[t])
    ensures BoxesNew(s')
  {
    hide Boxes, Owed, Installed, Cur, HistAt, AbsAt;
    forall u, n | u in s'.threads && n in Boxes(s'.threads[u]) ensures n < s'.nextId && !Installed(s', n) {
      AppendsInstalled(s, s', x, a, n);
      assert n in Boxes(s.threads[u]);
    }
  }

  lemma ShrinkingKeepsApart(s: State, t: Tid, s': State)
    requires OnlyMoves(s, t, s') && BoxesApart(s) && AllocsDistinct(s)
    requires Boxes(s'.threads[t]) <= Boxes(s.threads[t]) && s'.threads[t].allocs == s.threads[t].allocs
    ensures BoxesApart(s') && AllocsDistinct(s')
  {
    hide Boxes, SerialsDistinct;
    assert forall u :: u in s'.threads ==> s'.threads[u].allocs == s.threads[u].allocs;
    assert forall u :: u in s'.threads ==> Boxes(s'.threads[u]) <= Boxes(s.threads[u]);
  }

  lemma WriteBackKeepsThreads(ecd: bool, s: State, t: Tid, x: Addr, a: Arc, s': State)
    requires Writing(s, t, x, a, s') && Appends(s, s', x, a) && ThreadsOk(ecd, s) && GuardsExclude(s)
    requires Coherent(ecd, s'.threads[t])
    ensures ThreadsOk(ecd, s')
  {
    OwedIsGuarded(s.threads[t]);
    assert ValidatedHolds(s', s'.threads[t]);
    hide Owed, Cur, HistAt, AbsAt, WriteGuards, ReadGuards, ValidatedHolds, Installed, Coherent, Appends;
    forall u | u in s'.threads ensures Coherent(ecd, s'.threads[u]) && ValidatedHolds(s', s'.threads[u]) {
      if u != t {
        assert s'.threads[u] == s.threads[u];
        AppendsKeepsValidated(s, s', x, a, s.threads[u]);
      }
    }
  }

  lemma WritingAppends(s: State, t: Tid, x: Addr, a: Arc, s': State)
    requires Writing(s, t, x, a, s') && BoxesNew(s) && a.id.serial in Boxes(s.threads[t])
    ensures Appends(s, s', x, a) && s'.threads.Keys == s.threads.Keys
    ensures forall u :: u in s.threads ==> s'.threads[u].loads == s.threads[u].loads
  {
    hide Owed, Boxes, Installed, Cur, HistAt, AbsAt;
  }

  lemma WriteBackKeepsInv(ecd: bool, s: State, t: Tid, x: Addr, s': State)
    requires Inv(ecd, s) && t in s.threads && CommitStep(ecd, s, t, WriteBack(x), s')
    ensures Inv(ecd, s')
  {
    WriteBackShape(ecd, s, t, x, s');
    InvThread(ecd, s, t);
    var th := s.threads[t];
    var a := Owed(th)[x];
    WrittenOwes(th, x);
    WrittenBoxes(ecd, th, x);
    assert Coherent(ecd, s'.threads[t]);
    hide CommitStep, Owed, HeldBy, Boxes, Coherent, ArcsUnique, ThreadsOk, LoadsOk, GuardsShrink, HistoryOk,
         GuardsExclude, BoxesNew, BoxesApart, AllocsDistinct, AbsMatches, Appends, ValidatedHolds, AbsAt, Cur, HistAt;
    WritingAppends(s, t, x, a, s');
    ShrinkingKeepsGuards(s, t, s');
    ShrinkingKeepsApart(s, t, s');
    WriteBackKeepsArcs(s, t, x, a, s');
    WriteBackKeepsAbs(s, t, x, a, s');
    WriteBackKeepsNew(s, t, x, a, s');
    WriteBackKeepsThreads(ecd, s, t, x, a, s');
    hide Writing;
    AppendsKeepsHistory(s, s', x, a);
    AppendsKeepsLoads(s, s', x, a);
  }

  // ---------------------------------------------------------------- write_atomic

  ghost predicate Overwriting(s: State, x: Addr, a: Arc, s': State) {
    && s'.threads == s.threads
    && (forall y: Addr :: Cur(s', y) == if y == x then a else Cur(s, y))
    && (forall y: Addr :: HistAt(s', y) == if y == x then HistAt(s, x) + [a] else HistAt(s, y))
    && (forall y: Addr :: AbsAt(s', y) == if y == x then a else AbsAt(s, y))
    && a.id.serial == s.nextId && s'.nextId == s.nextId + 1
    && FreeToWrite(s, x) && Unallocated(s, a.id.ptr)
  }

  lemma AtomicShape(s: State, x: Addr, ptr: nat, v: Val, s': State)
    requires AtomicStep(s, x, ptr, v, s')
    ensures Overwriting(s, x, Arc(Id(ptr, s.nextId), v), s')
    ensures s'.events == s.events + [Stored(x, v)] && s'.atomics == s.atomics + {s.nextId}
  {
    hide FreeToWrite, Unallocated;
  }

  lemma AtomicKeepsArcs(s: State, x: Addr, a: Arc, s': State)
    requires Overwriting(s, x, a, s') && ArcsUnique(s)
    ensures ArcsUnique(s')
  {
    hide Cur, HistAt, AbsAt, FreeToWrite, Unallocated;
    forall b | InUse(s', b) ensures InUse(s, b) || b == a {
      if InVariable(s', b) {
        var y: Addr :| Cur(s', y) == b;
        if y != x { assert Cur(s, y) == b; }
      }
    }
    hide InUse, ArcsUnique;
    NewArcKeepsUnique(s, s', a);
  }

  lemma AtomicKeepsAbs(s: State, x: Addr, a: Arc, s': State)
    requires Overwriting(s, x, a, s') && AbsMatches(s)
    ensures AbsMatches(s')
  {
    hide Cur, HistAt, AbsAt, Unallocated, Owed, WriteGuards, ReadGuards;
    forall u, y | u in s'.threads && y in Owed(s'.threads[u]) ensures AbsAt(s', y) == Owed(s'.threads[u])[y] {
      OwedIsGuarded(s.threads[u]);
    }
  }

  lemma AtomicKeepsThreads(ecd: bool, s: State, x: Addr, a: Arc, s': State)
    requires Overwriting(s, x, a, s') && Appends(s, s', x, a) && ThreadsOk(ecd, s)
    ensures ThreadsOk(ecd, s')
  {
    forall u | u in s'.threads ensures ValidatedHolds(s', s'.threads[u]) {
      hide Cur, HistAt, AbsAt, WriteGuards, ReadGuards, ValidatedHolds, Installed, PhaseFits, RunFrom;
      AppendsKeepsValidated(s, s', x, a, s.threads[u]);
    }
  }

  lemma AtomicKeepsNew(s: State, x: Addr, a: Arc, s': State)
    requires Overwriting(s, x, a, s') && Appends(s, s', x, a) && BoxesNew(s)
    ensures BoxesNew(s')
  {
    hide Boxes, Installed, Cur, HistAt, AbsAt, FreeToWrite, Unallocated;
    forall u, n | u in s'.threads && n in Boxes(s'.threads[u]) ensures n < s'.nextId && !Installed(s', n) {
      AppendsInstalled(s, s', x, a, n);
    }
  }

  lemma OverwritingAppends(s: State, x: Addr, a: Arc, s': State)
    requires Overwriting(s, x, a, s') && HistoryOk(s)
    ensures Appends(s, s', x, a)
  {
    hide Installed, Cur, HistAt, AbsAt, FreeToWrite, Unallocated;
  }

  lemma SameThreadsKeepApart(s: State, s': State)
    requires s'.threads == s.threads && GuardsExclude(s) && BoxesApart(s) && AllocsDistinct(s)
    ensures GuardsExclude(s') && BoxesApart(s') && AllocsDistinct(s')
  {
    hide Boxes, WriteGuards, ReadGuards, SerialsDistinct;
  }

  lemma AtomicKeepsInv(ecd: bool, s: State, x: Addr, ptr: nat, v: Val, s': State)
    requires Inv(ecd, s) && AtomicStep(s, x, ptr, v, s')
    ensures Inv(ecd, s')
  {
    hide AtomicStep, Appends, HistoryOk, AbsMatches, ThreadsOk, ArcsUnique, LoadsOk, BoxesNew, GuardsExclude,
        BoxesApart,
         AllocsDistinct, Unallocated, FreeToWrite;
    AtomicShape(s, x, ptr, v, s');
    var a := Arc(Id(ptr, s.nextId), v);
    SameThreadsKeepApart(s, s');
    assert forall t :: t in s.threads ==> s'.threads[t].loads == s.threads[t].loads;
    hide Overwriting;
    OverwritingAppends(s, x, a, s');
    AtomicKeepsArcs(s, x, a, s');
    AtomicKeepsAbs(s, x, a, s');
    AtomicKeepsThreads(ecd, s, x, a, s');
    AtomicKeepsNew(s, x, a, s');
    AppendsKeepsHistory(s, s', x, a);
    AppendsKeepsLoads(s, s', x, a);
  }

  // ---------------------------------------------------------------- every reachable state

  lemma CommitStepKeepsInv(ecd: bool, s: State, t: Tid, a: Action, s': State)
    requires Inv(ecd, s) && t in s.threads && CommitStep(ecd, s, t, a, s')
    ensures Inv(ecd, s')
  {
    if a.Decide? {
      DecideKeepsInv(ecd, s, t, s');
    } else if a.WriteBack? {
      WriteBackKeepsInv(ecd, s, t, a.x, s');
    } else if a.Lock? {
      LockKeepsInv(ecd, s, t, a.x, s');
    } else {
      CommitMovesOn(ecd, s, t, a, s');
    }
  }

  lemma NextKeepsInv(ecd: bool, s: State, m: Move, s': State)
    requires Inv(ecd, s) && Next(ecd, s, m, s')
    ensures Inv(ecd, s')
  {
    hide Inv, RunStep, CommitStep, WakeStep, WaitStep, AtomicStep;
    match m
    case Atomic(x, ptr, v) => AtomicKeepsInv(ecd, s, x, ptr, v, s');
    case By(t, a) =>
      if RunStep(ecd, s, t, a, s') {
        RunStepKeepsInv(ecd, s, t, a, s');
      } else if CommitStep(ecd, s, t, a, s') {
        CommitStepKeepsInv(ecd, s, t, a, s');
      } else if WakeStep(s, t, a, s') {
        WakeStepKeepsInv(ecd, s, t, a, s');
      } else {
        WaitStepKeepsInv(ecd, s, t, a, s');
      }
  }
}
