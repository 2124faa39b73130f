/** The steps that move values or take locks keep the invariant. */
module Commits {
  import opened Values
  import opened Logs
  import opened Programs
  import opened RunFacts
  import opened Machine
  import opened Invariants
  import opened Safety

  // ---------------------------------------------------------------- locking one record

  /** A granted lock conflicts with nobody. */
  lemma GrantKeepsGuards(s: State, t: Tid, x: Addr, s': State)
    requires GuardsExclude(s) && OnlyMoves(s, t, s')
    requires var w, w' := WriteGuards(s.threads[t].phase), WriteGuards(s'.threads[t].phase);
             var r, r' := ReadGuards(s.threads[t].phase), ReadGuards(s'.threads[t].phase);
             || (FreeToWrite(s, x) && w' == w + {x} && r' == r)
             || (FreeToRead(s, x) && w' == w && r' == r + {x})
             || (w' == w && r' == r)
    ensures GuardsExclude(s')
  {
    hide WriteGuards, ReadGuards;
    var w' := WriteGuards(s'.threads[t].phase);
    forall u, v, y | u in s'.threads && v in s'.threads && u != v && y in WriteGuards(s'.threads[u].phase)
      ensures y !in WriteGuards(s'.threads[v].phase) && y !in ReadGuards(s'.threads[v].phase)
    {
      if u == t {
        assert s'.threads[v] == s.threads[v];
      } else {
        assert s'.threads[u] == s.threads[u];
        if v != t {
          assert s'.threads[v] == s.threads[v];
        }
      }
    }
  }

  /** What locking the record of `x` comes to: a guard that was free is taken, or none is needed, and
      the thread goes on to the next record if the value is admitted and gives up otherwise. */
  ghost predicate Locked(s: State, t: Tid, x: Addr, s': State)
    requires t in s.threads && s.threads[t].phase.Locking?
  {
    && SameValues(s, s', 0) && PhaseOnly(s, t, s')
    && (s'.threads[t].phase.Locking? || s'.threads[t].phase.Unlocking?)
    && LockGrants(s, x, s.threads[t].phase, s'.threads[t].phase)
    && LockGoesOn(LogOf(s.threads[t]), x, Cur(s, x), s.threads[t].phase, s'.threads[t].phase)
  }

  ghost predicate LockGrants(s: State, x: Addr, ph: Phase, ph': Phase) {
    || (FreeToWrite(s, x) && WriteGuards(ph') == WriteGuards(ph) + {x} && ReadGuards(ph') == ReadGuards(ph))
    || (FreeToRead(s, x) && WriteGuards(ph') == WriteGuards(ph) && ReadGuards(ph') == ReadGuards(ph) + {x})
    || (WriteGuards(ph') == WriteGuards(ph) && ReadGuards(ph') == ReadGuards(ph))
  }

  predicate LockGoesOn(log: Log, x: Addr, value: Arc, ph: Phase, ph': Phase)
    requires ph.Locking?
  {
    && Least(x, ph.todo) && x in log
    && (ph'.Locking? ==>
          && ph'.todo == ph.todo - {x}
          && Admits(log[x], value)
          && ph'.rd == ph.rd + (if log[x].Read? then {x} else {})
          && ph'.wr == ph.wr + (if log[x].HasPend() then {x} else {}))
  }

  lemma LockObsoleteShape(s: State, t: Tid, x: Addr, s': State)
    requires t in s.threads && s.threads[t].phase.Locking? && LockStep(s, t, x, s')
    requires LogOf(s.threads[t])[x].ReadObsolete?
    ensures Locked(s, t, x, s')
  {
    hide FreeToRead, FreeToWrite, LogOf, Least;
  }

  lemma LockReadShape(s: State, t: Tid, x: Addr, s': State)
    requires t in s.threads && s.threads[t].phase.Locking? && LockStep(s, t, x, s')
    requires LogOf(s.threads[t])[x].Read?
    ensures Locked(s, t, x, s')
  {
    hide FreeToRead, FreeToWrite, LogOf, Least, Admits;
  }

  lemma LockWriteShape(s: State, t: Tid, x: Addr, s': State)
    requires t in s.threads && s.threads[t].phase.Locking? && LockStep(s, t, x, s')
    requires LogOf(s.threads[t])[x].HasPend()
    ensures Locked(s, t, x, s')
  {
    hide FreeToRead, FreeToWrite, LogOf, Least, Admits;
  }

  lemma LockShape(s: State, t: Tid, x: Addr, s': State)
    requires t in s.threads && s.threads[t].phase.Locking? && LockStep(s, t, x, s')
    ensures Locked(s, t, x, s')
  {
    assert x in LogOf(s.threads[t]);
    var e := LogOf(s.threads[t])[x];
    hide LockStep, Locked, LogOf;
    if e.ReadObsolete? {
      LockObsoleteShape(s, t, x, s');
    } else if e.Read? {
      LockReadShape(s, t, x, s');
    } else {
      LockWriteShape(s, t, x, s');
    }
  }

  lemma LockFits(th: Thread, x: Addr, ph: Phase)
    requires th.phase.Locking? && ph.Locking? && PhaseFits(th)
    requires Least(x, th.phase.todo) && x in LogOf(th)
    requires ph.todo == th.phase.todo - {x}
    requires ph.rd == th.phase.rd + (if LogOf(th)[x].Read? then {x} else {})
    requires ph.wr == th.phase.wr + (if LogOf(th)[x].HasPend() then {x} else {})
    ensures PhaseFits(th.(phase := ph))
  {
  }

  lemma LockingHolds(th: Thread, ph: Phase)
    requires th.phase.Locking? && (ph.Locking? || ph.Unlocking?)
    ensures var th' := th.(phase := ph);
            && HeldBy(th') <= HeldBy(th) && Boxes(th') <= Boxes(th) && Owed(th') == Owed(th)
  {
  }

  /** Where the pointers agree, so do the allocations. */
  lemma AdmittedHolds(s: State, t: Tid, x: Addr)
    requires ArcsUnique(s) && t in s.threads && s.threads[t].phase.Locking?
    requires x in Reads(LogOf(s.threads[t])) && PtrEq(Cur(s, x), Reads(LogOf(s.threads[t]))[x])
    ensures Cur(s, x) == Reads(LogOf(s.threads[t]))[x]
  {
    var a := Reads(LogOf(s.threads[t]))[x];
    assert a in LogOf(s.threads[t])[x].Parts();
    assert a in HeldBy(s.threads[t]);
    hide HeldBy;
    assert InVariable(s, Cur(s, x)) && InThread(s, a);
  }

  lemma LockValidates(s: State, t: Tid, x: Addr, s': State)
    requires t in s.threads && s.threads[t].phase.Locking? && LockStep(s, t, x, s')
    requires ArcsUnique(s) && ValidatedHolds(s, s.threads[t])
    ensures ValidatedHolds(s', s'.threads[t])
  {
    LockShape(s, t, x, s');
    SameValuesSameStore(s, s', 0);
    var log := LogOf(s.threads[t]);
    if s'.threads[t].phase.Locking? && x in Reads(log) {
      AdmittedHolds(s, t, x);
    }
  }

  lemma LockKeepsInv(ecd: bool, s: State, t: Tid, x: Addr, s': State)
    requires Inv(ecd, s) && t in s.threads && s.threads[t].phase.Locking? && LockStep(s, t, x, s')
    ensures Inv(ecd, s')
  {
    LockShape(s, t, x, s');
    SameValuesSameStore(s, s', 0);
    InvThread(ecd, s, t);
    LockValidates(s, t, x, s');
    var th, ph := s.threads[t], s'.threads[t].phase;
    LockingHolds(th, ph);
    if ph.Locking? {
      LockFits(th, x, ph);
    }
    hide Inv, LockStep, SameValues, HeldBy, Boxes, Owed, WriteGuards, ReadGuards, SameStore, ValidatedHolds;
    InvGuards(ecd, s);
    GrantKeepsGuards(s, t, x, s');
    assert PhaseFits(th.(phase := ph));
    hide PhaseFits;
    ToPhase(ecd, s, t, ph, s');
  }

  // ---------------------------------------------------------------- dropping guards

  lemma UnlockShape(ecd: bool, s: State, t: Tid, x: Addr, s': State)
    requires t in s.threads && CommitStep(ecd, s, t, Unlock(x), s')
    ensures PhaseOnly(s, t, s') && SameValues(s, s', 0)
    ensures var th, th' := s.threads[t], s'.threads[t];
            th.phase.Unlocking? && th'.phase.Unlocking? && GuardsShrink(th, th')
  {
  }

  lemma DropReadShape(ecd: bool, s: State, t: Tid, x: Addr, s': State)
    requires t in s.threads && CommitStep(ecd, s, t, DropRead(x), s')
    ensures PhaseOnly(s, t, s') && SameValues(s, s', 0)
    ensures var th, th' := s.threads[t], s'.threads[t];
            && th.phase.Publishing? && th'.phase.Publishing? && th'.phase.wr == th.phase.wr && GuardsShrink(th, th')
  {
    hide Least;
  }

  lemma StartWakeShape(ecd: bool, s: State, t: Tid, s': State)
    requires t in s.threads && CommitStep(ecd, s, t, StartWake, s')
    ensures PhaseOnly(s, t, s') && SameValues(s, s', 0)
    ensures Owed(s.threads[t]) == map[] && s'.threads[t].phase.Waking? && !s.threads[t].phase.Idle?
  {
    hide LogOf;
  }

  lemma RestartsAfresh(ecd: bool, s: State, t: Tid, s': State)
    requires t in s.threads && CommitStep(ecd, s, t, Restart, s')
    ensures s' == SetThread(s, t, Begin(ecd, s.threads[t].body)) && Owed(s.threads[t]) == map[]
  {
    hide Begin;
  }

  lemma DroppingFits(th: Thread, ph: Phase)
    requires PhaseFits(th)
    requires (th.phase.Unlocking? && ph.Unlocking?) || (th.phase.Publishing? && ph.Publishing? && ph.wr == th.phase.wr)
    ensures var th' := th.(phase := ph);
            && PhaseFits(th') && HeldBy(th') == HeldBy(th) && Boxes(th') == Boxes(th) && Owed(th') == Owed(th)
  {
    assert Owed(th.(phase := ph)) == Owed(th);
  }

  lemma DroppingKeepsInv(ecd: bool, s: State, t: Tid, s': State)
    requires Inv(ecd, s) && t in s.threads && PhaseOnly(s, t, s') && SameValues(s, s', 0)
    requires var th, th' := s.threads[t], s'.threads[t];
             && GuardsShrink(th, th')
             && ((th.phase.Unlocking? && th'.phase.Unlocking?)
                 || (th.phase.Publishing? && th'.phase.Publishing? && th'.phase.wr == th.phase.wr))
    ensures Inv(ecd, s')
  {
    InvThread(ecd, s, t);
    InvGuards(ecd, s);
    hide Inv, Owed, HeldBy, Boxes, PhaseFits, GuardsShrink, SameValues, SameStore;
    SameValuesSameStore(s, s', 0);
    DroppingFits(s.threads[t], s'.threads[t].phase);
    ShrinkingKeepsGuards(s, t, s');
    ToPhase(ecd, s, t, s'.threads[t].phase, s');
  }

  lemma StartWakeKeepsInv(ecd: bool, s: State, t: Tid, s': State)
    requires Inv(ecd, s) && t in s.threads && CommitStep(ecd, s, t, StartWake, s')
    ensures Inv(ecd, s')
  {
    StartWakeShape(ecd, s, t, s');
    hide Inv, Owed, HeldBy, Boxes, PhaseFits, CommitStep, SameValues, SameStore;
    SameValuesSameStore(s, s', 0);
    ToPlain(ecd, s, t, s'.threads[t].phase, s');
  }

  lemma CommitMovesOn(ecd: bool, s: State, t: Tid, a: Action, s': State)
    requires Inv(ecd, s) && t in s.threads && CommitStep(ecd, s, t, a, s')
    requires a.Unlock? || a.DropRead? || a.StartWake? || a.Restart?
    ensures Inv(ecd, s')
  {
    hide *;
    match a {
      case Restart =>
        RestartsAfresh(ecd, s, t, s');
        ToBegin(ecd, s, t, s.threads[t].body, s');
      case StartWake => StartWakeKeepsInv(ecd, s, t, s');
      case Unlock(x) =>
        UnlockShape(ecd, s, t, x, s');
        DroppingKeepsInv(ecd, s, t, s');
      case DropRead(x) =>
        DropReadShape(ecd, s, t, x, s');
        DroppingKeepsInv(ecd, s, t, s');
    }
  }

  // ---------------------------------------------------------------- allocating

  /** A fresh allocation keeps live allocations apart. */
  lemma NewArcKeepsUnique(s: State, s': State, new_: Arc)
    requires ArcsUnique(s)
    requires forall a :: InUse(s', a) ==> InUse(s, a) || a == new_
    requires Unallocated(s, new_.id.ptr) && new_.id.serial < s'.nextId && s.nextId <= s'.nextId
    ensures ArcsUnique(s')
  {
    hide InUse;
  }

  lemma BoxedFacts(ecd: bool, th: Thread, id: Id)
    requires th.phase.Running? && Coherent(ecd, th) && th.run.Ask? && th.run.q.AskAlloc?
    ensures var th' := Allocated(ecd, th, id);
            && Coherent(ecd, th') && HeldBy(th') <= HeldBy(th) + {Arc(id, th.run.q.v)}
            && Boxes(th') == Boxes(th) + {id.serial} && Owed(th') == Owed(th)
  {
    var c := Ctx(map[], Replay(th.loads, th.allocs), []);
    AnswerRun(ecd, th.body, c, th.run.q, th.run.held, Arc(id, th.run.q.v), id);
    assert c.(env := Answered(c.env, th.run.q, Arc(id, th.run.q.v), id)).env == Replay(th.loads, th.allocs + [id]);
    hide RunFrom, Coherent;
    var th' := Allocated(ecd, th, id);
    forall n ensures n in Boxes(th') <==> n in Boxes(th) + {id.serial} {
      if n in Boxes(th) {
        var i :| i in th.allocs && i.serial == n;
        assert i in th'.allocs;
      }
      assert id in th'.allocs;
    }
  }

  /** Thread `t` has boxed `id`; variables, histories and debts are as they were. */
  ghost predicate Boxing(s: State, t: Tid, s': State, id: Id) {
    && OnlyMoves(s, t, s')
    && id.serial == s.nextId && s'.nextId == s.nextId + 1
    && (forall x: Addr :: Cur(s', x) == Cur(s, x))
    && (forall x: Addr :: AbsAt(s', x) == AbsAt(s, x))
    && (forall x: Addr :: HistAt(s', x) == HistAt(s, x))
    && s.threads[t].phase.Running? && s'.threads[t].phase.Running?
    && s'.threads[t].allocs == s.threads[t].allocs + [id]
    && s'.threads[t].loads == s.threads[t].loads
    && Boxes(s'.threads[t]) == Boxes(s.threads[t]) + {id.serial}
    && Owed(s'.threads[t]) == Owed(s.threads[t])
  }

  lemma BoxingSameInstalled(s: State, t: Tid, s': State, id: Id, n: int)
    requires Boxing(s, t, s', id)
    ensures Installed(s', n) <==> Installed(s, n)
  {
    hide Boxes, Owed, HistAt, Cur, AbsAt;
    if x: Addr, i :| 0 <= i < |HistAt(s, x)| && HistAt(s, x)[i].id.serial == n {
      assert HistAt(s', x)[i].id.serial == n;
    }
    if x: Addr, i :| 0 <= i < |HistAt(s', x)| && HistAt(s', x)[i].id.serial == n {
      assert HistAt(s, x)[i].id.serial == n;
    }
  }

  lemma BoxingKeepsNew(s: State, t: Tid, s': State, id: Id)
    requires Boxing(s, t, s', id) && BoxesNew(s) && HistoryOk(s)
    ensures BoxesNew(s')
  {
    hide Boxes, Owed, Installed, Cur, HistAt;
    forall u, n | u in s'.threads && n in Boxes(s'.threads[u]) ensures n < s'.nextId && !Installed(s', n) {
      BoxingSameInstalled(s, t, s', id, n);
      if n != id.serial {
        assert n in Boxes(s.threads[u]);
      }
    }
  }

  lemma BoxingKeepsApart(s: State, t: Tid, s': State, id: Id)
    requires Boxing(s, t, s', id) && BoxesNew(s) && BoxesApart(s)
    ensures BoxesApart(s')
  {
    hide Boxes, Owed, Installed, Cur, HistAt, AbsAt;
    forall u, v, n | u in s'.threads && v in s'.threads && u != v && n in Boxes(s'.threads[u])
      ensures n !in Boxes(s'.threads[v])
    {
      if n != id.serial {
        assert n in Boxes(s.threads[u]);
      }
    }
  }

  lemma BoxingKeepsDistinct(s: State, t: Tid, s': State, id: Id)
    requires Boxing(s, t, s', id) && BoxesNew(s) && AllocsDistinct(s)
    ensures AllocsDistinct(s')
  {
    assert forall i :: i in s.threads[t].allocs ==> i.serial in Boxes(s.threads[t]);
    hide Boxes, Owed, Installed, Cur, HistAt, AbsAt;
    forall u | u in s'.threads ensures SerialsDistinct(s'.threads[u].allocs) {
      assert SerialsDistinct(s.threads[u].allocs);
    }
  }

  lemma BoxingKeepsGuards(s: State, t: Tid, s': State, id: Id)
    requires Boxing(s, t, s', id) && GuardsExclude(s)
    ensures GuardsExclude(s')
  {
    assert GuardsShrink(s.threads[t], s'.threads[t]);
    hide Boxes, Owed, GuardsShrink;
    ShrinkingKeepsGuards(s, t, s');
  }

  lemma BoxingKeepsThreads(ecd: bool, s: State, t: Tid, s': State, id: Id)
    requires Boxing(s, t, s', id) && ThreadsOk(ecd, s) && Coherent(ecd, s'.threads[t])
    ensures ThreadsOk(ecd, s')
  {
    hide Coherent, Owed, Boxes, Reads, Cur, AbsAt, HistAt;
    forall u | u in s'.threads ensures Coherent(ecd, s'.threads[u]) && ValidatedHolds(s', s'.threads[u]) {
      if u != t { assert s'.threads[u] == s.threads[u]; }
    }
  }

  lemma BoxingKeepsAbs(s: State, t: Tid, s': State, id: Id)
    requires Boxing(s, t, s', id) && AbsMatches(s)
    ensures AbsMatches(s')
  {
    hide Owed, Boxes, Cur, AbsAt, HistAt;
    assert forall u :: u in s.threads ==> Owed(s'.threads[u]) == Owed(s.threads[u]);
  }

  lemma BoxingKeepsHistory(s: State, t: Tid, s': State, id: Id)
    requires Boxing(s, t, s', id) && HistoryOk(s) && LoadsOk(s)
    ensures HistoryOk(s') && LoadsOk(s')
  {
    hide Owed, Boxes, Cur, AbsAt, HistAt;
    forall n | Installed(s', n) ensures n < s'.nextId {
      BoxingSameInstalled(s, t, s', id, n);
    }
  }

  lemma BoxInUse(s: State, t: Tid, s': State, new_: Arc)
    requires OnlyMoves(s, t, s') && (forall x: Addr :: Cur(s', x) == Cur(s, x))
    requires HeldBy(s'.threads[t]) <= HeldBy(s.threads[t]) + {new_}
    ensures forall a :: InUse(s', a) ==> InUse(s, a) || a == new_
  {
    hide HeldBy;
    forall a | InUse(s', a) ensures InUse(s, a) || a == new_ {
      if InThread(s', a) {
        var u :| u in s'.threads && a in HeldBy(s'.threads[u]);
        assert a == new_ || a in HeldBy(s.threads[u]);
      }
    }
  }

  lemma BoxShape(ecd: bool, s: State, t: Tid, ptr: nat, s': State)
    requires t in s.threads && RunStep(ecd, s, t, Box(ptr), s') && Coherent(ecd, s.threads[t])
    ensures var th, id := s.threads[t], Id(ptr, s.nextId);
            && Boxing(s, t, s', id) && Coherent(ecd, s'.threads[t])
            && th.run.Ask? && th.run.q.AskAlloc? && Unallocated(s, ptr)
            && HeldBy(s'.threads[t]) <= HeldBy(th) + {Arc(id, th.run.q.v)}
  {
    BoxedFacts(ecd, s.threads[t], Id(ptr, s.nextId));
    hide Coherent, HeldBy, Boxes, Owed, RunFrom, Unallocated;
  }

  lemma BoxKeepsInv(ecd: bool, s: State, t: Tid, ptr: nat, s': State)
    requires Inv(ecd, s) && t in s.threads && RunStep(ecd, s, t, Box(ptr), s')
    ensures Inv(ecd, s')
  {
    InvThread(ecd, s, t);
    var id := Id(ptr, s.nextId);
    BoxShape(ecd, s, t, ptr, s');
    var a := Arc(id, s.threads[t].run.q.v);
    hide RunStep, Coherent, HeldBy, Boxes, Owed, Cur, AbsAt, HistAt, GuardsExclude, ThreadsOk, AbsMatches, HistoryOk,
         LoadsOk, BoxesNew, BoxesApart, AllocsDistinct, ArcsUnique, Unallocated, InUse;
    BoxInUse(s, t, s', a);
    NewArcKeepsUnique(s, s', a);
    BoxingKeepsNew(s, t, s', id);
    BoxingKeepsApart(s, t, s', id);
    BoxingKeepsDistinct(s, t, s', id);
    BoxingKeepsGuards(s, t, s', id);
    BoxingKeepsThreads(ecd, s, t, s', id);
    BoxingKeepsAbs(s, t, s', id);
    BoxingKeepsHistory(s, t, s', id);
  }

  lemma RunMovesOnShape(ecd: bool, s: State, t: Tid, a: Action, s': State)
    requires t in s.threads && RunStep(ecd, s, t, a, s')
    requires a.Start? || a.Rerun? || a.GiveUp?
    ensures Owed(s.threads[t]) == map[]
    ensures match a
            case Start(body) => s' == SetThread(s, t, Begin(ecd, body))
            case Rerun => s' == SetThread(s, t, Begin(ecd, s.threads[t].body))
            case GiveUp =>
              && PhaseOnly(s, t, s') && SameValues(s, s', 0)
              && !s.threads[t].phase.Idle? && s'.threads[t].phase.Idle?
  {
    hide Begin;
  }

  lemma RunStepKeepsInv(ecd: bool, s: State, t: Tid, a: Action, s': State)
    requires Inv(ecd, s) && t in s.threads && RunStep(ecd, s, t, a, s')
    ensures Inv(ecd, s')
  {
    hide Inv, Unallocated, FreeToRead, Loaded, Allocated, Begin, LogOf, SameStore, Owed;
    if a.LoadVar? {
      LoadVarKeepsInv(ecd, s, t, s');
    } else if a.Box? {
      BoxKeepsInv(ecd, s, t, a.ptr, s');
    } else if a.EnterCommit? {
      EnterCommitKeepsInv(ecd, s, t, s');
    } else if a.Block? {
      BlockKeepsInv(ecd, s, t, s');
    } else {
      RunMovesOnShape(ecd, s, t, a, s');
      hide RunStep;
      match a
      case Start(body) => ToBegin(ecd, s, t, body, s');
      case Rerun => ToBegin(ecd, s, t, s.threads[t].body, s');
      case GiveUp =>
        SameValuesSameStore(s, s', 0);
        ToPlain(ecd, s, t, Idle, s');
    }
  }
}
