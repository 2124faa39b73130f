/** Every step of every thread keeps the invariant. */
module Safety {
  import opened Values
  import opened Logs
  import opened Programs
  import opened RunFacts
  import opened Machine
  import opened Invariants

  // ---------------------------------------------------------------- wait_for_change and wake_all

  /** Only the list and the counter of variable `x` may differ, and no value moves. */
  ghost predicate SameValues(s: State, s': State, x: Addr) {
    && s'.abs == s.abs && s'.hist == s.hist && s'.events == s.events && s'.nextId == s.nextId
    && s'.atomics == s.atomics
    && (s'.vars == s.vars || (s'.vars == s.vars[x := s'.vars[x]] && s'.vars[x].value == s.vars[x].value))
  }

  lemma SameValuesSameStore(s: State, s': State, x: Addr)
    requires SameValues(s, s', x)
    ensures SameStore(s, s')
  {
  }

  /** The variable whose list or counter a step may touch. */
  function Touched(ph: Phase, a: Action): Addr {
    match a
    case Take(x) => x
    case Register(x) => x
    case MarkDead(x) => x
    case _ => if ph.Sweeping? then ph.x else 0
  }

  ghost predicate PhaseOnly(s: State, t: Tid, s': State) {
    && t in s.threads && t in s'.threads
    && s'.threads == s.threads[t := s.threads[t].(phase := s'.threads[t].phase)]
  }

  lemma WakeStepShape(s: State, t: Tid, a: Action, s': State)
    requires t in s.threads && WakeStep(s, t, a, s')
    ensures SameValues(s, s', Touched(s.threads[t].phase, a)) && PhaseOnly(s, t, s')
    ensures s.threads[t].phase.Waking? && (s'.threads[t].phase.Waking? || s'.threads[t].phase.Idle?)
  {
    hide Alive, ListFree;
  }

  lemma WaitStepShape(ecd: bool, s: State, t: Tid, a: Action, s': State)
    requires t in s.threads && WaitStep(ecd, s, t, a, s')
    ensures SameValues(s, s', Touched(s.threads[t].phase, a))
    ensures if a.Leave? then s' == SetThread(s, t, Begin(ecd, s.threads[t].body)) else PhaseOnly(s, t, s')
    ensures !s.threads[t].phase.Idle? && Owed(s.threads[t]) == map[]
    ensures a.Leave? || a.Register? || (a.Check? && s'.threads[t].phase.Registering?) || Plain(s'.threads[t].phase)
  {
    hide Alive, ListFree, FreeToRead, Retain, Begin;
  }

  lemma WakeStepKeepsInv(ecd: bool, s: State, t: Tid, a: Action, s': State)
    requires Inv(ecd, s) && t in s.threads && WakeStep(s, t, a, s')
    ensures Inv(ecd, s')
  {
    hide Inv, WakeStep, SameValues;
    WakeStepShape(s, t, a, s');
    SameValuesSameStore(s, s', Touched(s.threads[t].phase, a));
    ToPlain(ecd, s, t, s'.threads[t].phase, s');
  }

  /** Values dropped while registering are not needed any more. */
  lemma RegisteringDrops(th: Thread, ph: Phase)
    requires
      match th.phase
      case Registering(_, todo, _) =>
        (match ph
         case Checking(_, x, todo', _) => todo' + {x} <= todo
         case _ => false)
      case Checking(_, x, todo, _) =>
        (match ph
         case Registering(_, todo', _) => todo' <= todo
         case _ => false)
      case _ => false
    ensures var th' := th.(phase := ph);
            && HeldBy(th') <= HeldBy(th) && Boxes(th') == {} && Owed(th') == Owed(th)
            && WriteGuards(ph) == {} && ReadGuards(ph) == {}
  {
  }

  lemma RegisteringFits(ecd: bool, s: State, t: Tid, a: Action, s': State)
    requires t in s.threads && WaitStep(ecd, s, t, a, s') && PhaseFits(s.threads[t])
    requires a.Register? || (a.Check? && s'.threads[t].phase.Registering?)
    ensures var th, ph := s.threads[t], s'.threads[t].phase;
            && PhaseFits(th.(phase := ph)) && !ph.Locking?
            && HeldBy(th.(phase := ph)) <= HeldBy(th) && Boxes(th.(phase := ph)) == {}
            && Owed(th.(phase := ph)) == Owed(th)
            && WriteGuards(ph) == {} && ReadGuards(ph) == {}
  {
    hide Alive, ListFree, FreeToRead, Retain, HeldBy, Boxes, Owed, Waits, WriteGuards, ReadGuards;
    RegisteringDrops(s.threads[t], s'.threads[t].phase);
  }

  lemma RegisteringKeepsInv(ecd: bool, s: State, t: Tid, a: Action, s': State)
    requires Inv(ecd, s) && t in s.threads && WaitStep(ecd, s, t, a, s')
    requires a.Register? || (a.Check? && s'.threads[t].phase.Registering?)
    ensures Inv(ecd, s')
  {
    hide Inv, WaitStep, SameValues, HeldBy, Boxes, Owed, PhaseFits, WriteGuards, ReadGuards, SameStore, LogOf, Waits;
    WaitStepShape(ecd, s, t, a, s');
    SameValuesSameStore(s, s', Touched(s.threads[t].phase, a));
    InvThread(ecd, s, t);
    RegisteringFits(ecd, s, t, a, s');
    InvGuards(ecd, s);
    ShrinkingKeepsGuards(s, t, s');
    ToPhase(ecd, s, t, s'.threads[t].phase, s');
  }

  lemma PollingFits(ecd: bool, s: State, t: Tid, a: Action, s': State)
    requires t in s.threads && WaitStep(ecd, s, t, a, s') && PhaseFits(s.threads[t])
    requires PhaseOnly(s, t, s')
    requires s'.threads[t].phase.Polling? || s'.threads[t].phase.Parked?
    ensures s.threads[t].run.Done? && !s.threads[t].run.out.Ok?
  {
    hide Alive, ListFree, FreeToRead, Retain, Waits;
  }

  lemma WaitStepKeepsInv(ecd: bool, s: State, t: Tid, a: Action, s': State)
    requires Inv(ecd, s) && t in s.threads && WaitStep(ecd, s, t, a, s')
    ensures Inv(ecd, s')
  {
    WaitStepShape(ecd, s, t, a, s');
    SameValuesSameStore(s, s', Touched(s.threads[t].phase, a));
    InvThread(ecd, s, t);
    hide Inv, WaitStep, SameValues, PhaseFits, SameStore, Plain, Owed;
    if a.Leave? {
      ToBegin(ecd, s, t, s.threads[t].body, s');
    } else if a.Register? || (a.Check? && s'.threads[t].phase.Registering?) {
      RegisteringKeepsInv(ecd, s, t, a, s');
    } else {
      if s'.threads[t].phase.Polling? || s'.threads[t].phase.Parked? {
        PollingFits(ecd, s, t, a, s');
      }
      ToPlain(ecd, s, t, s'.threads[t].phase, s');
    }
  }

  // ---------------------------------------------------------------- the closure

  /** A step of a closure touches nothing shared but the allocator and the numbering of control
      blocks, and goes on where its action says. */
  ghost predicate ClosureMoves(s: State, t: Tid, a: Action, s': State) {
    && t in s.threads && t in s'.threads
    && s'.threads == s.threads[t := s'.threads[t]]
    && s'.vars == s.vars && s'.hist == s.hist && s'.abs == s.abs && s'.events == s.events
    && s'.atomics == s.atomics && s'.changed == s.changed && s'.tokens == s.tokens && s.nextCb <= s'.nextCb
    && (s.threads[t].phase.Idle? || s.threads[t].phase.Running?)
    && ClosureGoesOn(s, t, a, s')
  }

  ghost predicate ClosureGoesOn(s: State, t: Tid, a: Action, s': State)
    requires t in s.threads && t in s'.threads
  {
    var th, th' := s.threads[t], s'.threads[t];
    match a
    case EnterCommit => th'.phase.Locking? && th.phase.Running? && th' == th.(phase := th'.phase)
    case GiveUp => th'.phase.Idle? && th.phase.Running? && th' == th.(phase := th'.phase)
    case Block =>
      && th'.phase.Registering? && th'.phase.cb == Cb(t, s.nextCb) && th'.phase.reg == {} && s'.nextCb == s.nextCb + 1
      && th.phase.Running? && th' == th.(phase := th'.phase)
    case _ => th'.phase.Running?
  }

  lemma StartMoves(ecd: bool, s: State, t: Tid, body: Body, s': State)
    requires t in s.threads && RunStep(ecd, s, t, Start(body), s')
    ensures ClosureMoves(s, t, Start(body), s')
  {
    hide RunFrom;
  }

  lemma RerunMoves(ecd: bool, s: State, t: Tid, s': State)
    requires t in s.threads && RunStep(ecd, s, t, Rerun, s')
    ensures ClosureMoves(s, t, Rerun, s')
  {
    hide RunFrom;
  }

  lemma LoadMoves(ecd: bool, s: State, t: Tid, s': State)
    requires t in s.threads && RunStep(ecd, s, t, LoadVar, s')
    ensures ClosureMoves(s, t, LoadVar, s')
  {
    hide RunFrom, FreeToRead;
  }

  lemma BoxMoves(ecd: bool, s: State, t: Tid, ptr: nat, s': State)
    requires t in s.threads && RunStep(ecd, s, t, Box(ptr), s')
    ensures ClosureMoves(s, t, Box(ptr), s')
  {
    hide RunFrom, Unallocated;
  }

  lemma EnterCommitMoves(ecd: bool, s: State, t: Tid, s': State)
    requires t in s.threads && RunStep(ecd, s, t, EnterCommit, s')
    ensures ClosureMoves(s, t, EnterCommit, s')
  {
    hide LogOf;
  }

  lemma GiveUpMoves(ecd: bool, s: State, t: Tid, s': State)
    requires t in s.threads && RunStep(ecd, s, t, GiveUp, s')
    ensures ClosureMoves(s, t, GiveUp, s')
  {
  }

  lemma BlockMoves(ecd: bool, s: State, t: Tid, s': State)
    requires t in s.threads && RunStep(ecd, s, t, Block, s')
    ensures ClosureMoves(s, t, Block, s')
  {
    hide LogOf, Waits;
  }

  predicate ClosureAction(a: Action) {
    a.Start? || a.LoadVar? || a.Box? || a.EnterCommit? || a.GiveUp? || a.Rerun? || a.Block?
  }

  lemma OnlyClosureActions(ecd: bool, s: State, t: Tid, a: Action, s': State)
    requires t in s.threads
    ensures RunStep(ecd, s, t, a, s') ==> ClosureAction(a)
  {
  }

  lemma ClosureShape(ecd: bool, s: State, t: Tid, a: Action, s': State)
    requires t in s.threads && RunStep(ecd, s, t, a, s')
    ensures ClosureMoves(s, t, a, s')
  {
    OnlyClosureActions(ecd, s, t, a, s');
    assert ClosureAction(a);
    hide RunStep, ClosureMoves;
    match a {
      case Start(body) => StartMoves(ecd, s, t, body, s');
      case LoadVar => LoadMoves(ecd, s, t, s');
      case Box(ptr) => BoxMoves(ecd, s, t, ptr, s');
      case EnterCommit => EnterCommitMoves(ecd, s, t, s');
      case GiveUp => GiveUpMoves(ecd, s, t, s');
      case Rerun => RerunMoves(ecd, s, t, s');
      case Block => BlockMoves(ecd, s, t, s');
    }
  }

  lemma ClosurePhases(ecd: bool, s: State, t: Tid, a: Action, s': State)
    requires t in s.threads && RunStep(ecd, s, t, a, s')
    ensures t in s'.threads && (s.threads[t].phase.Idle? || s.threads[t].phase.Running?)
    ensures var ph := s'.threads[t].phase; ph.Idle? || ph.Running? || ph.Locking? || ph.Registering?
  {
    ClosureShape(ecd, s, t, a, s');
    hide RunStep;
  }

  lemma EnterCommitFits(th: Thread)
    requires th.phase.Running? && th.run.Done? && th.run.out.Ok?
    ensures var th' := th.(phase := Locking(LogOf(th).Keys, {}, {}));
            && PhaseFits(th') && HeldBy(th') == HeldBy(th) && Boxes(th') == Boxes(th) && Owed(th') == Owed(th)
            && (forall x :: x in Reads(LogOf(th)) ==> x in LogOf(th))
  {
  }

  lemma EnterCommitKeepsInv(ecd: bool, s: State, t: Tid, s': State)
    requires Inv(ecd, s) && t in s.threads && RunStep(ecd, s, t, EnterCommit, s')
    ensures Inv(ecd, s')
  {
    var th := s.threads[t];
    EnterCommitFits(th);
    InvGuards(ecd, s);
    SameValuesSameStore(s, s', 0);
    assert ValidatedHolds(s', s'.threads[t]);
    assert GuardsShrink(th, s'.threads[t]);
    hide Inv, HeldBy, Boxes, Owed, PhaseFits, SameStore, ValidatedHolds, GuardsShrink;
    ShrinkingKeepsGuards(s, t, s');
    ToPhase(ecd, s, t, s'.threads[t].phase, s');
  }

  lemma BlockFits(th: Thread, cb: Cb)
    requires th.phase.Running? && th.run.Done? && !th.run.out.Ok?
    ensures var th' := th.(phase := Registering(cb, Waits(LogOf(th)).Keys, {}));
            && PhaseFits(th') && HeldBy(th') <= HeldBy(th) && Boxes(th') == {} && Owed(th') == Owed(th)
  {
    var th' := th.(phase := Registering(cb, Waits(LogOf(th)).Keys, {}));
    forall a | a in HeldBy(th') ensures a in HeldBy(th) {
      var x :| x in Waits(LogOf(th)) && a == Waits(LogOf(th))[x];
      assert a in LogOf(th)[x].Parts();
    }
  }

  lemma BlockKeepsInv(ecd: bool, s: State, t: Tid, s': State)
    requires Inv(ecd, s) && t in s.threads && RunStep(ecd, s, t, Block, s')
    ensures Inv(ecd, s')
  {
    var th := s.threads[t];
    BlockFits(th, Cb(t, s.nextCb));
    InvGuards(ecd, s);
    SameValuesSameStore(s, s', 0);
    assert ValidatedHolds(s', s'.threads[t]);
    assert GuardsShrink(th, s'.threads[t]);
    hide Inv, HeldBy, Boxes, Owed, PhaseFits, SameStore, ValidatedHolds, GuardsShrink;
    ShrinkingKeepsGuards(s, t, s');
    ToPhase(ecd, s, t, s'.threads[t].phase, s');
  }

  /** Loading a variable gives the run hold of its value and of nothing else. */
  lemma LoadedFacts(ecd: bool, th: Thread, a: Arc)
    requires th.phase.Running? && Coherent(ecd, th) && th.run.Ask? && th.run.q.AskLoad?
    ensures var th' := Loaded(ecd, th, th.run.q.x, a);
            Coherent(ecd, th') && HeldBy(th') <= HeldBy(th) + {a}
  {
    var c := Ctx(map[], Replay(th.loads, th.allocs), []);
    AnswerRun(ecd, th.body, c, th.run.q, th.run.held, a, a.id);
    assert c.(env := Answered(c.env, th.run.q, a, a.id)).env
        == Replay(th.loads + [Access(th.run.q.x, a)], th.allocs);
  }

  lemma LoadQuieter(ecd: bool, s: State, t: Tid, s': State)
    requires HistoryOk(s) && t in s.threads && Coherent(ecd, s.threads[t])
    requires RunStep(ecd, s, t, LoadVar, s')
    ensures Quieter(s, s.threads[t], s'.threads[t]) && Coherent(ecd, s'.threads[t])
    ensures Owed(s'.threads[t]) == Owed(s.threads[t])
  {
    var th := s.threads[t];
    var x := th.run.q.x;
    LoadedFacts(ecd, th, Cur(s, x));
    assert Boxes(s'.threads[t]) == Boxes(th) && Owed(s'.threads[t]) == Owed(th);
    hide HeldBy, Boxes, Owed, RunFrom, Coherent;
    assert InVariable(s, Cur(s, x));
    assert HistAt(s, x)[|HistAt(s, x)| - 1] in HistAt(s, x);
  }

  lemma LoadVarKeepsInv(ecd: bool, s: State, t: Tid, s': State)
    requires Inv(ecd, s) && t in s.threads && RunStep(ecd, s, t, LoadVar, s')
    ensures Inv(ecd, s')
  {
    InvThread(ecd, s, t);
    LoadQuieter(ecd, s, t, s');
    InvGuards(ecd, s);
    SameValuesSameStore(s, s', 0);
    assert GuardsShrink(s.threads[t], s'.threads[t]) && ValidatedHolds(s', s'.threads[t]);
    InvAbs(ecd, s);
    assert SameVars(s, s');
    hide Inv, Coherent, Quieter, SameStore, ValidatedHolds, GuardsShrink, RunFrom, SameVars, Owed;
    ShrinkingKeepsGuards(s, t, s');
    SameDebtsKeepAbs(s, t, s');
    SilentKeepsInv(ecd, s, t, s');
  }
}
