/** Concrete runs: what the model can do, and where its promises end. */
module Witnesses {
  import opened Values
  import opened Logs
  import opened Programs
  import opened LogLaws
  import opened RunFacts
  import opened Combinators
  import opened Branches
  import opened Machine
  import opened Invariants
  import opened Serializability
  import opened Conflicts
  import opened Wakeup
  import opened Retries

  // ---------------------------------------------------------------- one step after another

  lemma LongerBehaviour(ecd: bool, states: seq<State>, moves: seq<Move>, m: Move, s: State)
    requires Behaviour(ecd, states, moves) && Next(ecd, states[|moves|], m, s)
    ensures Behaviour(ecd, states + [s], moves + [m])
  {
    hide Next, Init;
    var states', moves' := states + [s], moves + [m];
    forall i | 0 <= i < |moves'| ensures Next(ecd, states'[i], moves'[i], states'[i + 1]) {
      if i < |moves| {
        assert Next(ecd, states[i], moves[i], states[i + 1]);
      }
    }
  }

  lemma ReachableNext(ecd: bool, s: State, m: Move, s': State)
    requires Reachable(ecd, s) && Next(ecd, s, m, s')
    ensures Reachable(ecd, s')
  {
    var states, moves :| Behaviour(ecd, states, moves) && states[|moves|] == s;
    hide Next, Init;
    LongerBehaviour(ecd, states, moves, m, s');
    ReachesLast(ecd, states + [s'], moves + [m]);
  }

  lemma ReachesLast(ecd: bool, states: seq<State>, moves: seq<Move>)
    requires Behaviour(ecd, states, moves)
    ensures Reachable(ecd, states[|moves|])
  {
    hide Next, Init;
  }

  lemma ReachableStart(ecd: bool, tids: set<Tid>)
    ensures Reachable(ecd, StartState(tids))
  {
    SomeStart(tids);
    hide Init, StartState;
    assert Behaviour(ecd, [StartState(tids)], []);
  }

  lemma RunStepReaches(ecd: bool, s: State, t: Tid, a: Action, s': State)
    requires Reachable(ecd, s) && t in s.threads && RunStep(ecd, s, t, a, s')
    ensures Reachable(ecd, s')
  {
    hide Reachable, RunStep, CommitStep, WakeStep, WaitStep;
    ReachableNext(ecd, s, By(t, a), s');
  }

  lemma CommitStepReaches(ecd: bool, s: State, t: Tid, a: Action, s': State)
    requires Reachable(ecd, s) && t in s.threads && CommitStep(ecd, s, t, a, s')
    ensures Reachable(ecd, s')
  {
    hide Reachable, RunStep, CommitStep, WakeStep, WaitStep;
    ReachableNext(ecd, s, By(t, a), s');
  }

  lemma WakeStepReaches(ecd: bool, s: State, t: Tid, a: Action, s': State)
    requires Reachable(ecd, s) && t in s.threads && WakeStep(s, t, a, s')
    ensures Reachable(ecd, s')
  {
    hide Reachable, RunStep, CommitStep, WakeStep, WaitStep;
    ReachableNext(ecd, s, By(t, a), s');
  }

  lemma WaitStepReaches(ecd: bool, s: State, t: Tid, a: Action, s': State)
    requires Reachable(ecd, s) && t in s.threads && WaitStep(ecd, s, t, a, s')
    ensures Reachable(ecd, s')
  {
    hide Reachable, RunStep, CommitStep, WakeStep, WaitStep;
    ReachableNext(ecd, s, By(t, a), s');
  }

  // ---------------------------------------------------------------- the steps

  lemma Starts(ecd: bool, s: State, t: Tid, body: Body) returns (s': State)
    requires Reachable(ecd, s) && t in s.threads
    requires s.threads[t].phase.Idle?
    ensures Reachable(ecd, s') && s' == SetThread(s, t, Begin(ecd, body))
  {
    hide Reachable, Begin;
    s' := SetThread(s, t, Begin(ecd, body));
    assert RunStep(ecd, s, t, Start(body), s');
    RunStepReaches(ecd, s, t, Start(body), s');
  }

  lemma Loads(ecd: bool, s: State, t: Tid) returns (s': State)
    requires Reachable(ecd, s) && t in s.threads
    requires var th := s.threads[t];
             th.phase.Running? && th.run.Ask? && th.run.q.AskLoad? && FreeToRead(s, th.run.q.x)
    ensures Reachable(ecd, s')
    ensures var th := s.threads[t];
            s' == SetThread(s, t, Loaded(ecd, th, th.run.q.x, Cur(s, th.run.q.x)))
  {
    hide Reachable, Loaded, FreeToRead;
    var th := s.threads[t];
    s' := SetThread(s, t, Loaded(ecd, th, th.run.q.x, Cur(s, th.run.q.x)));
    assert RunStep(ecd, s, t, LoadVar, s');
    RunStepReaches(ecd, s, t, LoadVar, s');
  }

  lemma BoxesAt(ecd: bool, s: State, t: Tid, ptr: nat) returns (s': State)
    requires Reachable(ecd, s) && t in s.threads
    requires var th := s.threads[t];
             th.phase.Running? && th.run.Ask? && th.run.q.AskAlloc? && Unallocated(s, ptr)
    ensures Reachable(ecd, s')
    ensures s' == SetThread(s, t, Allocated(ecd, s.threads[t], Id(ptr, s.nextId))).(nextId := s.nextId + 1)
  {
    hide Reachable, Allocated, Unallocated;
    s' := SetThread(s, t, Allocated(ecd, s.threads[t], Id(ptr, s.nextId))).(nextId := s.nextId + 1);
    assert RunStep(ecd, s, t, Box(ptr), s');
    RunStepReaches(ecd, s, t, Box(ptr), s');
  }

  lemma EntersCommit(ecd: bool, s: State, t: Tid) returns (s': State)
    requires Reachable(ecd, s) && t in s.threads
    requires s.threads[t].phase.Running? && s.threads[t].run.Done? && s.threads[t].run.out.Ok?
    ensures Reachable(ecd, s') && s' == SetPhase(s, t, Locking(LogOf(s.threads[t]).Keys, {}, {}))
  {
    hide Reachable, LogOf;
    s' := SetPhase(s, t, Locking(LogOf(s.threads[t]).Keys, {}, {}));
    assert RunStep(ecd, s, t, EnterCommit, s');
    RunStepReaches(ecd, s, t, EnterCommit, s');
  }

  lemma Blocks(ecd: bool, s: State, t: Tid) returns (s': State)
    requires Reachable(ecd, s) && t in s.threads
    requires s.threads[t].phase.Running? && s.threads[t].run.Done? && !s.threads[t].run.out.Ok?
    ensures Reachable(ecd, s')
    ensures var waits := Waits(LogOf(s.threads[t]));
            s' == SetPhase(s, t, Registering(Cb(t, s.nextCb), waits.Keys, {})).(nextCb := s.nextCb + 1)
  {
    hide Reachable, LogOf, Waits;
    var waits := Waits(LogOf(s.threads[t]));
    s' := SetPhase(s, t, Registering(Cb(t, s.nextCb), waits.Keys, {})).(nextCb := s.nextCb + 1);
    assert RunStep(ecd, s, t, Block, s');
    RunStepReaches(ecd, s, t, Block, s');
  }

  lemma Locks(ecd: bool, s: State, t: Tid, x: Addr, ph: Phase) returns (s': State)
    requires Reachable(ecd, s) && t in s.threads
    requires s.threads[t].phase.Locking? && LockStep(s, t, x, SetPhase(s, t, ph))
    ensures Reachable(ecd, s') && s' == SetPhase(s, t, ph)
  {
    hide Reachable, LockStep;
    s' := SetPhase(s, t, ph);
    assert CommitStep(ecd, s, t, Lock(x), s');
    CommitStepReaches(ecd, s, t, Lock(x), s');
  }

  lemma Decides(ecd: bool, s: State, t: Tid) returns (s': State)
    requires Reachable(ecd, s) && t in s.threads
    requires s.threads[t].phase.Locking? && s.threads[t].phase.todo == {}
    requires s.threads[t].run.Done? && s.threads[t].run.out.Ok?
    ensures Reachable(ecd, s')
    ensures var th := s.threads[t];
            s' == SetPhase(s, t, Publishing(th.phase.rd, th.phase.wr)).(
                    abs := AllInstalled(LogOf(th), s.abs), events := s.events + [Decision(s, t)])
  {
    hide Reachable, LogOf, AllInstalled, Decision;
    var th := s.threads[t];
    s' := SetPhase(s, t, Publishing(th.phase.rd, th.phase.wr)).(
      abs := AllInstalled(LogOf(th), s.abs), events := s.events + [Decision(s, t)]);
    assert CommitStep(ecd, s, t, Decide, s');
    CommitStepReaches(ecd, s, t, Decide, s');
  }

  lemma WritesBack(ecd: bool, s: State, t: Tid, x: Addr) returns (s': State)
    requires Reachable(ecd, s) && t in s.threads
    requires s.threads[t].phase.Publishing? && s.threads[t].phase.rd == {} && Least(x, s.threads[t].phase.wr)
    requires x in Writes(LogOf(s.threads[t]))
    ensures Reachable(ecd, s')
    ensures var th := s.threads[t];
            s' == SetPhase(Installs(s, x, Writes(LogOf(th))[x]), t, Publishing({}, th.phase.wr - {x}))
  {
    hide Reachable, LogOf, Writes, Least;
    var th := s.threads[t];
    s' := SetPhase(Installs(s, x, Writes(LogOf(th))[x]), t, Publishing({}, th.phase.wr - {x}));
    assert CommitStep(ecd, s, t, WriteBack(x), s');
    CommitStepReaches(ecd, s, t, WriteBack(x), s');
  }

  lemma StartsWaking(ecd: bool, s: State, t: Tid) returns (s': State)
    requires Reachable(ecd, s) && t in s.threads
    requires s.threads[t].phase == Publishing({}, {})
    ensures Reachable(ecd, s') && s' == SetPhase(s, t, Waking(Writes(LogOf(s.threads[t])).Keys, [], None))
  {
    hide Reachable, LogOf, Writes;
    s' := SetPhase(s, t, Waking(Writes(LogOf(s.threads[t])).Keys, [], None));
    assert CommitStep(ecd, s, t, StartWake, s');
    CommitStepReaches(ecd, s, t, StartWake, s');
  }

  lemma Takes(ecd: bool, s: State, t: Tid, x: Addr) returns (s': State)
    requires Reachable(ecd, s) && t in s.threads
    requires s.threads[t].phase.Waking? && s.threads[t].phase.taken == [] && s.threads[t].phase.unpark.None?
    requires Least(x, s.threads[t].phase.todo) && ListFree(s, x)
    ensures Reachable(ecd, s')
    ensures s' == SetPhase(SetVar(s, x, s.vars[x].(waiting := [])), t,
                           Waking(s.threads[t].phase.todo - {x}, s.vars[x].waiting, None))
  {
    hide Reachable, Least, ListFree;
    s' := SetPhase(SetVar(s, x, s.vars[x].(waiting := [])), t,
                   Waking(s.threads[t].phase.todo - {x}, s.vars[x].waiting, None));
    assert WakeStep(s, t, Take(x), s');
    WakeStepReaches(ecd, s, t, Take(x), s');
  }

  lemma Finishes(ecd: bool, s: State, t: Tid) returns (s': State)
    requires Reachable(ecd, s) && t in s.threads
    requires s.threads[t].phase == Waking({}, [], None)
    ensures Reachable(ecd, s') && s' == SetPhase(s, t, Idle)
  {
    hide Reachable;
    s' := SetPhase(s, t, Idle);
    assert WakeStep(s, t, Finish, s');
    WakeStepReaches(ecd, s, t, Finish, s');
  }

  lemma Registers(ecd: bool, s: State, t: Tid, x: Addr) returns (s': State)
    requires Reachable(ecd, s) && t in s.threads
    requires s.threads[t].phase.Registering? && x in s.threads[t].phase.todo && ListFree(s, x)
    ensures Reachable(ecd, s')
    ensures var ph := s.threads[t].phase;
            s' == SetPhase(SetVar(s, x, s.vars[x].(waiting := s.vars[x].waiting + [ph.cb])), t,
                           Checking(ph.cb, x, ph.todo - {x}, ph.reg))
  {
    hide Reachable, ListFree, Waits, LogOf;
    var ph := s.threads[t].phase;
    s' := SetPhase(SetVar(s, x, s.vars[x].(waiting := s.vars[x].waiting + [ph.cb])), t,
                   Checking(ph.cb, x, ph.todo - {x}, ph.reg));
    assert WaitStep(ecd, s, t, Register(x), s');
    WaitStepReaches(ecd, s, t, Register(x), s');
  }

  lemma ChecksSame(ecd: bool, s: State, t: Tid) returns (s': State)
    requires Reachable(ecd, s) && t in s.threads
    requires var ph, waits := s.threads[t].phase, Waits(LogOf(s.threads[t]));
             ph.Checking? && FreeToRead(s, ph.x) && ph.x in waits && PtrEq(waits[ph.x], Cur(s, ph.x))
    ensures Reachable(ecd, s')
    ensures var ph := s.threads[t].phase;
            s' == SetPhase(s, t, Registering(ph.cb, ph.todo, ph.reg + {ph.x}))
  {
    hide Reachable, FreeToRead, Waits, LogOf;
    var ph := s.threads[t].phase;
    s' := SetPhase(s, t, Registering(ph.cb, ph.todo, ph.reg + {ph.x}));
    assert WaitStep(ecd, s, t, Check, s');
    WaitStepReaches(ecd, s, t, Check, s');
  }

  lemma StartsPolling(ecd: bool, s: State, t: Tid) returns (s': State)
    requires Reachable(ecd, s) && t in s.threads
    requires s.threads[t].phase.Registering? && s.threads[t].phase.todo == {}
    ensures Reachable(ecd, s') && s' == SetPhase(s, t, Polling(s.threads[t].phase.cb))
  {
    hide Reachable, Waits, LogOf;
    s' := SetPhase(s, t, Polling(s.threads[t].phase.cb));
    assert WaitStep(ecd, s, t, StartPoll, s');
    WaitStepReaches(ecd, s, t, StartPoll, s');
  }

  lemma Parks(ecd: bool, s: State, t: Tid) returns (s': State)
    requires Reachable(ecd, s) && t in s.threads
    requires s.threads[t].phase.Polling? && s.threads[t].phase.cb !in s.changed
    ensures Reachable(ecd, s') && s' == SetPhase(s, t, Parked(s.threads[t].phase.cb))
  {
    hide Reachable, Waits, LogOf;
    s' := SetPhase(s, t, Parked(s.threads[t].phase.cb));
    assert WaitStep(ecd, s, t, Poll, s');
    WaitStepReaches(ecd, s, t, Poll, s');
  }

  // ---------------------------------------------------------------- a transaction that writes

  ghost function Store1(x: Addr, v: Val): Body {
    var p := WriteVar(x, v, Return(Nothing));
    assert Closed(p.next);
    p
  }

  lemma StoreAsks(ecd: bool, x: Addr, v: Val)
    ensures RunFrom(ecd, Store1(x, v), [], []) == Ask(AskAlloc(v), {}, NO_ANSWERS)
  {
    assert Arcs(map[]) == {};
  }

  lemma StoreRuns(ecd: bool, x: Addr, v: Val, id: Id)
    ensures RunFrom(ecd, Store1(x, v), [], [id]) ==
            Done(Ok(Nothing), Ctx(map[x := LogVar.Write(Arc(id, v))], NO_ANSWERS, []))
  {
    assert [id][1..] == [];
    var p, c := Store1(x, v), Ctx(map[x := LogVar.Write(Arc(id, v))], NO_ANSWERS, []);
    assert DoCall(ecd, p, Ctx(map[], Replay([], [id]), [])) == Continue(Return(Nothing), c);
    assert Exec(ecd, p, Ctx(map[], Replay([], [id]), [])) == Exec(ecd, Return(Nothing), c);
  }

  /** The thread that has run `Store1` and is at `ph`. */
  ghost function Storing(x: Addr, a: Arc, ph: Phase): Thread {
    Thread(Store1(x, a.val), [], [a.id], Done(Ok(Nothing), Ctx(map[x := LogVar.Write(a)], NO_ANSWERS, [])), ph)
  }

  lemma StoringLog(x: Addr, a: Arc, ph: Phase)
    ensures LogOf(Storing(x, a, ph)) == map[x := LogVar.Write(a)]
    ensures Writes(LogOf(Storing(x, a, ph))) == map[x := a]
  {
  }

  lemma SetTwice(s: State, t: Tid, th: Thread, th': Thread)
    ensures SetThread(SetThread(s, t, th), t, th') == SetThread(s, t, th')
    ensures t in SetThread(s, t, th).threads && SetThread(s, t, th).threads[t] == th
  {
    assert s.threads[t := th][t := th'] == s.threads[t := th'];
  }

  /** Nobody but `t` holds a lock or sweeps a list. */
  ghost predicate OthersCalm(s: State, t: Tid) {
    forall u :: u in s.threads && u != t ==>
      && WriteGuards(s.threads[u].phase) == {} && ReadGuards(s.threads[u].phase) == {}
      && !(s.threads[u].phase.Sweeping? && s.threads[u].phase.locked)
  }

  lemma CalmIsFree(s: State, t: Tid, x: Addr)
    requires t in s.threads && OthersCalm(s, t)
    ensures WriteGuards(s.threads[t].phase) == {} && ReadGuards(s.threads[t].phase) == {} ==>
              FreeToWrite(s, x) && FreeToRead(s, x)
    ensures !(s.threads[t].phase.Sweeping? && s.threads[t].phase.locked) ==> ListFree(s, x)
  {
    hide WriteGuards, ReadGuards;
  }

  lemma StoreBoxes(ecd: bool, s: State, t: Tid, x: Addr, v: Val, ptr: nat) returns (s': State)
    requires Reachable(ecd, s) && t in s.threads && Unallocated(s, ptr)
    requires s.threads[t] == Begin(ecd, Store1(x, v))
    ensures Reachable(ecd, s')
    ensures s' == SetThread(s, t, Storing(x, Arc(Id(ptr, s.nextId), v), Running)).(nextId := s.nextId + 1)
  {
    var id := Id(ptr, s.nextId);
    StoreAsks(ecd, x, v);
    StoreRuns(ecd, x, v, id);
    assert [] + [id] == [id];
    hide Reachable, Unallocated, RunFrom, Store1;
    s' := BoxesAt(ecd, s, t, ptr);
  }

  /** The run up to its end. */
  lemma StoreRunsOnce(ecd: bool, s: State, t: Tid, x: Addr, v: Val, ptr: nat) returns (s': State)
    requires Reachable(ecd, s) && t in s.threads && s.threads[t].phase.Idle?
    requires Unallocated(s, ptr)
    ensures Reachable(ecd, s')
    ensures s' == SetThread(s, t, Storing(x, Arc(Id(ptr, s.nextId), v), Running)).(nextId := s.nextId + 1)
  {
    var begun := Begin(ecd, Store1(x, v));
    var s1 := Starts(ecd, s, t, Store1(x, v));
    BeginningFreesNothing(ecd, s, t, Store1(x, v), ptr);
    SetTwice(s, t, begun, Storing(x, Arc(Id(ptr, s.nextId), v), Running));
    assert s1.nextId == s.nextId;
    hide Reachable, Unallocated, Begin, Store1;
    s' := StoreBoxes(ecd, s1, t, x, v, ptr);
  }

  lemma BeginningFreesNothing(ecd: bool, s: State, t: Tid, body: Body, ptr: nat)
    requires t in s.threads && Unallocated(s, ptr)
    ensures Unallocated(SetThread(s, t, Begin(ecd, body)), ptr)
  {
    var s' := SetThread(s, t, Begin(ecd, body));
    BeginFacts(ecd, body);
    HoldsNoMore(s, t, s', ptr);
  }

  lemma HoldsNoMore(s: State, t: Tid, s': State, ptr: nat)
    requires t in s.threads && t in s'.threads && s'.threads == s.threads[t := s'.threads[t]] && s'.vars == s.vars
    requires HeldBy(s'.threads[t]) <= HeldBy(s.threads[t]) && Unallocated(s, ptr)
    ensures Unallocated(s', ptr)
  {
    hide HeldBy;
    forall a | InUse(s', a) ensures InUse(s, a) {
      if InVariable(s', a) {
        var x: Addr :| Cur(s', x) == a;
        assert Cur(s, x) == a;
      } else {
        var u :| u in s'.threads && a in HeldBy(s'.threads[u]);
        assert a in HeldBy(s.threads[u]);
      }
    }
  }

  /** How far thread `t` has got with writing `a` to `x` since state `s0`, with nobody disturbed. */
  ghost predicate At(s0: State, t: Tid, x: Addr, a: Arc, ph: Phase, decided: bool, written: bool, s: State) {
    && t in s0.threads && s.threads == s0.threads[t := Storing(x, a, ph)]
    && (forall y: Addr :: Cur(s, y) == if written && y == x then a else Cur(s0, y))
    && (forall y: Addr :: AbsAt(s, y) == if decided && y == x then a else AbsAt(s0, y))
    && (forall y: Addr :: ListAt(s, y) == ListAt(s0, y))
    && s.changed == s0.changed && s.tokens == s0.tokens && s.nextCb == s0.nextCb
    && s.events == s0.events + if decided then [Committed(t, Store1(x, a.val), [], Nothing)] else []
  }

  lemma AtThread(s0: State, t: Tid, x: Addr, a: Arc, ph: Phase, decided: bool, written: bool, s: State)
    requires At(s0, t, x, a, ph, decided, written, s)
    ensures t in s.threads && s.threads[t] == Storing(x, a, ph)
    ensures s.threads[t].phase == ph && s.threads[t].run.Done? && s.threads[t].run.out.Ok?
    ensures LogOf(s.threads[t]) == map[x := LogVar.Write(a)] && Writes(LogOf(s.threads[t])) == map[x := a]
    ensures ListAt(s0, x) == [] ==> ListAt(s, x) == []
    ensures OthersCalm(s0, t) ==> OthersCalm(s, t)
  {
    StoringLog(x, a, ph);
    hide WriteGuards, ReadGuards, LogOf, Writes, Cur, AbsAt, ListAt, Store1;
  }

  lemma SamePlaces(s: State, t: Tid, ph: Phase)
    requires t in s.threads
    ensures var s' := SetPhase(s, t, ph);
            forall y: Addr :: Cur(s', y) == Cur(s, y) && AbsAt(s', y) == AbsAt(s, y) && ListAt(s', y) == ListAt(s, y)
  {
  }

  lemma AtNext(s0: State, t: Tid, x: Addr, a: Arc, ph: Phase, decided: bool, written: bool, s: State, ph': Phase)
    requires At(s0, t, x, a, ph, decided, written, s)
    ensures t in s.threads && At(s0, t, x, a, ph', decided, written, SetPhase(s, t, ph'))
  {
    hide Cur, AbsAt, ListAt, Store1;
    SamePlaces(s, t, ph');
    assert s0.threads[t := Storing(x, a, ph)][t := Storing(x, a, ph')] == s0.threads[t := Storing(x, a, ph')];
  }

  lemma DecidedEvent(s: State, t: Tid, x: Addr, a: Arc, ph: Phase)
    requires t in s.threads && s.threads[t] == Storing(x, a, ph)
    ensures Decision(s, t) == Committed(t, Store1(x, a.val), [], Nothing)
  {
    hide Store1;
  }

  lemma DecidedStore(s: State, t: Tid, x: Addr, a: Arc, ph: Phase, s': State)
    requires t in s.threads && s.threads[t] == Storing(x, a, ph)
    requires s' == s.(abs := AllInstalled(LogOf(s.threads[t]), s.abs), events := s.events + [Decision(s, t)])
    ensures forall y: Addr :: Cur(s', y) == Cur(s, y) && ListAt(s', y) == ListAt(s, y)
    ensures forall y: Addr :: AbsAt(s', y) == if y == x then a else AbsAt(s, y)
  {
    StoringLog(x, a, ph);
    hide Store1, Decision, Writes, LogOf, Storing;
  }

  lemma AtDecided(s0: State, t: Tid, x: Addr, a: Arc, ph: Phase, s: State)
    requires At(s0, t, x, a, ph, false, false, s)
    ensures t in s.threads
    ensures At(s0, t, x, a, ph, true, false,
               s.(abs := AllInstalled(LogOf(s.threads[t]), s.abs), events := s.events + [Decision(s, t)]))
  {
    hide Cur, AbsAt, ListAt, Store1, Decision, LogOf, AllInstalled, Storing, Writes, OthersCalm;
    AtThread(s0, t, x, a, ph, false, false, s);
    DecidedEvent(s, t, x, a, ph);
    DecidedStore(s, t, x, a, ph,
                 s.(abs := AllInstalled(LogOf(s.threads[t]), s.abs), events := s.events + [Decision(s, t)]));
  }

  lemma AtWritten(s0: State, t: Tid, x: Addr, a: Arc, ph: Phase, s: State)
    requires At(s0, t, x, a, ph, true, false, s)
    ensures At(s0, t, x, a, ph, true, true, Installs(s, x, a))
  {
    var s' := Installs(s, x, a);
    assert forall y: Addr :: Cur(s', y) == if y == x then a else Cur(s, y);
    assert forall y: Addr :: ListAt(s', y) == ListAt(s, y) && AbsAt(s', y) == AbsAt(s, y);
    hide Cur, AbsAt, ListAt, Store1, Storing;
  }

  lemma AtTaken(s0: State, t: Tid, x: Addr, a: Arc, ph: Phase, s: State)
    requires At(s0, t, x, a, ph, true, true, s) && ListAt(s, x) == []
    ensures At(s0, t, x, a, ph, true, true, SetVar(s, x, s.vars[x].(waiting := [])))
  {
    assert s.vars[x := s.vars[x].(waiting := [])] == s.vars;
  }

  /** A blind write takes its lock without comparing anything. */
  lemma LockGranted(s: State, t: Tid, x: Addr, a: Arc)
    requires t in s.threads && s.threads[t] == Storing(x, a, Locking({x}, {}, {})) && OthersCalm(s, t)
    ensures LockStep(s, t, x, SetPhase(s, t, Locking({}, {}, {x})))
  {
    StoringLog(x, a, Locking({x}, {}, {}));
    CalmIsFree(s, t, x);
    assert {x} - {x} == {} && {} + {x} == {x};
    hide LogOf, FreeToWrite, FreeToRead, OthersCalm;
  }

  lemma OneKey(x: Addr, a: Arc)
    ensures map[x := LogVar.Write(a)].Keys == {x} && map[x := a].Keys == {x} && Least(x, {x}) && {x} - {x} == {}
  {
  }

  /** The run, up to the moment before the lock point. */
  lemma StoreLocks(ecd: bool, s0: State, s: State, t: Tid, x: Addr, a: Arc) returns (s': State)
    requires Reachable(ecd, s) && At(s0, t, x, a, Running, false, false, s) && OthersCalm(s0, t)
    ensures Reachable(ecd, s') && At(s0, t, x, a, Locking({}, {}, {x}), false, false, s')
  {
    hide *;
    OneKey(x, a);
    AtThread(s0, t, x, a, Running, false, false, s);
    AtNext(s0, t, x, a, Running, false, false, s, Locking({x}, {}, {}));
    var s1 := EntersCommit(ecd, s, t);
    AtThread(s0, t, x, a, Locking({x}, {}, {}), false, false, s1);
    LockGranted(s1, t, x, a);
    AtNext(s0, t, x, a, Locking({x}, {}, {}), false, false, s1, Locking({}, {}, {x}));
    s' := Locks(ecd, s1, t, x, Locking({}, {}, {x}));
  }

  lemma DecidedState(s: State, t: Tid, ph: Phase)
    requires t in s.threads
    ensures SetPhase(s, t, ph).(abs := AllInstalled(LogOf(s.threads[t]), s.abs), events := s.events + [Decision(s, t)])
         == SetPhase(s.(abs := AllInstalled(LogOf(s.threads[t]), s.abs), events := s.events + [Decision(s, t)]), t, ph)
  {
    hide LogOf, AllInstalled, Decision;
  }

  /** The lock point. */
  lemma StoreDecides(ecd: bool, s0: State, s: State, t: Tid, x: Addr, a: Arc) returns (s': State)
    requires Reachable(ecd, s) && At(s0, t, x, a, Locking({}, {}, {x}), false, false, s)
    ensures Reachable(ecd, s') && At(s0, t, x, a, Publishing({}, {x}), true, false, s')
  {
    hide *;
    AtThread(s0, t, x, a, Locking({}, {}, {x}), false, false, s);
    AtDecided(s0, t, x, a, Locking({}, {}, {x}), s);
    DecidedState(s, t, Publishing({}, {x}));
    var decided := s.(abs := AllInstalled(LogOf(s.threads[t]), s.abs), events := s.events + [Decision(s, t)]);
    AtNext(s0, t, x, a, Locking({}, {}, {x}), true, false, decided, Publishing({}, {x}));
    s' := Decides(ecd, s, t);
  }

  /** The write back. */
  lemma StoreWritesBack(ecd: bool, s0: State, s: State, t: Tid, x: Addr, a: Arc) returns (s': State)
    requires Reachable(ecd, s) && At(s0, t, x, a, Publishing({}, {x}), true, false, s)
    ensures Reachable(ecd, s') && At(s0, t, x, a, Publishing({}, {}), true, true, s')
  {
    hide *;
    OneKey(x, a);
    AtThread(s0, t, x, a, Publishing({}, {x}), true, false, s);
    AtWritten(s0, t, x, a, Publishing({}, {x}), s);
    AtNext(s0, t, x, a, Publishing({}, {x}), true, true, Installs(s, x, a), Publishing({}, {}));
    s' := WritesBack(ecd, s, t, x);
  }

  lemma CalmList(s: State, t: Tid, x: Addr)
    requires t in s.threads && s.threads[t].phase.Waking? && OthersCalm(s, t)
    ensures ListFree(s, x)
  {
    CalmIsFree(s, t, x);
  }

  lemma EmptyTake(s: State, x: Addr)
    requires ListAt(s, x) == []
    ensures s.vars[x].waiting == []
  {
  }

  /** Waking, with nobody in the list. */
  lemma StoreWakes(ecd: bool, s0: State, s: State, t: Tid, x: Addr, a: Arc) returns (s': State)
    requires Reachable(ecd, s) && At(s0, t, x, a, Publishing({}, {}), true, true, s)
    requires OthersCalm(s0, t) && ListAt(s0, x) == []
    ensures Reachable(ecd, s') && At(s0, t, x, a, Idle, true, true, s')
  {
    hide *;
    OneKey(x, a);
    AtThread(s0, t, x, a, Publishing({}, {}), true, true, s);
    AtNext(s0, t, x, a, Publishing({}, {}), true, true, s, Waking({x}, [], None));
    var s1 := StartsWaking(ecd, s, t);
    AtThread(s0, t, x, a, Waking({x}, [], None), true, true, s1);
    CalmList(s1, t, x);
    EmptyTake(s1, x);
    AtTaken(s0, t, x, a, Waking({x}, [], None), s1);
    AtNext(s0, t, x, a, Waking({x}, [], None), true, true, SetVar(s1, x, s1.vars[x].(waiting := [])),
           Waking({}, [], None));
    var s2 := Takes(ecd, s1, t, x);
    AtThread(s0, t, x, a, Waking({}, [], None), true, true, s2);
    AtNext(s0, t, x, a, Waking({}, [], None), true, true, s2, Idle);
    s' := Finishes(ecd, s2, t);
  }

  lemma AtStart(s: State, t: Tid, x: Addr, a: Arc)
    requires t in s.threads
    ensures At(s, t, x, a, Running, false, false, SetThread(s, t, Storing(x, a, Running)).(nextId := s.nextId + 1))
  {
    hide Store1;
  }

  /** A thread with nothing else to do can write `v` to `x`, commit and return, if nobody holds a lock,
      nobody waits for `x` and there is memory left. */
  lemma StoreCommits(ecd: bool, s: State, t: Tid, x: Addr, v: Val, ptr: nat) returns (s': State)
    requires Reachable(ecd, s) && t in s.threads && s.threads[t].phase.Idle?
    requires Unallocated(s, ptr) && OthersCalm(s, t) && ListAt(s, x) == []
    ensures Reachable(ecd, s') && At(s, t, x, Arc(Id(ptr, s.nextId), v), Idle, true, true, s')
  {
    hide *;
    var a := Arc(Id(ptr, s.nextId), v);
    s' := StoreRunsOnce(ecd, s, t, x, v, ptr);
    AtStart(s, t, x, a);
    s' := StoreLocks(ecd, s, s', t, x, a);
    s' := StoreDecides(ecd, s, s', t, x, a);
    s' := StoreWritesBack(ecd, s, s', t, x, a);
    s' := StoreWakes(ecd, s, s', t, x, a);
  }

  // ---------------------------------------------------------------- runs from the start

  lemma StartIdle(tids: set<Tid>, t: Tid, x: Addr)
    ensures var s := StartState(tids);
            && s.threads.Keys == tids && OthersCalm(s, t) && ListAt(s, x) == [] && s.events == [] && s.nextId == 0
            && s.nextCb == 0 && s.changed == {} && s.tokens == {} && s.atomics == {}
            && (t in tids ==> t in s.threads && s.threads[t].phase.Idle?)
            && Cur(s, x) == FirstArc(x) && HistAt(s, x) == [FirstArc(x)]
  {
    StartAt(tids, x);
  }

  lemma StartFree(tids: set<Tid>, n: nat)
    requires n % 2 == 1
    ensures Unallocated(StartState(tids), n)
  {
    var s := StartState(tids);
    forall a | InUse(s, a) ensures a.id.ptr != n {
      assert !InThread(s, a);
      var x: Addr :| Cur(s, x) == a;
      StartAt(tids, x);
      FirstEven(x);
    }
  }

  lemma FirstEven(x: Addr)
    ensures FirstArc(x).id.ptr % 2 == 0
  {
  }

  lemma StoredMeans(s: State, t: Tid, x: Addr, a: Arc, s': State)
    requires At(s, t, x, a, Idle, true, true, s')
    ensures s'.threads.Keys == s.threads.Keys && t in s'.threads && s'.threads[t].phase.Idle?
    ensures Cur(s', x) == a && AbsAt(s', x) == a
    ensures s'.events == s.events + [Committed(t, Store1(x, a.val), [], Nothing)]
    ensures forall u :: u in s.threads && u != t ==> u in s'.threads && s'.threads[u] == s.threads[u]
    ensures s'.changed == s.changed && s'.tokens == s.tokens
  {
    hide Cur, AbsAt, ListAt, Store1;
  }

  /** The model is not empty: any variable can be written by a transaction that commits and returns. */
  lemma SomeTransactionReturns(ecd: bool, x: Addr, v: Val) returns (s: State)
    ensures Reachable(ecd, s) && s.threads.Keys == {0} && s.threads[0].phase.Idle?
    ensures s.events == [Committed(0, Store1(x, v), [], Nothing)] && Cur(s, x).val == v && AbsAt(s, x) == Cur(s, x)
  {
    hide *;
    var start := StartState({0});
    ReachableStart(ecd, {0});
    StartIdle({0}, 0, x);
    StartFree({0}, 1);
    s := StoreCommits(ecd, start, 0, x, v, 1);
    StoredMeans(start, 0, x, Arc(Id(1, 0), v), s);
  }

  // ---------------------------------------------------------------- an address used twice

  lemma FirstIsFreed(s: State, x: Addr, a: Arc)
    requires s.threads.Keys == {0} && s.threads[0].phase.Idle? && a.id.ptr % 2 == 1
    requires forall y: Addr :: Cur(s, y) == if y == x then a else FirstArc(y)
    ensures Unallocated(s, FirstArc(x).id.ptr)
  {
    hide Cur;
    forall b | InUse(s, b) ensures b.id.ptr != FirstArc(x).id.ptr {
      assert !InThread(s, b);
      var y: Addr :| Cur(s, y) == b;
    }
  }

  lemma StoredAt(s: State, t: Tid, x: Addr, a: Arc, s': State)
    requires At(s, t, x, a, Idle, true, true, s')
    ensures forall y: Addr :: Cur(s', y) == if y == x then a else Cur(s, y)
    ensures OthersCalm(s, t) ==> OthersCalm(s', t)
    ensures ListAt(s, x) == [] ==> ListAt(s', x) == []
  {
    AtThread(s, t, x, a, Idle, true, true, s');
    hide Cur, AbsAt, ListAt, Store1, OthersCalm;
  }

  lemma StartValues(tids: set<Tid>)
    ensures forall y: Addr :: Cur(StartState(tids), y) == FirstArc(y)
  {
    forall y: Addr ensures Cur(StartState(tids), y) == FirstArc(y) {
      StartAt(tids, y);
    }
  }

  /** Addresses are used again, so comparing pointers is not comparing values by itself: after two
      writes a variable holds a new value at the address of its first one. */
  lemma AddressUsedAgain(ecd: bool, x: Addr, v: Val) returns (s: State)
    ensures Reachable(ecd, s) && PtrEq(Cur(s, x), FirstArc(x)) && Cur(s, x).id != FirstArc(x).id
    ensures Cur(StartState({0}), x) == FirstArc(x) && Cur(s, x).val == v
  {
    var start, a := StartState({0}), Arc(Id(1, 0), v);
    hide *;
    ReachableStart(ecd, {0});
    StartIdle({0}, 0, x);
    StartFree({0}, 1);
    StartValues({0});
    var s1 := StoreCommits(ecd, start, 0, x, v, 1);
    StoredMeans(start, 0, x, a, s1);
    StoredAt(start, 0, x, a, s1);
    FirstIsFreed(s1, x, a);
    s := StoreCommits(ecd, s1, 0, x, v, FirstArc(x).id.ptr);
    StoredMeans(s1, 0, x, Arc(Id(FirstArc(x).id.ptr, s1.nextId), v), s);
    SameAddress(x, s1.nextId, v);
  }

  lemma SameAddress(x: Addr, n: nat, v: Val)
    ensures var a := Arc(Id(FirstArc(x).id.ptr, n), v);
            PtrEq(a, FirstArc(x)) && a.id != FirstArc(x).id
  {
  }

  // ---------------------------------------------------------------- a waiter that write_atomic passes by

  lemma AwaitBegins(ecd: bool, x: Addr, a: Arc)
    requires a.val == Num(0)
    ensures RunFrom(ecd, AwaitNonZero(x), [], []) == Ask(AskLoad(x), {}, NO_ANSWERS)
    ensures RunFrom(ecd, AwaitNonZero(x), [Access(x, a)], []) ==
            Done(Retried, Ctx(map[x := LogVar.Read(a)], NO_ANSWERS, []))
  {
    AwaitAsks(ecd, x, Replay([], []), []);
    LoadHead(x, a, [Access(x, a)]);
    assert [Access(x, a)][1..] == [];
    AwaitRetries(ecd, x, a, Replay([Access(x, a)], []), NO_ANSWERS, []);
    hide AwaitNonZero, Exec, Load;
  }

  /** The thread that waits for `x` to be other than zero, having found `a`, and is at `ph`. */
  ghost function Awaiting(x: Addr, a: Arc, ph: Phase): Thread {
    Thread(AwaitNonZero(x), [Access(x, a)], [], Done(Retried, Ctx(map[x := LogVar.Read(a)], NO_ANSWERS, [])), ph)
  }

  lemma AwaitingLog(x: Addr, a: Arc, ph: Phase)
    ensures LogOf(Awaiting(x, a, ph)) == map[x := LogVar.Read(a)]
    ensures Waits(LogOf(Awaiting(x, a, ph))) == map[x := a]
  {
  }

  /** The run, up to its `retry`. */
  lemma AwaitRuns(ecd: bool, s: State, t: Tid, x: Addr) returns (s': State)
    requires Reachable(ecd, s) && t in s.threads && s.threads[t].phase.Idle?
    requires FreeToRead(s, x) && Cur(s, x).val == Num(0)
    ensures Reachable(ecd, s') && s' == SetThread(s, t, Awaiting(x, Cur(s, x), Running))
  {
    var s1 := Starts(ecd, s, t, AwaitNonZero(x));
    AwaitBegins(ecd, x, Cur(s, x));
    assert FreeToRead(s1, x) by {
      BeginFacts(ecd, AwaitNonZero(x));
      hide Begin, WriteGuards;
    }
    assert [] + [Access(x, Cur(s, x))] == [Access(x, Cur(s, x))];
    SetTwice(s, t, Begin(ecd, AwaitNonZero(x)), Awaiting(x, Cur(s, x), Running));
    hide Reachable, FreeToRead, RunFrom, AwaitNonZero;
    s' := Loads(ecd, s1, t);
  }

  lemma AtomicReaches(ecd: bool, s: State, x: Addr, ptr: nat, v: Val) returns (s': State)
    requires Reachable(ecd, s) && FreeToWrite(s, x) && Unallocated(s, ptr)
    ensures Reachable(ecd, s') && s' == Overwritten(s, x, Arc(Id(ptr, s.nextId), v))
  {
    hide Reachable, FreeToWrite, Unallocated, Overwritten;
    s' := Overwritten(s, x, Arc(Id(ptr, s.nextId), v));
    assert Next(ecd, s, Atomic(x, ptr, v), s');
    ReachableNext(ecd, s, Atomic(x, ptr, v), s');
  }

  /** How far thread `t` has got with waiting since state `s0`; values are as they were. */
  ghost predicate AwaitsAt(s0: State, t: Tid, x: Addr, a: Arc, ph: Phase, s: State) {
    && t in s0.threads && s.threads == s0.threads[t := Awaiting(x, a, ph)]
    && (forall y: Addr :: Cur(s, y) == Cur(s0, y) && HistAt(s, y) == HistAt(s0, y))
    && s.changed == s0.changed && s.tokens == s0.tokens && s.atomics == s0.atomics && s.nextId == s0.nextId
  }

  lemma AwaitsNext(s0: State, t: Tid, x: Addr, a: Arc, ph: Phase, s: State, ph': Phase)
    requires AwaitsAt(s0, t, x, a, ph, s)
    ensures t in s.threads && AwaitsAt(s0, t, x, a, ph', SetPhase(s, t, ph'))
    ensures forall n :: AwaitsAt(s0, t, x, a, ph', SetPhase(s, t, ph').(nextCb := n))
    ensures forall y: Addr, list ::
              AwaitsAt(s0, t, x, a, ph', SetPhase(SetVar(s, y, s.vars[y].(waiting := list)), t, ph'))
  {
    hide AwaitNonZero;
    assert s0.threads[t := Awaiting(x, a, ph)][t := Awaiting(x, a, ph')] == s0.threads[t := Awaiting(x, a, ph')];
  }

  lemma AwaitsThread(s0: State, t: Tid, x: Addr, a: Arc, ph: Phase, s: State)
    requires AwaitsAt(s0, t, x, a, ph, s)
    ensures t in s.threads && s.threads[t] == Awaiting(x, a, ph)
    ensures s.threads[t].phase == ph && s.threads[t].run.Done? && s.threads[t].run.out.Retried?
    ensures s.threads[t].body == AwaitNonZero(x)
    ensures LogOf(s.threads[t]) == map[x := LogVar.Read(a)] && Waits(LogOf(s.threads[t])) == map[x := a]
    ensures map[x := a].Keys == {x} && {x} - {x} == {} && {} + {x} == {x}
    ensures OthersCalm(s0, t) ==> OthersCalm(s, t)
    ensures Cur(s, x) == Cur(s0, x) && s.changed == s0.changed
  {
    AwaitingLog(x, a, ph);
    hide WriteGuards, ReadGuards, LogOf, Waits, Cur, HistAt, AwaitNonZero;
  }

  lemma WaiterIsFree(s: State, t: Tid, x: Addr)
    requires t in s.threads && OthersCalm(s, t)
    requires var ph := s.threads[t].phase; ph.Registering? || ph.Checking? || ph.Parked? || ph.Running?
    ensures FreeToRead(s, x) && FreeToWrite(s, x) && ListFree(s, x)
  {
    CalmIsFree(s, t, x);
  }

  /** Having found zero the thread goes to sleep. */
  lemma AwaitParks(ecd: bool, s0: State, s: State, t: Tid, x: Addr, a: Arc) returns (s': State)
    requires Reachable(ecd, s) && AwaitsAt(s0, t, x, a, Running, s) && OthersCalm(s0, t)
    requires Cur(s0, x) == a && Cb(t, s.nextCb) !in s0.changed
    ensures Reachable(ecd, s') && AwaitsAt(s0, t, x, a, Parked(Cb(t, s.nextCb)), s')
  {
    hide *;
    var cb := Cb(t, s.nextCb);
    AwaitsThread(s0, t, x, a, Running, s);
    AwaitsNext(s0, t, x, a, Running, s, Registering(cb, {x}, {}));
    var s1 := Blocks(ecd, s, t);
    AwaitsThread(s0, t, x, a, Registering(cb, {x}, {}), s1);
    WaiterIsFree(s1, t, x);
    AwaitsNext(s0, t, x, a, Registering(cb, {x}, {}), s1, Checking(cb, x, {}, {}));
    var s2 := Registers(ecd, s1, t, x);
    AwaitsThread(s0, t, x, a, Checking(cb, x, {}, {}), s2);
    WaiterIsFree(s2, t, x);
    SamePointer(a);
    AwaitsNext(s0, t, x, a, Checking(cb, x, {}, {}), s2, Registering(cb, {}, {x}));
    var s3 := ChecksSame(ecd, s2, t);
    AwaitsThread(s0, t, x, a, Registering(cb, {}, {x}), s3);
    AwaitsNext(s0, t, x, a, Registering(cb, {}, {x}), s3, Polling(cb));
    var s4 := StartsPolling(ecd, s3, t);
    AwaitsThread(s0, t, x, a, Polling(cb), s4);
    AwaitsNext(s0, t, x, a, Polling(cb), s4, Parked(cb));
    s' := Parks(ecd, s4, t);
  }

  lemma SamePointer(a: Arc)
    ensures PtrEq(a, a)
  {
  }

  lemma AwaitsAtFirst(s: State, t: Tid, x: Addr, a: Arc)
    requires t in s.threads
    ensures AwaitsAt(s, t, x, a, Running, SetThread(s, t, Awaiting(x, a, Running)))
  {
    hide AwaitNonZero;
  }

  /** A thread asleep, from the start. */
  lemma SomeThreadSleeps(ecd: bool, x: Addr) returns (s: State)
    ensures Reachable(ecd, s) && AwaitsAt(StartState({0}), 0, x, FirstArc(x), Parked(Cb(0, 0)), s)
  {
    hide *;
    var start := StartState({0});
    ReachableStart(ecd, {0});
    StartIdle({0}, 0, x);
    IdleIsFree(start, 0, x);
    FirstIsZero(x);
    s := AwaitRuns(ecd, start, 0, x);
    AwaitsAtFirst(start, 0, x, FirstArc(x));
    RunningCbs(start, 0, Awaiting(x, FirstArc(x), Running));
    s := AwaitParks(ecd, start, s, 0, x, FirstArc(x));
  }

  lemma RunningCbs(s: State, t: Tid, th: Thread)
    ensures SetThread(s, t, th).nextCb == s.nextCb
  {
  }

  lemma IdleIsFree(s: State, t: Tid, x: Addr)
    requires t in s.threads && OthersCalm(s, t) && s.threads[t].phase.Idle?
    ensures FreeToRead(s, x) && FreeToWrite(s, x) && ListFree(s, x)
  {
    CalmIsFree(s, t, x);
  }

  lemma FirstIsZero(x: Addr)
    ensures FirstArc(x).val == Num(0)
  {
  }

  lemma AsleepHoldsNothing(s0: State, t: Tid, x: Addr, a: Arc, cb: Cb, s: State, ptr: nat)
    requires AwaitsAt(s0, t, x, a, Parked(cb), s) && Unallocated(s0, ptr)
    ensures Unallocated(s, ptr)
  {
    AwaitsThread(s0, t, x, a, Parked(cb), s);
    assert HeldBy(s.threads[t]) == {};
    hide AwaitNonZero, HeldBy, HistAt;
    forall b | InUse(s, b) ensures InUse(s0, b) {
      if InVariable(s, b) {
        var y: Addr :| Cur(s, y) == b;
        assert Cur(s0, y) == b;
      } else {
        var u :| u in s.threads && b in HeldBy(s.threads[u]);
        assert u != t && s.threads[u] == s0.threads[u];
        assert InThread(s0, b);
      }
    }
  }

  /** What `write_atomic` leaves of a sleeper's world. */
  lemma PassedBy(s: State, t: Tid, x: Addr, a: Arc, v: Val, s': State, n: nat)
    requires t in s.threads && s.threads.Keys == {t} && Asleep(s.threads[t].phase)
    requires s.threads[t].phase.cb !in s.changed && t !in s.tokens
    requires x in Waits(LogOf(s.threads[t])) && Waits(LogOf(s.threads[t]))[x] == a && HistAt(s, x) == [a]
    requires s' == Overwritten(s, x, Arc(Id(n, s.nextId), v))
    ensures SleepsOn(s', t) && t !in s'.tokens && s'.threads == s.threads
    ensures MissedAtomic(s', x, Waits(LogOf(s'.threads[t]))[x])
    ensures Payloads(Contents(s'))[x] == v
  {
    hide LogOf, Waits;
    assert HistAt(s', x)[0] == a && HistAt(s', x)[1].id.serial in s'.atomics;
  }

  lemma AwaitsHist(s0: State, t: Tid, x: Addr, a: Arc, ph: Phase, s: State)
    requires AwaitsAt(s0, t, x, a, ph, s) && s0.threads.Keys == {t} && HistAt(s0, x) == [a]
    requires s0.changed == {} && s0.tokens == {}
    ensures s.threads.Keys == {t} && HistAt(s, x) == [a] && s.changed == {} && s.tokens == {}
  {
    hide Cur, AwaitNonZero;
  }

  /** `write_atomic` wakes nobody. A thread waits for `x` to be other than zero; `write_atomic` makes it
      so; and although no commit is in flight the thread sleeps on, neither signalled nor holding a
      token, while its closure would succeed at once. */
  lemma WriteAtomicWakesNobody(ecd: bool, x: Addr) returns (s: State)
    ensures Reachable(ecd, s) && SleepsOn(s, 0) && Retrying(s.threads[0]) && 0 !in s.tokens
    ensures x in Waits(LogOf(s.threads[0])) && MissedAtomic(s, x, Waits(LogOf(s.threads[0]))[x])
    ensures RunDirect(s.threads[0].body, Payloads(Contents(s))).Finished?
  {
    var start, a, ph := StartState({0}), FirstArc(x), Parked(Cb(0, 0));
    assert ph.Parked? && ph.cb == Cb(0, 0) && Asleep(ph) && !ph.Idle?;
    hide *;
    StartIdle({0}, 0, x);
    var s1 := SomeThreadSleeps(ecd, x);
    AwaitsThread(start, 0, x, a, ph, s1);
    AwaitsHist(start, 0, x, a, ph, s1);
    WaiterIsFree(s1, 0, x);
    StartFree({0}, 1);
    AsleepHoldsNothing(start, 0, x, a, Cb(0, 0), s1, 1);
    s := AtomicReaches(ecd, s1, x, 1, Num(2));
    PassedBy(s1, 0, x, a, Num(2), s, 1);
    AwaitFinishes(x, Payloads(Contents(s)));
    RetryingMeans(s.threads[0]);
  }

  lemma RetryingMeans(th: Thread)
    ensures !th.phase.Idle? && th.run.Done? && th.run.out.Retried? ==> Retrying(th)
  {
  }

  // ---------------------------------------------------------------- a sleeper whose retry is not justified

  /** Read `x` until it is not zero, or else overwrite it and retry. */
  ghost function AwaitOrWrite(x: Addr): Body {
    assert Closed(WriteVar(x, Nothing, Retry));
    AwaitOr(x, WriteVar(x, Nothing, Retry))
  }

  lemma WriteAsks(ecd: bool, x: Addr, c: Ctx)
    requires c.log == map[] && c.env == NO_ANSWERS
    ensures Closed(WriteVar(x, Nothing, Retry))
    ensures Exec(ecd, WriteVar(x, Nothing, Retry), c) == Ask(AskAlloc(Nothing), {}, NO_ANSWERS)
  {
    assert Arcs(map[]) == {};
  }

  lemma WriteRetries(ecd: bool, x: Addr, c: Ctx, id: Id)
    requires c.log == map[] && c.env == Replay([], [id])
    ensures Closed(WriteVar(x, Nothing, Retry))
    ensures Exec(ecd, WriteVar(x, Nothing, Retry), c) ==
            Done(Retried, Ctx(map[x := LogVar.Write(Arc(id, Nothing))], NO_ANSWERS, c.picks))
  {
    assert [id][1..] == [];
    var p, c1 := WriteVar(x, Nothing, Retry), Ctx(map[x := LogVar.Write(Arc(id, Nothing))], NO_ANSWERS, c.picks);
    assert Closed(p);
    assert LogWrite(c.log, x, Arc(id, Nothing)) == c1.log;
    assert Alloc(c.env, Nothing) == Given(Arc(id, Nothing), NO_ANSWERS);
    assert DoCall(ecd, p, c) == Continue(Retry, c1);
    assert Exec(ecd, p, c) == Exec(ecd, Retry, c1);
  }

  lemma OnePart(x: Addr, a: Arc)
    ensures Arcs(map[x := LogVar.Read(a)]) == {a}
  {
    var log := map[x := LogVar.Read(a)];
    assert x in log && a in log[x].Parts();
  }

  /** The three stages of its run: it asks for `x`, finds zero and asks for a box, and retries with the
      read of its first branch forgotten. */
  lemma AwaitOrWriteBegins(ecd: bool, x: Addr)
    ensures RunFrom(ecd, AwaitOrWrite(x), [], []) == Ask(AskLoad(x), {}, NO_ANSWERS)
  {
    hide Exec, AwaitOr;
    AwaitOrAsks(ecd, x, WriteVar(x, Nothing, Retry), Ctx(map[], NO_ANSWERS, []));
  }

  lemma AwaitOrWriteBoxes(ecd: bool, x: Addr, a: Arc)
    requires a.val == Num(0)
    ensures RunFrom(ecd, AwaitOrWrite(x), [Access(x, a)], []) == Ask(AskAlloc(Nothing), {a}, NO_ANSWERS)
  {
    var c := Ctx(map[], Replay([Access(x, a)], []), []);
    LoadHead(x, a, [Access(x, a)]);
    assert [Access(x, a)][1..] == [];
    WriteAsks(ecd, x, SecondCtx(c, Ctx(map[x := LogVar.Read(a)], NO_ANSWERS, [true])));
    OnePart(x, a);
    hide Exec, AwaitOr, Load, Arcs;
    AwaitOrSecond(ecd, x, WriteVar(x, Nothing, Retry), c, a, NO_ANSWERS);
  }

  lemma WriteHidesRead(x: Addr, a: Arc, b: Arc)
    ensures Combine(map[x := LogVar.Write(b)], map[x := LogVar.Read(a)]) == map[x := LogVar.Write(b)]
    ensures Waits(map[x := LogVar.Write(b)]) == map[]
  {
  }

  lemma LoadWithAlloc(x: Addr, a: Arc, id: Id)
    ensures Load(Replay([Access(x, a)], [id]), x) == Given(a, Replay([], [id]))
  {
    assert [Access(x, a)][1..] == [];
  }

  lemma AwaitOrWriteRetries(ecd: bool, x: Addr, a: Arc, id: Id)
    requires a.val == Num(0)
    ensures RunFrom(ecd, AwaitOrWrite(x), [Access(x, a)], [id]) ==
            Done(Retried, Ctx(map[x := LogVar.Write(Arc(id, Nothing))], NO_ANSWERS, [false]))
  {
    var c := Ctx(map[], Replay([Access(x, a)], [id]), []);
    LoadWithAlloc(x, a, id);
    WriteRetries(ecd, x, SecondCtx(c, Ctx(map[x := LogVar.Read(a)], Replay([], [id]), [true])), id);
    WriteHidesRead(x, a, Arc(id, Nothing));
    hide Exec, AwaitOr, Load, Combine;
    AwaitOrSecond(ecd, x, WriteVar(x, Nothing, Retry), c, a, Replay([], [id]));
  }

  ghost function Mistaken(x: Addr, a: Arc, id: Id, ph: Phase): Thread {
    Thread(AwaitOrWrite(x), [Access(x, a)], [id],
           Done(Retried, Ctx(map[x := LogVar.Write(Arc(id, Nothing))], NO_ANSWERS, [false])), ph)
  }

  /** Thread `t` has become `th`; variables, lists and flags are as they were. */
  ghost predicate Ran(s0: State, t: Tid, th: Thread, s: State) {
    && t in s0.threads && s.threads == s0.threads[t := th]
    && s.vars == s0.vars && s.abs == s0.abs && s.changed == s0.changed && s.tokens == s0.tokens
    && s.nextCb >= s0.nextCb
  }

  lemma RanNext(s0: State, t: Tid, th: Thread, s: State, th': Thread)
    requires Ran(s0, t, th, s)
    ensures t in s.threads && s.threads[t] == th && Ran(s0, t, th', SetThread(s, t, th'))
    ensures forall n :: n >= s.nextCb ==> Ran(s0, t, th', SetThread(s, t, th').(nextCb := n))
    ensures forall n :: Ran(s0, t, th', SetThread(s, t, th').(nextId := n))
  {
    assert s0.threads[t := th][t := th'] == s0.threads[t := th'];
  }

  lemma RanPhase(s0: State, t: Tid, th: Thread, s: State, ph: Phase)
    requires Ran(s0, t, th, s)
    ensures t in s.threads && s.threads[t] == th && Ran(s0, t, th.(phase := ph), SetPhase(s, t, ph))
    ensures forall n :: n >= s.nextCb ==> Ran(s0, t, th.(phase := ph), SetPhase(s, t, ph).(nextCb := n))
  {
    RanNext(s0, t, th, s, th.(phase := ph));
  }

  lemma RanFrees(s0: State, t: Tid, th: Thread, s: State, ptr: nat)
    requires Ran(s0, t, th, s) && Unallocated(s0, ptr) && forall a :: a in HeldBy(th) ==> a.id.ptr != ptr
    ensures Unallocated(s, ptr)
  {
    hide HeldBy;
    forall a | InUse(s, a) ensures a.id.ptr != ptr {
      if InVariable(s, a) {
        var x: Addr :| Cur(s, x) == a;
        assert Cur(s0, x) == a;
        assert InUse(s0, a);
      } else {
        var u :| u in s.threads && a in HeldBy(s.threads[u]);
        if u != t {
          assert s.threads[u] == s0.threads[u];
          assert InThread(s0, a);
        }
      }
    }
  }

  lemma MistakenLog(x: Addr, a: Arc, id: Id, ph: Phase)
    ensures var th := Mistaken(x, a, id, ph);
            && th.phase == ph && th.run.Done? && th.run.out.Retried? && Waits(LogOf(th)) == map[]
            && forall ph' :: th.(phase := ph') == Mistaken(x, a, id, ph')
  {
    WriteHidesRead(x, a, Arc(id, Nothing));
    hide AwaitOrWrite, Waits;
  }

  /** With nothing to wait for it goes to sleep at once. */
  lemma MistakenParks(ecd: bool, s0: State, s: State, t: Tid, x: Addr, a: Arc, id: Id) returns (s': State)
    requires Reachable(ecd, s) && Ran(s0, t, Mistaken(x, a, id, Running), s) && Cb(t, s.nextCb) !in s0.changed
    ensures Reachable(ecd, s') && Ran(s0, t, Mistaken(x, a, id, Parked(Cb(t, s.nextCb))), s')
  {
    var cb := Cb(t, s.nextCb);
    var nothing: map<Addr, Arc> := map[];
    assert nothing.Keys == {} && s.changed == s0.changed;
    hide *;
    MistakenLog(x, a, id, Running);
    RanPhase(s0, t, Mistaken(x, a, id, Running), s, Registering(cb, {}, {}));
    var s1 := Blocks(ecd, s, t);
    MistakenLog(x, a, id, Registering(cb, {}, {}));
    RanPhase(s0, t, Mistaken(x, a, id, Registering(cb, {}, {})), s1, Polling(cb));
    var s2 := StartsPolling(ecd, s1, t);
    MistakenLog(x, a, id, Polling(cb));
    RanPhase(s0, t, Mistaken(x, a, id, Polling(cb)), s2, Parked(cb));
    RanKeeps(s0, t, Mistaken(x, a, id, Polling(cb)), s2);
    s' := Parks(ecd, s2, t);
  }

  lemma RanKeeps(s0: State, t: Tid, th: Thread, s: State)
    requires Ran(s0, t, th, s)
    ensures s.changed == s0.changed && s.tokens == s0.tokens
    ensures forall u :: u in s0.threads && u != t ==> u in s.threads && s.threads[u] == s0.threads[u]
    ensures forall x: Addr :: Cur(s, x) == Cur(s0, x) && ListAt(s, x) == ListAt(s0, x)
    ensures s.threads.Keys == s0.threads.Keys
  {
  }

  /** The run, up to its `retry`. */
  lemma MistakenRuns(ecd: bool, s: State, t: Tid, x: Addr, ptr: nat) returns (s': State)
    requires Reachable(ecd, s) && t in s.threads && s.threads[t].phase.Idle? && OthersCalm(s, t)
    requires Cur(s, x).val == Num(0) && Cur(s, x).id.ptr != ptr && Unallocated(s, ptr)
    ensures Reachable(ecd, s') && Ran(s, t, Mistaken(x, Cur(s, x), Id(ptr, s.nextId), Running), s')
    ensures s'.nextCb == s.nextCb
  {
    var a, id, body := Cur(s, x), Id(ptr, s.nextId), AwaitOrWrite(x);
    var asks := Thread(body, [], [], Ask(AskLoad(x), {}, NO_ANSWERS), Running);
    var boxes := Thread(body, [Access(x, a)], [], Ask(AskAlloc(Nothing), {a}, NO_ANSWERS), Running);
    BeginsAsking(ecd, x);
    LoadsAndBoxes(ecd, x, a, id);
    HoldsOne(boxes, a);
    hide Reachable, Begin, Loaded, Allocated, AwaitOrWrite, HeldBy, Cur, OthersCalm, FreeToRead, Unallocated, InUse;
    RanItself(s, t);
    var s1 := Starts(ecd, s, t, body);
    RanNext(s, t, s.threads[t], s, asks);
    AskingIsFree(s, t, asks, s1, x);
    var s2 := Loads(ecd, s1, t);
    RanNext(s, t, asks, s1, boxes);
    RanFrees(s, t, boxes, s2, ptr);
    s' := BoxesAt(ecd, s2, t, ptr);
    RanNext(s, t, boxes, s2, Mistaken(x, a, id, Running));
  }

  lemma BeginsAsking(ecd: bool, x: Addr)
    ensures Begin(ecd, AwaitOrWrite(x)) == Thread(AwaitOrWrite(x), [], [], Ask(AskLoad(x), {}, NO_ANSWERS), Running)
  {
    AwaitOrWriteBegins(ecd, x);
    hide RunFrom, AwaitOrWrite;
  }

  lemma LoadsAndBoxes(ecd: bool, x: Addr, a: Arc, id: Id)
    requires a.val == Num(0)
    ensures var body := AwaitOrWrite(x);
            var asks := Thread(body, [], [], Ask(AskLoad(x), {}, NO_ANSWERS), Running);
            var boxes := Thread(body, [Access(x, a)], [], Ask(AskAlloc(Nothing), {a}, NO_ANSWERS), Running);
            && Loaded(ecd, asks, x, a) == boxes
            && Allocated(ecd, boxes, id) == Mistaken(x, a, id, Running)
  {
    AwaitOrWriteBoxes(ecd, x, a);
    AwaitOrWriteRetries(ecd, x, a, id);
    assert [] + [Access(x, a)] == [Access(x, a)] && [] + [id] == [id];
    hide RunFrom, AwaitOrWrite;
  }

  lemma HoldsOne(th: Thread, a: Arc)
    requires th.phase.Running? && th.run.Ask? && th.run.held == {a}
    ensures HeldBy(th) == {a}
  {
  }

  lemma RanItself(s: State, t: Tid)
    requires t in s.threads
    ensures Ran(s, t, s.threads[t], s)
  {
  }

  lemma AskingIsFree(s0: State, t: Tid, th: Thread, s: State, x: Addr)
    requires Ran(s0, t, th, s) && OthersCalm(s0, t) && th.phase.Running?
    ensures FreeToRead(s, x) && Cur(s, x) == Cur(s0, x)
  {
    assert OthersCalm(s, t) by { hide WriteGuards, ReadGuards; }
    CalmIsFree(s, t, x);
  }

  lemma ParkedIsCalm(s: State, ph: Phase)
    requires s.threads.Keys == {0, 1} && s.threads[0].phase == ph && ph.Parked?
    ensures OthersCalm(s, 1)
  {
  }

  lemma TwoAsleep(s: State)
    requires s.threads.Keys == {0, 1} && Asleep(s.threads[0].phase) && s.threads[0].phase.cb !in s.changed
    requires s.threads[1].phase.Idle?
    ensures SleepsOn(s, 0)
  {
  }

  lemma NothingToMiss(s: State, th: Thread)
    requires Waits(LogOf(th)) == map[]
    ensures NothingMissed(s, th)
  {
  }

  lemma ParkedHoldsNothing(th: Thread)
    requires th.phase.Parked?
    ensures HeldBy(th) == {} && Asleep(th.phase)
  {
  }

  lemma PayloadAt(s: State, x: Addr)
    ensures Payloads(Contents(s))[x] == Cur(s, x).val
  {
  }

  /** The thread that is mistaken, asleep. */
  ghost function MistakenSleeper(x: Addr): (th: Thread)
    ensures th.phase == Parked(Cb(0, 0)) && th.body == AwaitOrWrite(x)
  {
    Mistaken(x, FirstArc(x), Id(1, 0), Parked(Cb(0, 0)))
  }

  lemma MistakenSleeps(ecd: bool, x: Addr) returns (s: State)
    ensures Reachable(ecd, s) && Ran(StartState({0, 1}), 0, MistakenSleeper(x), s)
  {
    hide *;
    var start := StartState({0, 1});
    ReachableStart(ecd, {0, 1});
    StartIdle({0, 1}, 0, x);
    FirstIsZero(x);
    FirstEven(x);
    StartFree({0, 1}, 1);
    var s1 := MistakenRuns(ecd, start, 0, x, 1);
    s := MistakenParks(ecd, start, s1, 0, x, FirstArc(x), Id(1, 0));
    IsMistakenSleeper(x);
  }

  lemma IsMistakenSleeper(x: Addr)
    ensures MistakenSleeper(x) == Mistaken(x, FirstArc(x), Id(1, 0), Parked(Cb(0, 0)))
  {
    hide AwaitOrWrite;
  }

  lemma TwoStart(x: Addr)
    ensures var s := StartState({0, 1});
            && s.threads.Keys == {0, 1} && s.threads[1].phase.Idle? && ListAt(s, x) == []
            && s.changed == {} && s.tokens == {}
  {
    hide *;
    StartIdle({0, 1}, 1, x);
  }

  /** While the first thread runs, the second is as it was. */
  lemma SecondIdle(x: Addr, th: Thread, s: State)
    requires Ran(StartState({0, 1}), 0, th, s)
    ensures s.threads.Keys == {0, 1} && s.threads[0] == th && s.threads[1].phase.Idle?
    ensures ListAt(s, x) == [] && s.changed == {} && s.tokens == {}
  {
    TwoStart(x);
    hide StartState;
  }

  /** The other thread has room to commit. */
  lemma MistakenLeavesRoom(x: Addr, s: State)
    requires Ran(StartState({0, 1}), 0, MistakenSleeper(x), s)
    ensures s.threads.Keys == {0, 1} && s.threads[0] == MistakenSleeper(x) && s.threads[1].phase.Idle?
    ensures Unallocated(s, 3) && OthersCalm(s, 1) && ListAt(s, x) == [] && s.changed == {} && s.tokens == {}
  {
    var sleeper := MistakenSleeper(x);
    assert sleeper.phase.Parked?;
    hide *;
    SecondIdle(x, sleeper, s);
    StartFree({0, 1}, 3);
    ParkedHoldsNothing(sleeper);
    RanFrees(StartState({0, 1}), 0, sleeper, s, 3);
    ParkedIsCalm(s, sleeper.phase);
  }

  lemma SleeperWaitsForNothing(x: Addr)
    ensures Retrying(MistakenSleeper(x)) && Waits(LogOf(MistakenSleeper(x))) == map[]
  {
    assert Parked(Cb(0, 0)).Parked?;
    hide AwaitOrWrite, Waits, LogOf;
    MistakenLog(x, FirstArc(x), Id(1, 0), Parked(Cb(0, 0)));
  }

  /** With `or`, a sleeper's retry need not be justified. A thread reads `x` in its first branch, finds
      zero, and in its second overwrites `x` and retries: it waits for nothing. Another thread then
      commits another value; and although nothing is missed and no commit is in flight the first
      sleeps on, while its closure would succeed at once. */
  lemma OrSleepsUnjustified(ecd: bool, x: Addr) returns (s: State)
    ensures Reachable(ecd, s) && SleepsOn(s, 0) && Retrying(s.threads[0]) && 0 !in s.tokens
    ensures NothingMissed(s, s.threads[0]) && Waits(LogOf(s.threads[0])) == map[]
    ensures RunDirect(s.threads[0].body, Payloads(Contents(s))) == Finished(Num(2), Payloads(Contents(s)))
  {
    hide *;
    var s0 := MistakenSleeps(ecd, x);
    MistakenLeavesRoom(x, s0);
    s := StoreCommits(ecd, s0, 1, x, Num(2), 3);
    StoredMeans(s0, 1, x, Arc(Id(3, s0.nextId), Num(2)), s);
    SleepsThrough(s, x);
    SleeperWaitsForNothing(x);
    NothingToMiss(s, s.threads[0]);
    PayloadAt(s, x);
    AwaitOrWriteFinishes(x, Payloads(Contents(s)));
  }

  lemma SleepsThrough(s: State, x: Addr)
    requires s.threads.Keys == {0, 1} && s.threads[0] == MistakenSleeper(x) && s.threads[1].phase.Idle?
    requires s.changed == {}
    ensures SleepsOn(s, 0)
  {
    hide MistakenSleeper;
    TwoAsleep(s);
  }

  lemma AwaitOrWriteFinishes(x: Addr, m: Vals)
    requires m[x] == Num(2)
    ensures RunDirect(AwaitOrWrite(x), m) == Finished(Num(2), m)
  {
    hide AwaitOr;
    AwaitOrFinishes(x, WriteVar(x, Nothing, Retry), m);
  }

  // ---------------------------------------------------------------- a commit that is not left-biased

  ghost function OneOrMore(x: Addr): Body {
    NonZeroOrOne(x)
  }

  /** The thread that found zero and took its second branch. */
  ghost function Skipping(x: Addr, a: Arc, ph: Phase): Thread {
    Thread(OneOrMore(x), [Access(x, a)], [],
           Done(Ok(Num(1)), Ctx(map[x := ReadObsolete(a)], NO_ANSWERS, [false])), ph)
  }

  lemma SkippingBegins(ecd: bool, x: Addr, a: Arc)
    requires a.val == Num(0)
    ensures var asks := Thread(OneOrMore(x), [], [], Ask(AskLoad(x), {}, NO_ANSWERS), Running);
            Begin(ecd, OneOrMore(x)) == asks && Loaded(ecd, asks, x, a) == Skipping(x, a, Running)
  {
    AwaitOrAsks(ecd, x, Return(Num(1)), Ctx(map[], NO_ANSWERS, []));
    NonZeroOrOneRuns(ecd, x, a);
    assert [] + [Access(x, a)] == [Access(x, a)];
    hide Exec, AwaitOr;
  }

  lemma SkippingLog(x: Addr, a: Arc, ph: Phase)
    ensures var th := Skipping(x, a, ph);
            && th.phase == ph && th.run.Done? && th.run.out == Ok(Num(1))
            && LogOf(th) == map[x := ReadObsolete(a)] && LogOf(th).Keys == {x}
            && forall ph' :: th.(phase := ph') == Skipping(x, a, ph')
  {
    hide OneOrMore;
  }

  lemma SkippingRuns(ecd: bool, s: State, t: Tid, x: Addr) returns (s': State)
    requires Reachable(ecd, s) && t in s.threads && s.threads[t].phase.Idle? && OthersCalm(s, t)
    requires Cur(s, x).val == Num(0)
    ensures Reachable(ecd, s') && Ran(s, t, Skipping(x, Cur(s, x), Running), s')
  {
    var a, body := Cur(s, x), OneOrMore(x);
    var asks := Thread(body, [], [], Ask(AskLoad(x), {}, NO_ANSWERS), Running);
    SkippingBegins(ecd, x, a);
    hide Reachable, Begin, Loaded, OneOrMore, HeldBy, Cur, OthersCalm, FreeToRead, InUse;
    RanItself(s, t);
    var s1 := Starts(ecd, s, t, body);
    RanNext(s, t, s.threads[t], s, asks);
    AskingIsFree(s, t, asks, s1, x);
    s' := Loads(ecd, s1, t);
    RanNext(s, t, asks, s1, Skipping(x, a, Running));
  }

  lemma SkippingHolds(x: Addr, a: Arc, ptr: nat)
    requires a.id.ptr != ptr
    ensures forall b :: b in HeldBy(Skipping(x, a, Running)) ==> b.id.ptr != ptr
  {
    assert Arcs(map[x := ReadObsolete(a)]) <= {a};
    hide OneOrMore;
  }

  lemma RunningIsCalm(s: State, ph: Phase)
    requires s.threads.Keys == {0, 1} && s.threads[0].phase == ph && ph.Running?
    ensures OthersCalm(s, 1)
  {
  }

  /** An obsolete read is neither locked nor compared. */
  lemma ObsoleteGranted(s: State, t: Tid, x: Addr, a: Arc)
    requires t in s.threads && s.threads[t] == Skipping(x, a, Locking({x}, {}, {}))
    ensures LockStep(s, t, x, SetPhase(s, t, Locking({}, {}, {})))
  {
    SkippingLog(x, a, Locking({x}, {}, {}));
    assert {x} - {x} == {};
    hide LogOf, FreeToRead, FreeToWrite;
  }

  lemma PhaseSet(s: State, t: Tid, ph: Phase)
    requires t in s.threads
    ensures var s' := SetPhase(s, t, ph);
            && t in s'.threads && s'.threads[t] == s.threads[t].(phase := ph)
            && forall x: Addr :: AbsAt(s', x) == AbsAt(s, x)
  {
  }

  lemma PayloadAbs(s: State, x: Addr)
    ensures Payloads(s.abs)[x] == AbsAt(s, x).val
  {
  }

  /** The thread that skipped its first branch, from the start. */
  ghost function Skipper(x: Addr, ph: Phase): (th: Thread)
    ensures th.phase == ph && th.body == OneOrMore(x)
    ensures th.run.Done? && th.run.out == Ok(Num(1))
  {
    Skipping(x, FirstArc(x), ph)
  }

  lemma SkipperLog(x: Addr, ph: Phase)
    ensures LogOf(Skipper(x, ph)).Keys == {x}
    ensures forall ph' :: Skipper(x, ph).(phase := ph') == Skipper(x, ph')
  {
    SkippingLog(x, FirstArc(x), ph);
    hide OneOrMore, LogOf;
  }

  lemma SkipperRuns(ecd: bool, x: Addr) returns (s: State)
    ensures Reachable(ecd, s) && Ran(StartState({0, 1}), 0, Skipper(x, Running), s)
  {
    hide *;
    ReachableStart(ecd, {0, 1});
    StartIdle({0, 1}, 0, x);
    FirstIsZero(x);
    s := SkippingRuns(ecd, StartState({0, 1}), 0, x);
    IsSkipper(x, Running);
  }

  lemma IsSkipper(x: Addr, ph: Phase)
    ensures Skipper(x, ph) == Skipping(x, FirstArc(x), ph)
  {
    hide OneOrMore;
  }

  lemma SkipperHolds(x: Addr)
    ensures forall b :: b in HeldBy(Skipper(x, Running)) ==> b.id.ptr != 1
  {
    FirstEven(x);
    SkippingHolds(x, FirstArc(x), 1);
    hide HeldBy, OneOrMore;
  }

  lemma SkipperLeavesRoom(x: Addr, s: State)
    requires Ran(StartState({0, 1}), 0, Skipper(x, Running), s)
    ensures s.threads.Keys == {0, 1} && s.threads[0] == Skipper(x, Running) && s.threads[1].phase.Idle?
    ensures Unallocated(s, 1) && OthersCalm(s, 1) && ListAt(s, x) == []
  {
    var runner := Skipper(x, Running);
    assert runner.phase.Running?;
    hide *;
    SecondIdle(x, runner, s);
    StartFree({0, 1}, 1);
    SkipperHolds(x);
    RanFrees(StartState({0, 1}), 0, runner, s, 1);
    RunningIsCalm(s, runner.phase);
  }

  /** The first thread goes on to its lock point: there is nothing to lock or compare. */
  lemma SkipperLocks(ecd: bool, s: State, x: Addr) returns (s': State)
    requires Reachable(ecd, s) && 0 in s.threads && s.threads[0] == Skipper(x, Running)
    ensures Reachable(ecd, s') && 0 in s'.threads && s'.threads[0] == Skipper(x, Locking({}, {}, {}))
    ensures AbsAt(s', x) == AbsAt(s, x)
  {
    var ph1, ph2 := Locking({x}, {}, {}), Locking({}, {}, {});
    assert Running.Running? && ph1.Locking?;
    hide *;
    SkipperLog(x, Running);
    var s1 := EntersCommit(ecd, s, 0);
    PhaseSet(s, 0, ph1);
    SkipperLog(x, ph1);
    IsSkipper(x, ph1);
    ObsoleteGranted(s1, 0, x, FirstArc(x));
    s' := Locks(ecd, s1, 0, x, ph2);
    PhaseSet(s1, 0, ph2);
  }

  /** `or` does not prefer its first branch under interference. A thread finds `x` zero and takes its
      second branch; another commits two to `x`; and the first still commits, although at its lock
      point its closure, run atomically, would have taken the first branch. */
  lemma SecondBranchCommits(ecd: bool, x: Addr) returns (s: State, s': State)
    ensures Reachable(ecd, s) && 0 in s.threads && CommitStep(ecd, s, 0, Decide, s')
    ensures s.threads[0].run.Done? && s.threads[0].run.out == Ok(Num(1))
    ensures RunDirect(s.threads[0].body, Payloads(s.abs)) == Finished(Num(2), Payloads(s.abs))
  {
    var ph := Locking({}, {}, {});
    assert ph.Locking? && ph.todo == {};
    hide *;
    var s0 := SkipperRuns(ecd, x);
    SkipperLeavesRoom(x, s0);
    var s1 := StoreCommits(ecd, s0, 1, x, Num(2), 1);
    StoredMeans(s0, 1, x, Arc(Id(1, s0.nextId), Num(2)), s1);
    s := SkipperLocks(ecd, s1, x);
    PayloadAbs(s, x);
    OneOrMoreFinishes(x, Payloads(s.abs));
    s' := DecidesTo(ecd, s, 0);
  }

  lemma OneOrMoreFinishes(x: Addr, m: Vals)
    requires m[x] == Num(2)
    ensures RunDirect(OneOrMore(x), m) == Finished(Num(2), m)
  {
    hide AwaitOr;
    AwaitOrFinishes(x, Return(Num(1)), m);
  }

  lemma DecidesTo(ecd: bool, s: State, t: Tid) returns (s': State)
    requires t in s.threads && s.threads[t].phase.Locking? && s.threads[t].phase.todo == {}
    requires s.threads[t].run.Done? && s.threads[t].run.out.Ok?
    ensures CommitStep(ecd, s, t, Decide, s')
  {
    hide LogOf, AllInstalled, Decision;
    s' := SetPhase(s, t, Publishing(s.threads[t].phase.rd, s.threads[t].phase.wr)).(
      abs := AllInstalled(LogOf(s.threads[t]), s.abs), events := s.events + [Decision(s, t)]);
  }
}
