/** Strict serializability: every concurrent run is a run of a store in which each successful
    commit, and each `write_atomic`, happens in one step. */
module Serializability {
  import opened Values
  import opened Logs
  import opened Programs
  import opened LogLaws
  import opened RunFacts
  import opened Machine
  import opened Invariants
  import opened Safety
  import opened Commits
  import opened Publication

  // ---------------------------------------------------------------- the specification

  /** One event on a plain store. A commit runs its body there in one go, with some choice of
      branch for every `or`, and must end with the value the transaction returned. */
  function Perform(e: Event, m: Vals): Option<Vals> {
    match e
    case Stored(x, v) => Some(m[x := v])
    case Committed(_, body, picks, v) =>
      match RunPath(body, m, picks, 0).res
      case Finished(v', m') => if v' == v then Some(m') else None
      case _ => None
  }

  /** All events in order. */
  function PerformAll(events: seq<Event>, m: Vals): Option<Vals> {
    if events == [] then Some(m)
    else
      match PerformAll(events[..|events| - 1], m)
      case None => None
      case Some(m') => Perform(events[|events| - 1], m')
  }

  // ---------------------------------------------------------------- the simulation

  /** What validation checked still holds in the atomic store at the lock point. */
  lemma LockPointAgrees(ecd: bool, s: State, t: Tid)
    requires Inv(ecd, s) && t in s.threads && s.threads[t].phase.Locking? && s.threads[t].phase.todo == {}
    ensures Agrees(LogOf(s.threads[t]), Payloads(s.abs))
  {
    var th := s.threads[t];
    var log := LogOf(th);
    InvThread(ecd, s, t);
    InvGuards(ecd, s);
    forall x | x in log && log[x].Validated() ensures Payloads(s.abs)[x] == log[x].orig.val {
      assert x in Reads(log);
      ValidatedIsGuarded(th, x);
      GuardedIsCurrent(s, t, x);
      assert AbsAt(s, x) == Cur(s, x) == Reads(log)[x];
    }
  }

  /** Nobody owes a write to a variable that somebody else has locked. */
  lemma GuardedIsCurrent(s: State, t: Tid, x: Addr)
    requires GuardsExclude(s) && AbsMatches(s) && t in s.threads && !s.threads[t].phase.Publishing?
    requires x in WriteGuards(s.threads[t].phase) || x in ReadGuards(s.threads[t].phase)
    ensures AbsAt(s, x) == Cur(s, x)
  {
    assert Owed(s.threads[t]) == map[];
    hide Owed, WriteGuards, ReadGuards, Cur, AbsAt;
    forall u | u in s.threads ensures x !in Owed(s.threads[u]) {
      OwedIsGuarded(s.threads[u]);
    }
  }

  lemma ViewOfNothing(m: Vals)
    ensures View(map[], m) == m
  {
  }

  /** A finished run, replayed atomically on any store that agrees with what it validated. */
  lemma RunIsAtomic(ecd: bool, th: Thread, m: Vals)
    requires Coherent(ecd, th) && !th.phase.Idle? && th.run.Done? && !th.run.out.Failed?
    requires Agrees(LogOf(th), m)
    ensures RunPath(th.body, m, th.run.ctx.picks, 0) == Path(DirectResult(th.run.out, LogOf(th), m), |th.run.ctx.picks|)
  {
    var c := Ctx(map[], Replay(th.loads, th.allocs), []);
    hide Exec;
    TakenPathReplays(ecd, th.body, c, m, th.run.ctx.picks);
    ViewOfNothing(m);
  }

  lemma PayloadsPointwise(st: Store, m: Vals)
    requires forall x: Addr :: st[x].val == m[x]
    ensures Payloads(st) == m
  {
  }

  lemma DecidedView(s: State, t: Tid, s': State)
    requires Deciding(s, t, s')
    ensures Payloads(s'.abs) == View(LogOf(s.threads[t]), Payloads(s.abs))
  {
    var log := LogOf(s.threads[t]);
    assert forall x: Addr :: AbsAt(s', x) == if x in Writes(log) then Writes(log)[x] else AbsAt(s, x);
    hide Deciding, LogOf;
    forall x: Addr ensures s'.abs[x].val == View(log, Payloads(s.abs))[x] {
      assert AbsAt(s', x) == if x in Writes(log) then Writes(log)[x] else AbsAt(s, x);
    }
    PayloadsPointwise(s'.abs, View(log, Payloads(s.abs)));
  }

  lemma DecidePerforms(ecd: bool, s: State, t: Tid, s': State)
    requires Inv(ecd, s) && t in s.threads && CommitStep(ecd, s, t, Decide, s')
    ensures s'.events == s.events + [Decision(s, t)]
    ensures Perform(Decision(s, t), Payloads(s.abs)) == Some(Payloads(s'.abs))
  {
    hide Inv, Coherent, RunPath, Agrees, CommitStep, LogOf, View, Payloads;
    var th := s.threads[t];
    DecideShape(ecd, s, t, s');
    InvThread(ecd, s, t);
    LockPointAgrees(ecd, s, t);
    RunIsAtomic(ecd, th, Payloads(s.abs));
    DecidedView(s, t, s');
  }

  lemma AtomicPerforms(s: State, x: Addr, ptr: nat, v: Val, s': State)
    requires AtomicStep(s, x, ptr, v, s')
    ensures Perform(Stored(x, v), Payloads(s.abs)) == Some(Payloads(s'.abs))
  {
    AtomicShape(s, x, ptr, v, s');
    hide AtomicStep;
    assert Payloads(s'.abs) == Payloads(s.abs)[x := v] by {
      forall y: Addr ensures Payloads(s'.abs)[y] == Payloads(s.abs)[x := v][y] {
        assert AbsAt(s', y) == if y == x then Arc(Id(ptr, s.nextId), v) else AbsAt(s, y);
      }
    }
  }

  /** The step changes the atomic store by one event, or not at all. */
  ghost predicate Simulates(s: State, s': State) {
    || (s'.events == s.events && Payloads(s'.abs) == Payloads(s.abs))
    || (&& |s'.events| == |s.events| + 1 && s.events == s'.events[..|s.events|]
        && Perform(s'.events[|s.events|], Payloads(s.abs)) == Some(Payloads(s'.abs)))
  }

  lemma RunStepsKeepAbs(ecd: bool, s: State, t: Tid, a: Action, s': State)
    requires t in s.threads && RunStep(ecd, s, t, a, s')
    ensures s'.abs == s.abs && s'.events == s.events
  {
    ClosureShape(ecd, s, t, a, s');
    hide RunStep;
  }

  lemma CommitStepsKeepAbs(ecd: bool, s: State, t: Tid, a: Action, s': State)
    requires t in s.threads && CommitStep(ecd, s, t, a, s') && !a.Decide?
    ensures s'.abs == s.abs && s'.events == s.events
  {
    hide LogOf, Begin, Writes, LockStep;
    if a.Lock? {
      LockShape(s, t, a.x, s');
    }
  }

  lemma ThreadSimulates(ecd: bool, s: State, t: Tid, a: Action, s': State)
    requires Inv(ecd, s) && t in s.threads && Next(ecd, s, By(t, a), s')
    ensures a.Decide? ==> s'.events == s.events + [Decision(s, t)]
                          && Perform(Decision(s, t), Payloads(s.abs)) == Some(Payloads(s'.abs))
    ensures !a.Decide? ==> s'.events == s.events && s'.abs == s.abs
  {
    hide Inv, RunStep, CommitStep, WakeStep, WaitStep, Perform, Payloads, Begin;
    NoOtherDecide(ecd, s, t, s');
    if RunStep(ecd, s, t, a, s') {
      RunStepsKeepAbs(ecd, s, t, a, s');
    } else if CommitStep(ecd, s, t, a, s') {
      if a.Decide? {
        DecidePerforms(ecd, s, t, s');
      } else {
        CommitStepsKeepAbs(ecd, s, t, a, s');
      }
    } else if WakeStep(s, t, a, s') {
      WakeStepShape(s, t, a, s');
    } else {
      WaitStepShape(ecd, s, t, a, s');
    }
  }

  /** The forward simulation: a commit takes effect at its lock point, all at once; every other
      step of a thread, including the writes back one by one, leaves the atomic store alone. */
  lemma NextSimulates(ecd: bool, s: State, m: Move, s': State)
    requires Inv(ecd, s) && Next(ecd, s, m, s')
    ensures Simulates(s, s')
  {
    hide *;
    match m
    case Atomic(x, ptr, v) => AtomicSimulates(ecd, s, x, ptr, v, s');
    case By(t, a) =>
      MoverExists(ecd, s, t, a, s');
      ThreadSimulates(ecd, s, t, a, s');
      if a.Decide? {
        OneEventSimulates(s, s', Decision(s, t));
      } else {
        NoEventSimulates(s, s');
      }
  }

  lemma MoverExists(ecd: bool, s: State, t: Tid, a: Action, s': State)
    requires Next(ecd, s, By(t, a), s')
    ensures t in s.threads
  {
  }

  lemma OneEventSimulates(s: State, s': State, e: Event)
    requires s'.events == s.events + [e] && Perform(e, Payloads(s.abs)) == Some(Payloads(s'.abs))
    ensures Simulates(s, s')
  {
    hide Perform, Payloads;
  }

  lemma NoEventSimulates(s: State, s': State)
    requires s'.events == s.events && s'.abs == s.abs
    ensures Simulates(s, s')
  {
  }

  lemma AtomicSimulates(ecd: bool, s: State, x: Addr, ptr: nat, v: Val, s': State)
    requires Next(ecd, s, Atomic(x, ptr, v), s')
    ensures Simulates(s, s')
  {
    hide AtomicStep, Perform, Payloads, Overwriting;
    AtomicShape(s, x, ptr, v, s');
    AtomicPerforms(s, x, ptr, v, s');
  }

  lemma NoOtherDecide(ecd: bool, s: State, t: Tid, s': State)
    requires t in s.threads
    ensures !RunStep(ecd, s, t, Decide, s') && !WakeStep(s, t, Decide, s') && !WaitStep(ecd, s, t, Decide, s')
  {
  }

  // ---------------------------------------------------------------- whole runs

  lemma BehaviourShape(ecd: bool, states: seq<State>, moves: seq<Move>)
    requires Behaviour(ecd, states, moves)
    ensures |states| == |moves| + 1 && Init(states[0])
  {
  }

  lemma BehaviourNext(ecd: bool, states: seq<State>, moves: seq<Move>, i: nat)
    requires Behaviour(ecd, states, moves) && i < |moves|
    ensures Next(ecd, states[i], moves[i], states[i + 1])
  {
    hide Next, Init;
  }

  /** The states of a run all satisfy the invariant. */
  lemma {:induction false} BehaviourKeepsInv(ecd: bool, states: seq<State>, moves: seq<Move>, i: nat)
    requires Behaviour(ecd, states, moves) && i < |states|
    ensures Inv(ecd, states[i])
  {
    hide *;
    BehaviourShape(ecd, states, moves);
    if i == 0 {
      InitInv(ecd, states[0]);
    } else {
      BehaviourKeepsInv(ecd, states, moves, i - 1);
      BehaviourNext(ecd, states, moves, i - 1);
      NextKeepsInv(ecd, states[i - 1], moves[i - 1], states[i]);
    }
  }

  lemma ReachableInv(ecd: bool, s: State)
    requires Reachable(ecd, s)
    ensures Inv(ecd, s)
  {
    var states, moves :| Behaviour(ecd, states, moves) && states[|moves|] == s;
    hide *;
    BehaviourShape(ecd, states, moves);
    BehaviourKeepsInv(ecd, states, moves, |moves|);
  }

  /** Performing the events so far on `m` gives the atomic store. */
  ghost predicate Serial(m: Vals, s: State) {
    PerformAll(s.events, m) == Some(Payloads(s.abs))
  }

  lemma PerformOneMore(s: State, s': State, m: Vals)
    requires Simulates(s, s') && Serial(m, s)
    ensures Serial(m, s')
  {
    hide Perform, Payloads;
  }

  lemma {:induction false} RunIsSerial(ecd: bool, states: seq<State>, moves: seq<Move>, i: nat, m: Vals)
    requires Behaviour(ecd, states, moves) && i < |states|
    requires Serial(m, states[0])
    ensures Serial(m, states[i])
  {
    hide *;
    BehaviourShape(ecd, states, moves);
    if i > 0 {
      RunIsSerial(ecd, states, moves, i - 1, m);
      StepSimulates(ecd, states, moves, i - 1);
      PerformOneMore(states[i - 1], states[i], m);
    }
  }

  /** Performing the events up to `s` one after the other on the contents of `start` gives the atomic
      store of `s`. */
  ghost predicate Serializes(start: State, s: State) {
    PerformAll(s.events, Payloads(Contents(start))) == Some(Payloads(s.abs))
  }

  lemma SerialSerializes(start: State, s: State)
    requires Serial(Payloads(Contents(start)), s)
    ensures Serializes(start, s)
  {
    hide PerformAll, Payloads, Contents;
  }

  /** Strict serializability. Performing the events of a run one after the other, each
      atomically and in the order of the lock points, gives the atomic store of every state. */
  lemma StrictlySerializable(ecd: bool, states: seq<State>, moves: seq<Move>, i: nat)
    requires Behaviour(ecd, states, moves) && i < |states|
    ensures Serializes(states[0], states[i])
  {
    hide *;
    BehaviourShape(ecd, states, moves);
    StartPerforms(states[0]);
    RunIsSerial(ecd, states, moves, i, Payloads(Contents(states[0])));
    SerialSerializes(states[0], states[i]);
  }

  lemma StepSimulates(ecd: bool, states: seq<State>, moves: seq<Move>, i: nat)
    requires Behaviour(ecd, states, moves) && i < |moves|
    ensures Simulates(states[i], states[i + 1])
  {
    hide *;
    BehaviourShape(ecd, states, moves);
    BehaviourKeepsInv(ecd, states, moves, i);
    BehaviourNext(ecd, states, moves, i);
    NextSimulates(ecd, states[i], moves[i], states[i + 1]);
  }

  lemma SimulatesGrows(s: State, s': State)
    requires Simulates(s, s')
    ensures s.events <= s'.events
  {
    hide Perform, Payloads;
  }

  /** Later steps neither reorder nor remove an event. */
  lemma {:induction false} EventsOnlyGrow(ecd: bool, states: seq<State>, moves: seq<Move>, i: nat, j: nat)
    requires Behaviour(ecd, states, moves) && i <= j < |states|
    ensures states[i].events <= states[j].events
  {
    hide *;
    if i < j {
      BehaviourShape(ecd, states, moves);
      EventsOnlyGrow(ecd, states, moves, i, j - 1);
      StepSimulates(ecd, states, moves, j - 1);
      SimulatesGrows(states[j - 1], states[j]);
    }
  }

  lemma StartPerforms(s: State)
    requires Init(s)
    ensures Serial(Payloads(Contents(s)), s)
  {
    assert forall x: Addr :: AbsAt(s, x) == Cur(s, x);
    assert s.events == [];
    hide Init;
    forall x: Addr ensures s.abs[x].val == Payloads(Contents(s))[x] {
      assert AbsAt(s, x) == Cur(s, x);
    }
    PayloadsPointwise(s.abs, Payloads(Contents(s)));
  }

  /** With no commit between its lock point and its last write back, the variables themselves
      hold the atomic store. */
  lemma QuietVariablesAreAtomic(ecd: bool, s: State)
    requires Inv(ecd, s)
    requires forall t :: t in s.threads ==> !s.threads[t].phase.Publishing?
    ensures forall x: Addr :: Cur(s, x) == AbsAt(s, x)
  {
    InvAbs(ecd, s);
    assert forall t :: t in s.threads ==> Owed(s.threads[t]) == map[];
  }

  /** No dirty reads: what `read_ref_atomic` finds is the value of the atomic store at that
      instant, even for a transaction that will fail. */
  lemma NoDirtyReads(ecd: bool, s: State, t: Tid, s': State)
    requires Inv(ecd, s) && t in s.threads && RunStep(ecd, s, t, LoadVar, s')
    ensures s'.threads[t].loads == s.threads[t].loads + [Access(s.threads[t].run.q.x, AbsAt(s, s.threads[t].run.q.x))]
  {
    var x := s.threads[t].run.q.x;
    InvAbs(ecd, s);
    hide Inv, WriteGuards, Owed, RunFrom;
    forall u | u in s.threads ensures x !in Owed(s.threads[u]) {
      OwedIsGuarded(s.threads[u]);
    }
    assert AbsAt(s, x) == Cur(s, x);
  }

  // ---------------------------------------------------------------- invariants of the application

  /** Every atomic run of the body, whichever branches of `or` are taken, preserves `P`. */
  ghost predicate Preserves(P: Vals -> bool, body: Body) {
    forall m, picks :: P(m) && RunPath(body, m, picks, 0).res.Finished? ==> P(RunPath(body, m, picks, 0).res.m)
  }

  ghost predicate EventPreserves(P: Vals -> bool, e: Event) {
    match e
    case Committed(_, body, _, _) => Preserves(P, body)
    case Stored(x, v) => forall m :: P(m) ==> P(m[x := v])
  }

  lemma {:induction false} EventsPreserve(P: Vals -> bool, events: seq<Event>, m: Vals)
    requires P(m) && PerformAll(events, m).Some?
    requires forall e :: e in events ==> EventPreserves(P, e)
    ensures P(PerformAll(events, m).value)
  {
    if events != [] {
      var before := events[..|events| - 1];
      EventsPreserve(P, before, m);
      assert EventPreserves(P, events[|events| - 1]);
      hide RunPath;
    }
  }

  /** Any property that each committed body preserves when run alone holds of the atomic store in
      every state of every concurrent run. */
  lemma InvariantTransfer(ecd: bool, states: seq<State>, moves: seq<Move>, i: nat, P: Vals -> bool)
    requires Behaviour(ecd, states, moves) && i < |states|
    requires P(Payloads(Contents(states[0])))
    requires forall e :: e in states[i].events ==> EventPreserves(P, e)
    ensures P(Payloads(states[i].abs))
  {
    hide Behaviour, PerformAll, EventPreserves;
    StrictlySerializable(ecd, states, moves, i);
    EventsPreserve(P, states[i].events, Payloads(Contents(states[0])));
  }
}
