/** The driver loops: whatever is retried, a transaction that returns a value has taken effect exactly
    once, with that value, after it was called and before it returned. */
module Drivers {
  import opened Values
  import opened Logs
  import opened Programs
  import opened Machine
  import opened Invariants
  import opened Safety
  import opened Commits
  import opened Publication
  import opened Serializability
  import opened Versions
  import opened Conflicts

  /** Between its lock point and the return of `commit`. */
  predicate PastLockPoint(ph: Phase) {
    ph.Publishing? || ph.Waking?
  }

  /** Transactions of `t` that have taken effect. */
  function Effects(events: seq<Event>, t: Tid): nat {
    if events == [] then 0
    else
      var last := events[|events| - 1];
      Effects(events[..|events| - 1], t) + if last.Committed? && last.t == t then 1 else 0
  }

  /** Transactions of `t` that have returned a value. */
  function Returns(moves: seq<Move>, t: Tid): nat {
    if moves == [] then 0
    else Returns(moves[..|moves| - 1], t) + if moves[|moves| - 1] == By(t, Finish) then 1 else 0
  }

  function InBetween(s: State, t: Tid): nat {
    if t in s.threads && PastLockPoint(s.threads[t].phase) then 1 else 0
  }

  lemma ClosureIsBefore(ecd: bool, s: State, t: Tid, a: Action, s': State)
    requires t in s.threads && RunStep(ecd, s, t, a, s')
    ensures t in s'.threads && !PastLockPoint(s.threads[t].phase) && !PastLockPoint(s'.threads[t].phase)
  {
    ClosurePhases(ecd, s, t, a, s');
    hide RunStep;
  }

  lemma WaitIsBefore(ecd: bool, s: State, t: Tid, a: Action, s': State)
    requires t in s.threads && WaitStep(ecd, s, t, a, s')
    ensures t in s'.threads && !PastLockPoint(s.threads[t].phase) && !PastLockPoint(s'.threads[t].phase)
  {
    hide LogOf, Waits, RunFrom, FreeToRead, ListFree, Alive, Retain;
  }

  lemma LockIsBefore(s: State, t: Tid, x: Addr, s': State)
    requires t in s.threads && s.threads[t].phase.Locking? && LockStep(s, t, x, s')
    ensures t in s'.threads && !PastLockPoint(s'.threads[t].phase)
  {
    LockOnlyPhase(s, t, x, s');
    hide FreeToRead, FreeToWrite, LogOf, Admits;
  }

  lemma ReleasePasses(ecd: bool, s: State, t: Tid, a: Action, s': State)
    requires t in s.threads && CommitStep(ecd, s, t, a, s') && !a.Lock? && !a.Decide? && !a.WriteBack?
    ensures t in s'.threads && (PastLockPoint(s.threads[t].phase) <==> PastLockPoint(s'.threads[t].phase))
  {
    hide LogOf, RunFrom, Writes, Least;
  }

  lemma DecidePasses(ecd: bool, s: State, t: Tid, a: Action, s': State)
    requires t in s.threads && CommitStep(ecd, s, t, a, s') && a.Decide?
    ensures t in s'.threads && !PastLockPoint(s.threads[t].phase) && PastLockPoint(s'.threads[t].phase)
  {
    hide LogOf, AllInstalled, Decision;
  }

  lemma CommitPasses(ecd: bool, s: State, t: Tid, a: Action, s': State)
    requires t in s.threads && CommitStep(ecd, s, t, a, s')
    ensures t in s'.threads
    ensures a.Decide? ==> !PastLockPoint(s.threads[t].phase) && PastLockPoint(s'.threads[t].phase)
    ensures !a.Decide? ==> (PastLockPoint(s.threads[t].phase) <==> PastLockPoint(s'.threads[t].phase))
  {
    if a.Lock? {
      assert s.threads[t].phase.Locking? && LockStep(s, t, a.x, s');
      LockIsBefore(s, t, a.x, s');
      hide CommitStep, LockStep;
    } else if a.Decide? {
      hide CommitStep;
      DecidePasses(ecd, s, t, a, s');
    } else if a.WriteBack? {
      WriteBackPhases(ecd, s, t, a.x, s');
      hide CommitStep;
    } else {
      hide CommitStep;
      ReleasePasses(ecd, s, t, a, s');
    }
  }

  lemma WakePasses(s: State, t: Tid, a: Action, s': State)
    requires t in s.threads && WakeStep(s, t, a, s')
    ensures t in s'.threads && PastLockPoint(s.threads[t].phase)
    ensures PastLockPoint(s'.threads[t].phase) <==> !a.Finish?
  {
    hide LogOf, ListFree, Alive, Least;
  }

  lemma StepBalances(ecd: bool, s: State, t: Tid, a: Action, s': State)
    requires t in s.threads && Next(ecd, s, By(t, a), s')
    ensures t in s'.threads
    ensures InBetween(s', t) + (if a.Finish? then 1 else 0) == InBetween(s, t) + (if a.Decide? then 1 else 0)
  {
    hide Next, RunStep, CommitStep, WakeStep, WaitStep, PastLockPoint;
    StepOf(ecd, s, t, a, s');
    match PartOf(a) {
      case Closure => ClosureIsBefore(ecd, s, t, a, s');
      case Commit => CommitPasses(ecd, s, t, a, s');
      case Wake => WakePasses(s, t, a, s');
      case Wait => WaitIsBefore(ecd, s, t, a, s');
    }
  }

  lemma EffectsOneMore(events: seq<Event>, e: Event, t: Tid)
    ensures Effects(events + [e], t) == Effects(events, t) + if e.Committed? && e.t == t then 1 else 0
  {
    assert (events + [e])[..|events|] == events;
  }

  lemma DecisionOf(s: State, u: Tid)
    requires u in s.threads
    ensures Decision(s, u).Committed? && Decision(s, u).t == u
  {
  }

  /** The balance of one step, for a thread `t` that need not be the one that moves. */
  ghost predicate Balances(s: State, m: Move, s': State, t: Tid) {
    Effects(s'.events, t) + InBetween(s, t) ==
      Effects(s.events, t) + InBetween(s', t) + (if m == By(t, Finish) then 1 else 0)
  }

  lemma OthersInBetween(s: State, u: Tid, s': State, t: Tid)
    requires OnlyMoves(s, u, s') && t != u
    ensures InBetween(s', t) == InBetween(s, t)
  {
    hide PastLockPoint;
  }

  lemma EventsAfter(ecd: bool, s: State, u: Tid, a: Action, s': State, t: Tid)
    requires Inv(ecd, s) && u in s.threads && Next(ecd, s, By(u, a), s')
    ensures Effects(s'.events, t) == Effects(s.events, t) + if a.Decide? && t == u then 1 else 0
  {
    hide *;
    ThreadSimulates(ecd, s, u, a, s');
    DecisionOf(s, u);
    EffectsOneMore(s.events, Decision(s, u), t);
  }

  lemma ThreadBalances(ecd: bool, s: State, u: Tid, a: Action, s': State, t: Tid)
    requires Inv(ecd, s) && u in s.threads && Next(ecd, s, By(u, a), s')
    ensures Balances(s, By(u, a), s', t)
  {
    hide Inv, Next, Effects, InBetween, OnlyMoves, RunStep, CommitStep, WakeStep, WaitStep;
    EventsAfter(ecd, s, u, a, s', t);
    if t == u {
      StepBalances(ecd, s, u, a, s');
    } else {
      OnlyOneMoves(ecd, s, u, a, s');
      OthersInBetween(s, u, s', t);
    }
  }

  lemma AtomicBalances(ecd: bool, s: State, x: Addr, ptr: nat, v: Val, s': State, t: Tid)
    requires Next(ecd, s, Atomic(x, ptr, v), s')
    ensures Balances(s, Atomic(x, ptr, v), s', t)
  {
    AtomicShape(s, x, ptr, v, s');
    EffectsOneMore(s.events, Stored(x, v), t);
    hide Next, AtomicStep, Effects, PastLockPoint;
  }

  lemma NextBalances(ecd: bool, s: State, m: Move, s': State, t: Tid)
    requires Inv(ecd, s) && Next(ecd, s, m, s')
    ensures Balances(s, m, s', t)
  {
    hide *;
    match m
    case Atomic(x, ptr, v) => AtomicBalances(ecd, s, x, ptr, v, s', t);
    case By(u, a) =>
      MoverExists(ecd, s, u, a, s');
      ThreadBalances(ecd, s, u, a, s', t);
  }

  lemma StartsWithNone(s: State, t: Tid)
    requires Init(s)
    ensures Effects(s.events, t) == 0 && InBetween(s, t) == 0
  {
  }

  lemma ReturnsOneMore(moves: seq<Move>, i: nat, t: Tid)
    requires i < |moves|
    ensures Returns(moves[..i + 1], t) == Returns(moves[..i], t) + if moves[i] == By(t, Finish) then 1 else 0
  {
    assert moves[..i + 1][..i] == moves[..i];
  }

  lemma BalanceAdds(s: State, m: Move, s': State, t: Tid, returned: nat)
    requires Balances(s, m, s', t) && Effects(s.events, t) == returned + InBetween(s, t)
    ensures Effects(s'.events, t) == returned + (if m == By(t, Finish) then 1 else 0) + InBetween(s', t)
  {
    hide Effects, InBetween;
  }

  /** Exactly once. In every run, the transactions of a thread that have taken effect are those that
      have returned a value, and the one past its lock point if there is one: attempts that were
      retried, aborted or given up have none, and no attempt has two. */
  lemma {:induction false} ExactlyOnce(ecd: bool, states: seq<State>, moves: seq<Move>, i: nat, t: Tid)
    requires Behaviour(ecd, states, moves) && i < |states|
    ensures i <= |moves| && Effects(states[i].events, t) == Returns(moves[..i], t) + InBetween(states[i], t)
  {
    hide *;
    BehaviourShape(ecd, states, moves);
    if i == 0 {
      StartsWithNone(states[0], t);
      NoReturns(t);
      assert moves[..0] == [];
    } else {
      ExactlyOnce(ecd, states, moves, i - 1, t);
      BehaviourKeepsInv(ecd, states, moves, i - 1);
      BehaviourNext(ecd, states, moves, i - 1);
      NextBalances(ecd, states[i - 1], moves[i - 1], states[i], t);
      ReturnsOneMore(moves, i - 1, t);
      BalanceAdds(states[i - 1], moves[i - 1], states[i], t, Returns(moves[..i - 1], t));
    }
  }

  lemma NoReturns(t: Tid)
    ensures Returns([], t) == 0
  {
  }

  // ---------------------------------------------------------------- what is returned

  predicate IsEffectOf(e: Event, t: Tid) {
    e.Committed? && e.t == t
  }

  /** The position of the last effect of `t`, or -1. */
  function LastEffect(events: seq<Event>, t: Tid): int {
    if events == [] then -1
    else if IsEffectOf(events[|events| - 1], t) then |events| - 1
    else LastEffect(events[..|events| - 1], t)
  }

  lemma {:induction false} LastEffectIs(events: seq<Event>, t: Tid)
    ensures -1 <= LastEffect(events, t) < |events|
    ensures LastEffect(events, t) >= 0 ==> IsEffectOf(events[LastEffect(events, t)], t)
    ensures forall k :: LastEffect(events, t) < k < |events| ==> !IsEffectOf(events[k], t)
  {
    if events != [] {
      LastEffectIs(events[..|events| - 1], t);
    }
  }

  lemma LastEffectAfter(events: seq<Event>, e: Event, t: Tid)
    ensures LastEffect(events + [e], t) == if IsEffectOf(e, t) then |events| else LastEffect(events, t)
  {
    assert (events + [e])[..|events|] == events;
  }

  /** The last effect of a thread past its lock point is that of its present run: its closure, the
      branches it took, and the value it is about to return. */
  ghost predicate Records(s: State, t: Tid) {
    t in s.threads && PastLockPoint(s.threads[t].phase) ==>
      && s.threads[t].run.Done? && s.threads[t].run.out.Ok?
      && 0 <= LastEffect(s.events, t) < |s.events| && s.events[LastEffect(s.events, t)] == Decision(s, t)
  }

  lemma SameRecords(s: State, s': State, t: Tid)
    requires Records(s, t) && s'.events == s.events
    requires t in s.threads ==>
      t in s'.threads && s'.threads[t].run == s.threads[t].run && s'.threads[t].body == s.threads[t].body
    requires t in s'.threads && PastLockPoint(s'.threads[t].phase) ==>
               t in s.threads && PastLockPoint(s.threads[t].phase)
    ensures Records(s', t)
  {
    hide LastEffect;
  }

  lemma OneMoreRecords(s: State, s': State, t: Tid, e: Event)
    requires Records(s, t) && s'.events == s.events + [e] && !IsEffectOf(e, t)
    requires t in s'.threads ==> t in s.threads && s'.threads[t] == s.threads[t]
    ensures Records(s', t)
  {
    LastEffectAfter(s.events, e, t);
    hide LastEffect;
  }

  lemma DecideRecords(ecd: bool, s: State, t: Tid, s': State)
    requires t in s.threads && CommitStep(ecd, s, t, Decide, s')
    ensures Records(s', t)
  {
    DecideShape(ecd, s, t, s');
    LastEffectAfter(s.events, Decision(s, t), t);
    assert Decision(s', t) == Decision(s, t);
    hide CommitStep, LastEffect;
  }

  lemma PassingKeepsRun(ecd: bool, s: State, t: Tid, a: Action, s': State)
    requires t in s.threads && Next(ecd, s, By(t, a), s') && !a.Decide?
    requires t in s'.threads && PastLockPoint(s'.threads[t].phase)
    ensures PastLockPoint(s.threads[t].phase) && PhaseOnly(s, t, s')
  {
    StepBalances(ecd, s, t, a, s');
    if Restarts(a) {
      RestartShape(ecd, s, t, a, s');
      hide Next, RunFrom;
    } else if a.LoadVar? || a.Box? {
      StepOf(ecd, s, t, a, s');
      ClosureIsBefore(ecd, s, t, a, s');
    } else {
      MovesOn(ecd, s, t, a, s');
      hide Next;
    }
  }

  lemma MoverRecords(ecd: bool, s: State, t: Tid, a: Action, s': State)
    requires Inv(ecd, s) && t in s.threads && Next(ecd, s, By(t, a), s') && Records(s, t)
    ensures Records(s', t)
  {
    if t in s'.threads && PastLockPoint(s'.threads[t].phase) {
      if a.Decide? {
        StepOf(ecd, s, t, a, s');
        DecideRecords(ecd, s, t, s');
      } else {
        PassingKeepsRun(ecd, s, t, a, s');
        ThreadSimulates(ecd, s, t, a, s');
        hide Inv, Next, Records;
        SameRecords(s, s', t);
      }
    }
  }

  lemma OtherRecords(ecd: bool, s: State, u: Tid, a: Action, s': State, t: Tid)
    requires Inv(ecd, s) && u in s.threads && Next(ecd, s, By(u, a), s') && Records(s, t) && t != u
    ensures Records(s', t)
  {
    hide Inv, Next, Records, Perform, Payloads, Decision, RunStep, CommitStep, WakeStep, WaitStep;
    OnlyOneMoves(ecd, s, u, a, s');
    ThreadSimulates(ecd, s, u, a, s');
    DecisionOf(s, u);
    if a.Decide? {
      OneMoreRecords(s, s', t, Decision(s, u));
    } else {
      SameRecords(s, s', t);
    }
  }

  lemma AtomicRecords(s: State, x: Addr, ptr: nat, v: Val, s': State, t: Tid)
    requires AtomicStep(s, x, ptr, v, s') && Records(s, t)
    ensures Records(s', t)
  {
    AtomicShape(s, x, ptr, v, s');
    hide AtomicStep, Records, FreeToWrite, Unallocated;
    OneMoreRecords(s, s', t, Stored(x, v));
  }

  lemma NextRecords(ecd: bool, s: State, m: Move, s': State, t: Tid)
    requires Inv(ecd, s) && Next(ecd, s, m, s') && Records(s, t)
    ensures Records(s', t)
  {
    hide Inv, Records, RunStep, CommitStep, WakeStep, WaitStep, AtomicStep;
    match m
    case Atomic(x, ptr, v) => AtomicRecords(s, x, ptr, v, s', t);
    case By(u, a) =>
      hide Next;
      MoverExists(ecd, s, u, a, s');
      if u == t {
        MoverRecords(ecd, s, t, a, s');
      } else {
        OtherRecords(ecd, s, u, a, s', t);
      }
  }

  lemma StartRecords(s: State, t: Tid)
    requires Init(s)
    ensures Records(s, t)
  {
  }

  lemma {:induction false} BehaviourRecords(ecd: bool, states: seq<State>, moves: seq<Move>, i: nat, t: Tid)
    requires Behaviour(ecd, states, moves) && i < |states|
    ensures Records(states[i], t)
  {
    hide *;
    BehaviourShape(ecd, states, moves);
    if i == 0 {
      StartRecords(states[0], t);
    } else {
      BehaviourRecords(ecd, states, moves, i - 1, t);
      BehaviourKeepsInv(ecd, states, moves, i - 1);
      BehaviourNext(ecd, states, moves, i - 1);
      NextRecords(ecd, states[i - 1], moves[i - 1], states[i], t);
    }
  }

  lemma FinishIsPast(ecd: bool, s: State, t: Tid, s': State)
    requires Next(ecd, s, By(t, Finish), s')
    ensures t in s.threads && PastLockPoint(s.threads[t].phase)
  {
    MoverExists(ecd, s, t, Finish, s');
    StepOf(ecd, s, t, Finish, s');
    assert PartOf(Finish) == Wake;
    hide Next;
    WakePasses(s, t, Finish, s');
  }

  lemma RecordsMeans(s: State, t: Tid)
    requires Records(s, t) && t in s.threads && PastLockPoint(s.threads[t].phase)
    ensures var th := s.threads[t];
            && th.run.Done? && th.run.out.Ok?
            && 0 <= LastEffect(s.events, t) < |s.events|
            && s.events[LastEffect(s.events, t)] == Committed(t, th.body, th.run.ctx.picks, th.run.out.v)
  {
    hide LastEffect;
  }

  /** What a transaction returns is what it did: when a driver returns, the last effect of its thread is
      the commit of its closure, with the branches it took and the value it returns. */
  lemma ReturnedIsRecorded(ecd: bool, states: seq<State>, moves: seq<Move>, i: nat, t: Tid)
    requires Behaviour(ecd, states, moves) && i < |moves| && |states| == |moves| + 1 && moves[i] == By(t, Finish)
    ensures var s := states[i];
            && t in s.threads && s.threads[t].run.Done? && s.threads[t].run.out.Ok?
            && 0 <= LastEffect(s.events, t) < |s.events|
            && s.events[LastEffect(s.events, t)]
               == Committed(t, s.threads[t].body, s.threads[t].run.ctx.picks, s.threads[t].run.out.v)
  {
    hide *;
    BehaviourNext(ecd, states, moves, i);
    FinishIsPast(ecd, states[i], t, states[i + 1]);
    BehaviourRecords(ecd, states, moves, i, t);
    RecordsMeans(states[i], t);
  }

  // ---------------------------------------------------------------- the closure that was started

  lemma AnswersKeepBody(ecd: bool, s: State, t: Tid, a: Action, s': State)
    requires t in s.threads && RunStep(ecd, s, t, a, s') && (a.LoadVar? || a.Box? || a.Rerun?)
    ensures t in s'.threads && s'.threads[t].body == s.threads[t].body
  {
    hide RunFrom, FreeToRead, Unallocated;
  }

  lemma ClosureKeepsBody(ecd: bool, s: State, t: Tid, a: Action, s': State)
    requires t in s.threads && RunStep(ecd, s, t, a, s') && !a.Start?
    ensures t in s'.threads && s'.threads[t].body == s.threads[t].body
  {
    hide RunStep;
    RunActions(ecd, s, t, a, s');
    if a.LoadVar? || a.Box? || a.Rerun? {
      AnswersKeepBody(ecd, s, t, a, s');
    } else {
      ClosureShape(ecd, s, t, a, s');
    }
  }

  lemma CommitKeepsBody(ecd: bool, s: State, t: Tid, a: Action, s': State)
    requires t in s.threads && CommitStep(ecd, s, t, a, s')
    ensures t in s'.threads && s'.threads[t].body == s.threads[t].body
  {
    CommitStepShape(ecd, s, t, a, s');
    if a.Restart? {
      RestartsAfresh(ecd, s, t, s');
    }
    hide CommitStep, RunFrom;
  }

  lemma OtherKeepsBody(s: State, u: Tid, s': State, t: Tid)
    requires OnlyMoves(s, u, s') && t in s.threads && t != u
    ensures t in s'.threads && s'.threads[t].body == s.threads[t].body
  {
  }

  lemma WakeKeepsBody(s: State, t: Tid, a: Action, s': State)
    requires t in s.threads && WakeStep(s, t, a, s')
    ensures t in s'.threads && s'.threads[t].body == s.threads[t].body
  {
    hide WakeStep, SameValues;
    WakeStepShape(s, t, a, s');
  }

  lemma WaitKeepsBody(ecd: bool, s: State, t: Tid, a: Action, s': State)
    requires t in s.threads && WaitStep(ecd, s, t, a, s')
    ensures t in s'.threads && s'.threads[t].body == s.threads[t].body
  {
    hide WaitStep, SameValues, RunFrom;
    WaitStepShape(ecd, s, t, a, s');
  }

  lemma StepKeepsBody(ecd: bool, s: State, u: Tid, a: Action, s': State, t: Tid)
    requires u in s.threads && Next(ecd, s, By(u, a), s') && t in s.threads && !(u == t && a.Start?)
    ensures t in s'.threads && s'.threads[t].body == s.threads[t].body
  {
    hide Next, RunStep, CommitStep, WakeStep, WaitStep, RunFrom, SameValues, OnlyMoves;
    OnlyOneMoves(ecd, s, u, a, s');
    if u == t {
      StepOf(ecd, s, u, a, s');
      match PartOf(a) {
        case Closure => ClosureKeepsBody(ecd, s, t, a, s');
        case Commit => CommitKeepsBody(ecd, s, u, a, s');
        case Wake => WakeKeepsBody(s, u, a, s');
        case Wait => WaitKeepsBody(ecd, s, u, a, s');
      }
    } else {
      OtherKeepsBody(s, u, s', t);
    }
  }

  /** The step starts a transaction of `t`. */
  predicate IsStart(m: Move, t: Tid) {
    m.By? && m.t == t && m.a.Start?
  }

  lemma NextKeepsBody(ecd: bool, s: State, m: Move, s': State, t: Tid)
    requires Next(ecd, s, m, s') && t in s.threads && !IsStart(m, t)
    ensures t in s'.threads && s'.threads[t].body == s.threads[t].body
  {
    match m
    case Atomic(x, ptr, v) =>
      hide FreeToWrite, Unallocated;
    case By(u, a) =>
      MoverExists(ecd, s, u, a, s');
      hide Next;
      StepKeepsBody(ecd, s, u, a, s', t);
  }

  lemma StartSets(ecd: bool, s: State, t: Tid, body: Body, s': State)
    requires Next(ecd, s, By(t, Start(body)), s')
    ensures t in s.threads && s.threads[t].phase.Idle? && t in s'.threads && s'.threads[t].body == body
  {
    MoverExists(ecd, s, t, Start(body), s');
    StepOf(ecd, s, t, Start(body), s');
    assert PartOf(Start(body)) == Closure;
    hide Next, RunFrom;
  }

  /** However often it is run again, a transaction runs the closure it was started with. */
  lemma {:induction false} ClosureIsKept(ecd: bool, states: seq<State>, moves: seq<Move>, i: nat, j: nat, t: Tid,
      body: Body)
    requires Behaviour(ecd, states, moves) && i < j < |states| && |states| == |moves| + 1
    requires moves[i] == By(t, Start(body)) && forall k :: i < k < j ==> !IsStart(moves[k], t)
    ensures t in states[j].threads && states[j].threads[t].body == body
  {
    hide *;
    BehaviourNext(ecd, states, moves, j - 1);
    if j == i + 1 {
      StartSets(ecd, states[i], t, body, states[j]);
    } else {
      ClosureIsKept(ecd, states, moves, i, j - 1, t, body);
      NextKeepsBody(ecd, states[j - 1], moves[j - 1], states[j], t);
    }
  }

  // ---------------------------------------------------------------- real time

  lemma {:induction false} ReturnsGrow(moves: seq<Move>, i: nat, j: nat, t: Tid)
    requires i <= j <= |moves|
    ensures Returns(moves[..i], t) <= Returns(moves[..j], t)
  {
    if i < j {
      ReturnsGrow(moves, i, j - 1, t);
      ReturnsOneMore(moves, j - 1, t);
    }
  }

  /** A thread whose last effect is among the first `n` events had as many effects then. */
  lemma {:induction false} NoNewEffects(events: seq<Event>, n: nat, t: Tid)
    requires LastEffect(events, t) < n <= |events|
    ensures Effects(events, t) == Effects(events[..n], t)
    decreases |events|
  {
    if n < |events| {
      var before := events[..|events| - 1];
      LastEffectIs(events, t);
      assert !IsEffectOf(events[|events| - 1], t);
      NoNewEffects(before, n, t);
      assert before[..n] == events[..n];
    } else {
      assert events[..n] == events;
    }
  }

  lemma InBetweenIs(s: State, t: Tid)
    requires t in s.threads
    ensures s.threads[t].phase.Idle? ==> InBetween(s, t) == 0
    ensures PastLockPoint(s.threads[t].phase) ==> InBetween(s, t) == 1
  {
  }

  lemma NewEffect(before: seq<Event>, after: seq<Event>, t: Tid)
    requires before <= after && Effects(before, t) < Effects(after, t)
    ensures |before| <= LastEffect(after, t)
  {
    if LastEffect(after, t) < |before| {
      assert after[..|before|] == before;
      NoNewEffects(after, |before|, t);
    }
  }

  /** A transaction takes effect after it was started. */
  lemma EffectsFollowStart(ecd: bool, states: seq<State>, moves: seq<Move>, j: nat, l: nat, u: Tid, body: Body)
    requires Behaviour(ecd, states, moves) && j < l < |states| && |states| == |moves| + 1
    requires moves[j] == By(u, Start(body))
    requires u in states[l].threads && PastLockPoint(states[l].threads[u].phase)
    ensures |states[j].events| <= LastEffect(states[l].events, u)
  {
    hide *;
    BehaviourNext(ecd, states, moves, j);
    StartSets(ecd, states[j], u, body, states[j + 1]);
    InBetweenIs(states[j], u);
    InBetweenIs(states[l], u);
    ExactlyOnce(ecd, states, moves, j, u);
    ExactlyOnce(ecd, states, moves, l, u);
    ReturnsGrow(moves, j, l, u);
    EventsOnlyGrow(ecd, states, moves, j, l);
    NewEffect(states[j].events, states[l].events, u);
  }

  /** Strictness. If a transaction has returned before another is started, it comes first in the order
      in which they take effect. (Events keep their positions, by `EventsOnlyGrow`.) */
  lemma RealTimeOrder(ecd: bool, states: seq<State>, moves: seq<Move>, i: nat, j: nat, l: nat, t: Tid, u: Tid,
      body: Body)
    requires Behaviour(ecd, states, moves) && i < j < l < |states| && |states| == |moves| + 1
    requires moves[i] == By(t, Finish) && moves[j] == By(u, Start(body))
    requires u in states[l].threads && PastLockPoint(states[l].threads[u].phase)
    ensures 0 <= LastEffect(states[i].events, t) < LastEffect(states[l].events, u) < |states[l].events|
    ensures LastEffect(states[i].events, t) < |states[i].events|
    ensures states[l].events[LastEffect(states[i].events, t)] == states[i].events[LastEffect(states[i].events, t)]
  {
    hide *;
    ReturnedIsRecorded(ecd, states, moves, i, t);
    EventsOnlyGrow(ecd, states, moves, i, j);
    EventsOnlyGrow(ecd, states, moves, i, l);
    EffectsFollowStart(ecd, states, moves, j, l, u, body);
    LastEffectIs(states[l].events, u);
  }
}
