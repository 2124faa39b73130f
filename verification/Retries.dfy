/** Why a sleeping thread sleeps: running its closure again would block again. */
module Retries {
  import opened Values
  import opened Logs
  import opened Programs
  import opened LogLaws
  import opened RunFacts
  import opened Branches
  import opened Machine
  import opened Invariants
  import opened Serializability
  import opened Versions
  import opened Wakeup

  lemma ContentsAt(s: State, x: Addr)
    ensures Contents(s)[x] == Cur(s, x)
  {
  }

  lemma CurrentValuesAgree(s: State, log: Log)
    requires forall x :: x in Waits(log) ==> Waits(log)[x] == Contents(s)[x]
    ensures Agrees(log, Payloads(Contents(s)))
  {
    hide Payloads, Contents, Cur;
    forall x | x in log && log[x].Validated() ensures Payloads(Contents(s))[x] == log[x].orig.val {
      assert x in Waits(log) && Waits(log)[x] == log[x].orig;
    }
  }

  /** `write_atomic` has overtaken none of the values the thread waits to see change. */
  ghost predicate NothingMissed(s: State, th: Thread) {
    forall x :: x in Waits(LogOf(th)) ==> !MissedAtomic(s, x, Waits(LogOf(th))[x])
  }

  /** The thread went to sleep because its closure called `retry`. */
  predicate Retrying(th: Thread) {
    !th.phase.Idle? && th.run.Done? && th.run.out.Retried?
  }

  /** All that a sleeper waits to see change is as it was, unless `write_atomic` was used. */
  lemma SleeperSeesPresent(ecd: bool, states: seq<State>, moves: seq<Move>, i: nat, t: Tid)
    requires Behaviour(ecd, states, moves) && i < |states|
    requires SleepsOn(states[i], t) && NothingMissed(states[i], states[i].threads[t])
    ensures var s, waits := states[i], Waits(LogOf(states[i].threads[t]));
            forall x :: x in waits ==> waits[x] == Contents(s)[x]
  {
    var s := states[i];
    hide Behaviour, LogOf, Waits, Cur, MissedAtomic, SleepsOn;
    assert t in s.threads by { SleeperExists(s, t); }
    forall x | x in Waits(LogOf(s.threads[t])) ensures Waits(LogOf(s.threads[t]))[x] == Contents(s)[x] {
      SleepersAreCurrent(ecd, states, moves, i, t, x);
      ContentsAt(s, x);
    }
  }

  lemma SleeperExists(s: State, t: Tid)
    requires SleepsOn(s, t)
    ensures t in s.threads && !s.threads[t].phase.Idle?
  {
  }

  /** The branches a sleeper took, run again on the variables as they are, block again: for every
      closure, however its `or`s nest. */
  lemma TakenPathStillBlocks(ecd: bool, states: seq<State>, moves: seq<Move>, i: nat, t: Tid)
    requires Behaviour(ecd, states, moves) && i < |states|
    requires SleepsOn(states[i], t) && Retrying(states[i].threads[t])
    requires NothingMissed(states[i], states[i].threads[t])
    ensures var th := states[i].threads[t];
            RunPath(th.body, Payloads(Contents(states[i])), th.run.ctx.picks, 0).res.Blocked?
  {
    var s := states[i];
    var th := s.threads[t];
    assert !th.phase.Idle? && th.run.Done? && th.run.out.Retried?;
    hide *;
    SleeperSeesPresent(ecd, states, moves, i, t);
    LogOfDone(th);
    CurrentValuesAgree(s, LogOf(th));
    BehaviourKeepsInv(ecd, states, moves, i);
    InvThread(ecd, s, t);
    RunIsAtomic(ecd, th, Payloads(Contents(s)));
    RetriedIsBlocked(th.run.out, LogOf(th), Payloads(Contents(s)));
  }

  lemma LogOfDone(th: Thread)
    requires th.run.Done?
    ensures LogOf(th) == th.run.ctx.log
  {
  }

  /** Retry is justified. While a thread sleeps with its flag set and no commit is in flight,
      running its closure again on the variables as they are would block again. */
  lemma RetryJustified(ecd: bool, states: seq<State>, moves: seq<Move>, i: nat, t: Tid)
    requires Behaviour(ecd, states, moves) && i < |states|
    requires SleepsOn(states[i], t) && Retrying(states[i].threads[t])
    requires NothingMissed(states[i], states[i].threads[t]) && OrFree(states[i].threads[t].body)
    ensures RunDirect(states[i].threads[t].body, Payloads(Contents(states[i]))).Blocked?
  {
    var th := states[i].threads[t];
    assert th.run.Done?;
    hide *;
    TakenPathStillBlocks(ecd, states, moves, i, t);
    OrFreePath(th.body, Payloads(Contents(states[i])), th.run.ctx.picks, 0);
  }

  // ---------------------------------------------------------------- with or in the closure

  lemma LoadsAreQuiet(s: State, th: Thread)
    requires forall r :: r in th.loads ==> r.arc == Cur(s, r.x)
    ensures Quiet(Replay(th.loads, th.allocs), Contents(s))
  {
    forall i | 0 <= i < |th.loads| ensures th.loads[i].arc == Contents(s)[th.loads[i].x] {
      assert th.loads[i] in th.loads;
      assert Contents(s)[th.loads[i].x] == Cur(s, th.loads[i].x);
    }
  }

  /** A closure that retried would retry again while every value it loaded is in place. */
  lemma QuietRunBlocks(ecd: bool, s: State, t: Tid)
    requires Inv(ecd, s) && t in s.threads && Retrying(s.threads[t])
    requires forall r :: r in s.threads[t].loads ==> r.arc == Cur(s, r.x)
    ensures RunDirect(s.threads[t].body, Payloads(Contents(s))).Blocked?
  {
    var th := s.threads[t];
    InvThread(ecd, s, t);
    LoadsAreQuiet(s, th);
    var c := Ctx(map[], Replay(th.loads, th.allocs), []);
    assert Exec(ecd, th.body, c) == th.run && th.run.Done? && th.run.out.Retried?;
    hide *;
    StartIsCurrent(Contents(s));
    ViewOfNothing(Payloads(Contents(s)));
    LogRunMeansDirectRun(ecd, th.body, c, Contents(s));
    RetriedIsBlocked(th.run.out, th.run.ctx.log, Payloads(Contents(s)));
  }

  /** The thread waits to see change every value it loaded: no branch it gave up saw anything that the
      wait map has lost or replaced. It is settled when the closure ends. */
  ghost predicate WaitsForAllLoads(th: Thread) {
    forall r :: r in th.loads ==> r.x in Waits(LogOf(th)) && Waits(LogOf(th))[r.x] == r.arc
  }

  /** With `or`, the retry of a sleeper is justified if it waits for all that it loaded. */
  lemma RetryWithOrJustified(ecd: bool, states: seq<State>, moves: seq<Move>, i: nat, t: Tid)
    requires Behaviour(ecd, states, moves) && i < |states|
    requires SleepsOn(states[i], t) && Retrying(states[i].threads[t])
    requires NothingMissed(states[i], states[i].threads[t]) && WaitsForAllLoads(states[i].threads[t])
    ensures RunDirect(states[i].threads[t].body, Payloads(Contents(states[i]))).Blocked?
  {
    var s := states[i];
    SleeperSeesPresent(ecd, states, moves, i, t);
    BehaviourKeepsInv(ecd, states, moves, i);
    hide Behaviour, Inv, LogOf, Waits, Cur, NothingMissed, SleepsOn, RunDirect;
    assert t in s.threads by { SleeperExists(s, t); }
    forall r | r in s.threads[t].loads ensures r.arc == Cur(s, r.x) {
      ContentsAt(s, r.x);
    }
    hide WaitsForAllLoads, Retrying;
    QuietRunBlocks(ecd, s, t);
  }

  lemma StartIsCurrent(st: Store)
    ensures Current(map[], st)
  {
  }

  lemma RetriedIsBlocked(out: Outcome, log: Log, m: Vals)
    requires out.Retried?
    ensures DirectResult(out, log, m).Blocked?
  {
  }
}
