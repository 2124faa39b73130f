/** What strict serializability gives to programs: branches taken as if alone, counters that lose
    no increment, and sums that transfers conserve. */
module Applications {
  import opened Values
  import opened Logs
  import opened Programs
  import opened LogLaws
  import opened Branches
  import opened RunFacts
  import opened Machine
  import opened Invariants
  import opened Publication
  import opened Serializability

  // ---------------------------------------------------------------- left bias without interference

  lemma LoadsStillHold(s: State, th: Thread)
    requires forall r :: r in th.loads ==> r.arc == AbsAt(s, r.x)
    ensures Quiet(Replay(th.loads, th.allocs), s.abs)
  {
    forall i | 0 <= i < |th.loads| ensures th.loads[i].arc == s.abs[th.loads[i].x] {
      assert th.loads[i] in th.loads;
      assert s.abs[th.loads[i].x] == AbsAt(s, th.loads[i].x);
    }
  }

  lemma NothingIsCurrent(st: Store)
    ensures Current(map[], st)
  {
  }

  lemma FinishedMeans(out: Outcome, log: Log, m: Vals)
    requires out.Ok?
    ensures DirectResult(out, log, m) == Finished(out.v, View(log, m))
  {
  }

  lemma CoherentRun(ecd: bool, th: Thread)
    requires Coherent(ecd, th) && !th.phase.Idle? && th.run.Done?
    ensures Exec(ecd, th.body, Ctx(map[], Replay(th.loads, th.allocs), [])) == th.run
    ensures LogOf(th) == th.run.ctx.log
  {
    hide Exec;
  }

  /** If at its lock point all a transaction ever loaded is in place, even in branches it gave up,
      then its effect is that of its body run atomically with `or` preferring the first branch. */
  lemma CommitIsLeftBiased(ecd: bool, s: State, t: Tid, s': State)
    requires Inv(ecd, s) && t in s.threads && CommitStep(ecd, s, t, Decide, s')
    requires forall r :: r in s.threads[t].loads ==> r.arc == AbsAt(s, r.x)
    ensures var th := s.threads[t];
            && th.run.Done? && th.run.out.Ok?
            && RunDirect(th.body, Payloads(s.abs)) == Finished(th.run.out.v, Payloads(s'.abs))
  {
    var th := s.threads[t];
    DecideShape(ecd, s, t, s');
    assert th.run.Done? && th.run.out.Ok? && th.phase.Locking?;
    hide *;
    InvThread(ecd, s, t);
    CoherentRun(ecd, th);
    LoadsStillHold(s, th);
    NothingIsCurrent(s.abs);
    ViewOfNothing(Payloads(s.abs));
    LogRunMeansDirectRun(ecd, th.body, Ctx(map[], Replay(th.loads, th.allocs), []), s.abs);
    FinishedMeans(th.run.out, th.run.ctx.log, Payloads(s.abs));
    DecidedView(s, t, s');
  }

  lemma PicksOf(picks: seq<bool>, choices: seq<bool>)
    ensures picks == choices ==> Follows(picks, 0, choices)
    ensures Follows(picks, 0, choices) && |choices| == |picks| ==> picks == choices
  {
    if Follows(picks, 0, choices) && |choices| == |picks| {
      forall k | 0 <= k < |picks| ensures picks[k] == choices[k] {
        assert Pick(picks, 0 + k) == choices[k];
      }
    }
  }

  /** At its lock point a commit does what the branches it took do atomically. */
  lemma DecidedPath(ecd: bool, s: State, t: Tid, s': State)
    requires Inv(ecd, s) && t in s.threads && CommitStep(ecd, s, t, Decide, s')
    ensures var th := s.threads[t];
            && th.run.Done? && th.run.out.Ok?
            && RunPath(th.body, Payloads(s.abs), th.run.ctx.picks, 0)
               == Path(Finished(th.run.out.v, Payloads(s'.abs)), |th.run.ctx.picks|)
  {
    var th, m := s.threads[t], Payloads(s.abs);
    DecideShape(ecd, s, t, s');
    assert th.run.Done? && th.run.out.Ok? && th.phase.Locking? && th.phase.todo == {};
    hide *;
    InvThread(ecd, s, t);
    LockPointAgrees(ecd, s, t);
    RunIsAtomic(ecd, th, m);
    FinishedMeans(th.run.out, LogOf(th), m);
    DecidedView(s, t, s');
  }

  /** Exactly when a commit took the branches its closure would take if run alone at the lock point:
      if and only if every first branch it passed over would block there. And then its effect is
      that of the closure with `or` preferring the first branch. */
  lemma CommitTakesDirectBranches(ecd: bool, s: State, t: Tid, s': State)
    requires Inv(ecd, s) && t in s.threads && CommitStep(ecd, s, t, Decide, s')
    ensures var th, m := s.threads[t], Payloads(s.abs);
            && th.run.Done? && th.run.out.Ok?
            && (SkipsOnlyBlocked(th.body, m, th.run.ctx.picks, 0) <==> th.run.ctx.picks == DirectPicks(th.body, m))
            && (SkipsOnlyBlocked(th.body, m, th.run.ctx.picks, 0) ==>
                RunDirect(th.body, m) == Finished(th.run.out.v, Payloads(s'.abs)))
  {
    hide *;
    DecidedPath(ecd, s, t, s');
    var th, m := s.threads[t], Payloads(s.abs);
    DirectChoices(th.body, m, th.run.ctx.picks, 0);
    PicksOf(th.run.ctx.picks, DirectPicks(th.body, m));
  }

  // ---------------------------------------------------------------- a shared counter

  function PlusOne(v: Val): Val {
    if v.Num? then Num(v.n + 1) else v
  }

  function Increment(x: Addr): Prog {
    ModifyVar(x, PlusOne, Return(Nothing))
  }

  ghost predicate IsCommitOf(e: Event, body: Prog) {
    e.Committed? && e.body == body
  }

  /** However it is run, the event does not write `x`. */
  ghost predicate LeavesAlone(e: Event, x: Addr) {
    forall m: Vals :: Perform(e, m).Some? ==> Perform(e, m).value[x] == m[x]
  }

  /** The number of increments of `x` among the events. */
  ghost function Increments(events: seq<Event>, x: Addr): nat {
    if events == [] then 0
    else
      Increments(events[..|events| - 1], x) + if IsCommitOf(events[|events| - 1], Increment(x)) then 1 else 0
  }

  ghost predicate OnlyIncrement(events: seq<Event>, x: Addr) {
    forall e :: e in events ==> IsCommitOf(e, Increment(x)) || LeavesAlone(e, x)
  }

  lemma {:induction false} IncrementsAddUp(events: seq<Event>, x: Addr, m: Vals, m': Vals, n: int)
    requires OnlyIncrement(events, x) && m[x] == Num(n)
    requires PerformAll(events, m) == Some(m')
    ensures m'[x] == Num(n + Increments(events, x))
  {
    if events != [] {
      var before, last := events[..|events| - 1], events[|events| - 1];
      var m1 := PerformAll(before, m).value;
      hide Perform, Increment;
      IncrementsAddUp(before, x, m, m1, n);
      assert last in events;
      if IsCommitOf(last, Increment(x)) {
        OneIncrement(last, x, m1, m');
      }
    }
  }

  lemma OneIncrement(e: Event, x: Addr, m: Vals, m': Vals)
    requires IsCommitOf(e, Increment(x)) && m[x].Num?
    requires Perform(e, m) == Some(m')
    ensures m'[x] == Num(m[x].n + 1)
  {
    assert CallDirect(Increment(x), m) == Moved(Return(Nothing), m[x := PlusOne(m[x])]);
    assert RunPath(Increment(x), m, e.picks, 0) == RunPath(Return(Nothing), m[x := PlusOne(m[x])], e.picks, 0);
  }

  /** No lost update: as long as nothing else writes `x`, it counts the increments that committed,
      however they interleave with each other and with the rest. */
  lemma CounterCounts(ecd: bool, states: seq<State>, moves: seq<Move>, i: nat, x: Addr, n: int)
    requires Behaviour(ecd, states, moves) && i < |states|
    requires Cur(states[0], x).val == Num(n)
    requires OnlyIncrement(states[i].events, x)
    ensures AbsAt(states[i], x).val == Num(n + Increments(states[i].events, x))
  {
    hide *;
    StrictlySerializable(ecd, states, moves, i);
    SerialCounts(states[0], states[i], x, n);
  }

  lemma SerialCounts(start: State, s: State, x: Addr, n: int)
    requires Serializes(start, s) && OnlyIncrement(s.events, x) && Cur(start, x).val == Num(n)
    ensures AbsAt(s, x).val == Num(n + Increments(s.events, x))
  {
    hide PerformAll, OnlyIncrement, Increments;
    StartAt(start, x);
    IncrementsAddUp(s.events, x, Payloads(Contents(start)), Payloads(s.abs), n);
  }

  lemma StartAt(s: State, x: Addr)
    ensures Payloads(Contents(s))[x] == Cur(s, x).val
  {
  }

  // ---------------------------------------------------------------- transfers

  /** Move `amount` from `a` to `b`, waiting until there is enough. */
  ghost function Transfer(a: Addr, b: Addr, amount: int): Prog {
    ReadVar(a, imap v: Val :: Withdraw(a, b, amount, v))
  }

  ghost function Withdraw(a: Addr, b: Addr, amount: int, v: Val): Prog {
    if v.Num? && v.n >= amount then
      WriteVar(a, Num(v.n - amount), ReadVar(b, imap w: Val :: Deposit(b, amount, w)))
    else Retry
  }

  ghost function Deposit(b: Addr, amount: int, w: Val): Prog {
    if w.Num? then WriteVar(b, Num(w.n + amount), Return(Nothing)) else Fail
  }

  lemma TransferCloses(a: Addr, b: Addr, amount: int)
    ensures Closed(Transfer(a, b, amount))
    ensures forall v :: Closed(Withdraw(a, b, amount, v))
    ensures forall w :: Closed(Deposit(b, amount, w))
  {
    assert forall w :: Closed(Deposit(b, amount, w));
    forall v ensures Closed(Withdraw(a, b, amount, v)) {
      if v.Num? && v.n >= amount {
        assert Closed(Withdraw(a, b, amount, v).next);
      }
    }
  }

  ghost predicate SumsTo(m: Vals, a: Addr, b: Addr, total: int) {
    m[a].Num? && m[b].Num? && m[a].n + m[b].n == total
  }

  /** The two calls of a transfer that has enough to move. */
  lemma WithdrawCalls(a: Addr, b: Addr, amount: int, m: Vals)
    requires m[a].Num? && m[a].n >= amount
    ensures var p, m1 := Withdraw(a, b, amount, m[a]), m[a := Num(m[a].n - amount)];
            && Closed(p) && p.WriteVar? && Closed(p.next) && p.next.ReadVar?
            && CallDirect(p, m) == Moved(p.next, m1)
            && CallDirect(p.next, m1) == Moved(Deposit(b, amount, m1[b]), m1)
  {
    TransferCloses(a, b, amount);
    var m1 := m[a := Num(m[a].n - amount)];
    assert Withdraw(a, b, amount, m[a]).next.k[m1[b]] == Deposit(b, amount, m1[b]);
    hide Deposit;
  }

  lemma WithdrawPath(a: Addr, b: Addr, amount: int, m: Vals, picks: seq<bool>)
    requires a != b && m[a].Num? && m[b].Num? && m[a].n >= amount
    ensures Closed(Withdraw(a, b, amount, m[a]))
    ensures RunPath(Withdraw(a, b, amount, m[a]), m, picks, 0).res ==
            Finished(Nothing, m[a := Num(m[a].n - amount)][b := Num(m[b].n + amount)])
  {
    WithdrawCalls(a, b, amount, m);
    var p, m1 := Withdraw(a, b, amount, m[a]), m[a := Num(m[a].n - amount)];
    assert IsCall(p) && IsCall(p.next);
    hide *;
    DepositPath(b, amount, m1, picks);
    CallPath(p, m, picks, 0);
    CallPath(p.next, m1, picks, 0);
  }

  /** The only way a transfer can end well. */
  lemma TransferPath(a: Addr, b: Addr, amount: int, m: Vals, picks: seq<bool>)
    requires a != b && m[a].Num? && m[b].Num?
    ensures Closed(Transfer(a, b, amount))
    ensures RunPath(Transfer(a, b, amount), m, picks, 0).res ==
            if m[a].n >= amount then Finished(Nothing, m[a := Num(m[a].n - amount)][b := Num(m[b].n + amount)])
            else Blocked
  {
    TransferCloses(a, b, amount);
    var p := Withdraw(a, b, amount, m[a]);
    assert CallDirect(Transfer(a, b, amount), m) == Moved(p, m);
    if m[a].n >= amount {
      WithdrawPath(a, b, amount, m, picks);
      hide Withdraw, CallDirect;
    } else {
      assert p == Retry;
      hide Withdraw, CallDirect;
    }
  }

  lemma DepositPath(b: Addr, amount: int, m: Vals, picks: seq<bool>)
    requires m[b].Num?
    ensures Closed(Deposit(b, amount, m[b]))
    ensures RunPath(Deposit(b, amount, m[b]), m, picks, 0).res == Finished(Nothing, m[b := Num(m[b].n + amount)])
  {
    var m1 := m[b := Num(m[b].n + amount)];
    assert RunPath(Deposit(b, amount, m[b]), m, picks, 0) == RunPath(Return(Nothing), m1, picks, 0);
  }

  ghost predicate IsTransfer(e: Event, a: Addr, b: Addr) {
    e.Committed? && exists amount :: e.body == Transfer(a, b, amount)
  }

  lemma TransferEvent(e: Event, a: Addr, b: Addr, m: Vals, total: int)
    requires a != b && (IsTransfer(e, a, b) || IsTransfer(e, b, a))
    requires SumsTo(m, a, b, total) && Perform(e, m).Some?
    ensures SumsTo(Perform(e, m).value, a, b, total)
  {
    hide Transfer, RunPath;
    if IsTransfer(e, a, b) {
      var amount :| e.body == Transfer(a, b, amount);
      TransferPath(a, b, amount, m, e.picks);
    } else {
      var amount :| e.body == Transfer(b, a, amount);
      TransferPath(b, a, amount, m, e.picks);
    }
  }

  ghost predicate OnlyTransfer(events: seq<Event>, a: Addr, b: Addr) {
    forall e :: e in events ==>
      IsTransfer(e, a, b) || IsTransfer(e, b, a) || (LeavesAlone(e, a) && LeavesAlone(e, b))
  }

  lemma {:induction false} TransfersAddUp(events: seq<Event>, a: Addr, b: Addr, m: Vals, total: int)
    requires a != b && OnlyTransfer(events, a, b) && SumsTo(m, a, b, total) && PerformAll(events, m).Some?
    ensures SumsTo(PerformAll(events, m).value, a, b, total)
  {
    if events != [] {
      var before, last := events[..|events| - 1], events[|events| - 1];
      hide Perform, IsTransfer, SumsTo;
      TransfersAddUp(before, a, b, m, total);
      var m1 := PerformAll(before, m).value;
      assert last in events;
      if IsTransfer(last, a, b) || IsTransfer(last, b, a) {
        TransferEvent(last, a, b, m1, total);
      } else {
        SameSum(m1, Perform(last, m1).value, a, b, total);
      }
    }
  }

  lemma SameSum(m: Vals, m': Vals, a: Addr, b: Addr, total: int)
    requires SumsTo(m, a, b, total) && m'[a] == m[a] && m'[b] == m[b]
    ensures SumsTo(m', a, b, total)
  {
  }

  /** Conservation: as long as nothing else writes `a` or `b`, transfers between them, in whatever
      amounts and in either direction, never show money created or lost in the atomic store. */
  lemma TransfersConserve(ecd: bool, states: seq<State>, moves: seq<Move>, i: nat, a: Addr, b: Addr, total: int)
    requires Behaviour(ecd, states, moves) && i < |states| && a != b
    requires SumsTo(Payloads(Contents(states[0])), a, b, total)
    requires OnlyTransfer(states[i].events, a, b)
    ensures SumsTo(Payloads(states[i].abs), a, b, total)
  {
    hide *;
    StrictlySerializable(ecd, states, moves, i);
    SerializesMeans(states[0], states[i]);
    TransfersAddUp(states[i].events, a, b, Payloads(Contents(states[0])), total);
  }

  lemma SerializesMeans(start: State, s: State)
    requires Serializes(start, s)
    ensures PerformAll(s.events, Payloads(Contents(start))) == Some(Payloads(s.abs))
  {
  }
}
