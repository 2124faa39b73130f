/** Commits neither deadlock nor go on for ever: records are locked in address order. */
module Progress {
  import opened Values
  import opened Logs
  import opened Programs
  import opened RunFacts
  import opened Machine
  import opened Invariants
  import opened Safety
  import opened Publication
  import opened Serializability
  import opened Versions
  import opened Conflicts
  import opened Wakeup
  import DeadWaiters

  // ---------------------------------------------------------------- some thread can step

  /** A step of a commit, or the end of a sweep that holds up a waker. */
  predicate Finishing(a: Action) {
    PartOf(a) == Commit || PartOf(a) == Wake || a.SweepEnd?
  }

  /** The step `By(t, a)` can be taken. */
  ghost predicate CanStep(ecd: bool, s: State, t: Tid, a: Action) {
    t in s.threads && exists s' :: Next(ecd, s, By(t, a), s')
  }

  /** The thread can take some step. */
  ghost predicate CanMove(ecd: bool, s: State, t: Tid) {
    exists a :: CanStep(ecd, s, t, a)
  }

  ghost predicate CanFinish(ecd: bool, s: State) {
    exists t, a :: Finishing(a) && CanStep(ecd, s, t, a)
  }

  lemma CommitStepCanStep(ecd: bool, s: State, t: Tid, a: Action, s': State)
    requires t in s.threads && CommitStep(ecd, s, t, a, s') && PartOf(a) == Commit
    ensures CanFinish(ecd, s) && CanMove(ecd, s, t)
  {
    hide CommitStep, RunStep, WakeStep, WaitStep;
    assert Next(ecd, s, By(t, a), s');
    assert CanStep(ecd, s, t, a);
  }

  lemma WakeStepCanStep(ecd: bool, s: State, t: Tid, a: Action, s': State)
    requires t in s.threads && WakeStep(s, t, a, s') && PartOf(a) == Wake
    ensures CanFinish(ecd, s) && CanMove(ecd, s, t)
  {
    hide CommitStep, RunStep, WakeStep, WaitStep;
    assert Next(ecd, s, By(t, a), s');
    assert CanStep(ecd, s, t, a);
  }

  lemma SweepEndCanStep(ecd: bool, s: State, t: Tid)
    requires t in s.threads && s.threads[t].phase.Sweeping? && s.threads[t].phase.locked
    ensures CanFinish(ecd, s) && CanMove(ecd, s, t)
  {
    var ph := s.threads[t].phase;
    var s' := SetPhase(SetVar(s, ph.x, s.vars[ph.x].(waiting := Retain(s, s.vars[ph.x].waiting))), t,
        Dying(ph.cb, ph.todo));
    assert WaitStep(ecd, s, t, SweepEnd, s');
    hide CommitStep, RunStep, WakeStep, WaitStep;
    assert Next(ecd, s, By(t, SweepEnd), s');
    assert CanStep(ecd, s, t, SweepEnd);
  }

  lemma UnlockingCanStep(ecd: bool, s: State, t: Tid)
    requires t in s.threads && s.threads[t].phase.Unlocking?
    ensures CanFinish(ecd, s) && CanMove(ecd, s, t)
  {
    var ph := s.threads[t].phase;
    if ph.rd + ph.wr != {} {
      var x :| x in ph.rd + ph.wr;
      var s' := SetPhase(s, t, Unlocking(ph.rd - {x}, ph.wr - {x}));
      assert CommitStep(ecd, s, t, Unlock(x), s');
      hide CommitStep;
      CommitStepCanStep(ecd, s, t, Unlock(x), s');
    } else {
      var s' := SetThread(s, t, Begin(ecd, s.threads[t].body));
      assert ph.rd <= ph.rd + ph.wr && ph.wr <= ph.rd + ph.wr;
      assert CommitStep(ecd, s, t, Restart, s') by { hide Begin; }
      hide CommitStep;
      CommitStepCanStep(ecd, s, t, Restart, s');
    }
  }

  lemma DropReadCanStep(ecd: bool, s: State, t: Tid, x: Addr)
    requires t in s.threads && s.threads[t].phase.Publishing? && Least(x, s.threads[t].phase.rd)
    ensures CanFinish(ecd, s) && CanMove(ecd, s, t)
  {
    var ph := s.threads[t].phase;
    var s' := SetPhase(s, t, Publishing(ph.rd - {x}, ph.wr));
    assert CommitStep(ecd, s, t, DropRead(x), s');
    hide CommitStep;
    CommitStepCanStep(ecd, s, t, DropRead(x), s');
  }

  lemma WriteBackCanStep(ecd: bool, s: State, t: Tid, x: Addr)
    requires t in s.threads && s.threads[t].phase.Publishing? && PhaseFits(s.threads[t])
    requires s.threads[t].phase.rd == {} && Least(x, s.threads[t].phase.wr)
    ensures CanFinish(ecd, s) && CanMove(ecd, s, t)
  {
    var ph := s.threads[t].phase;
    var log := LogOf(s.threads[t]);
    assert x in Writes(log);
    hide Writes, LogOf, Least;
    var s' := SetPhase(Installs(s, x, Writes(log)[x]), t, Publishing({}, ph.wr - {x}));
    assert CommitStep(ecd, s, t, WriteBack(x), s');
    hide CommitStep;
    CommitStepCanStep(ecd, s, t, WriteBack(x), s');
  }

  lemma PublishingCanStep(ecd: bool, s: State, t: Tid)
    requires t in s.threads && s.threads[t].phase.Publishing? && PhaseFits(s.threads[t])
    ensures CanFinish(ecd, s) && CanMove(ecd, s, t)
  {
    var ph := s.threads[t].phase;
    hide CanFinish, CanMove, PhaseFits;
    if ph.rd != {} {
      var x := LeastExists(ph.rd);
      DropReadCanStep(ecd, s, t, x);
    } else if ph.wr != {} {
      var x := LeastExists(ph.wr);
      WriteBackCanStep(ecd, s, t, x);
    } else {
      var s' := SetPhase(s, t, Waking(Writes(LogOf(s.threads[t])).Keys, [], None));
      assert CommitStep(ecd, s, t, StartWake, s') by { hide Writes, LogOf; }
      hide CommitStep;
      CommitStepCanStep(ecd, s, t, StartWake, s');
    }
  }

  lemma TakeListCanStep(ecd: bool, s: State, t: Tid, x: Addr)
    requires t in s.threads && s.threads[t].phase.Waking? && s.threads[t].phase.unpark.None?
    requires s.threads[t].phase.taken == [] && Least(x, s.threads[t].phase.todo) && ListFree(s, x)
    ensures CanFinish(ecd, s) && CanMove(ecd, s, t)
  {
    var ph := s.threads[t].phase;
    var s' := SetPhase(SetVar(s, x, s.vars[x].(waiting := [])), t, Waking(ph.todo - {x}, s.vars[x].waiting, None));
    assert WakeStep(s, t, Take(x), s') by { hide ListFree; }
    hide WakeStep, ListFree;
    WakeStepCanStep(ecd, s, t, Take(x), s');
  }

  lemma FinishCanStep(ecd: bool, s: State, t: Tid)
    requires t in s.threads && s.threads[t].phase == Waking({}, [], None)
    ensures CanFinish(ecd, s) && CanMove(ecd, s, t)
  {
    var s' := SetPhase(s, t, Idle);
    assert WakeStep(s, t, Finish, s');
    hide WakeStep;
    WakeStepCanStep(ecd, s, t, Finish, s');
  }

  lemma UnparkCanStep(ecd: bool, s: State, t: Tid)
    requires t in s.threads && s.threads[t].phase.Waking? && s.threads[t].phase.unpark.Some?
    ensures CanFinish(ecd, s) && CanMove(ecd, s, t)
  {
    var ph := s.threads[t].phase;
    var s' := SetPhase(s, t, Waking(ph.todo, ph.taken, None)).(tokens := s.tokens + {ph.unpark.value});
    assert WakeStep(s, t, Unpark, s');
    hide WakeStep;
    WakeStepCanStep(ecd, s, t, Unpark, s');
  }

  lemma WakingCanStep(ecd: bool, s: State, t: Tid)
    requires t in s.threads && s.threads[t].phase.Waking?
    ensures CanFinish(ecd, s)
  {
    var ph := s.threads[t].phase;
    hide CanFinish, CanMove;
    if ph.unpark.Some? {
      UnparkCanStep(ecd, s, t);
    } else if ph.taken != [] {
      SignalCanStep(ecd, s, t);
    } else if ph.todo != {} {
      TakeCanStep(ecd, s, t);
    } else {
      FinishCanStep(ecd, s, t);
    }
  }

  lemma SignalCanStep(ecd: bool, s: State, t: Tid)
    requires t in s.threads && s.threads[t].phase.Waking? && s.threads[t].phase.unpark.None?
    requires s.threads[t].phase.taken != []
    ensures CanFinish(ecd, s) && CanMove(ecd, s, t)
  {
    var ph := s.threads[t].phase;
    var cb := ph.taken[0];
    var s' := if Alive(s, cb) && cb !in s.changed then
                SetPhase(s, t, Waking(ph.todo, ph.taken[1..], Some(cb.owner))).(changed := s.changed + {cb})
              else
                SetPhase(s, t, Waking(ph.todo, ph.taken[1..], None));
    assert WakeStep(s, t, Signal, s') by { hide Alive; }
    hide WakeStep, Alive;
    WakeStepCanStep(ecd, s, t, Signal, s');
  }

  lemma TakeCanStep(ecd: bool, s: State, t: Tid)
    requires t in s.threads && s.threads[t].phase.Waking? && s.threads[t].phase.unpark.None?
    requires s.threads[t].phase.taken == [] && s.threads[t].phase.todo != {}
    ensures CanFinish(ecd, s)
  {
    var ph := s.threads[t].phase;
    var x := LeastExists(ph.todo);
    if ListFree(s, x) {
      TakeListCanStep(ecd, s, t, x);
    } else {
      var u :| u in s.threads && s.threads[u].phase.Sweeping? && s.threads[u].phase.x == x && s.threads[u].phase.locked;
      SweepEndCanStep(ecd, s, u);
    }
  }

  /** The locks a record needs are free. */
  ghost predicate Grants(s: State, e: LogVar, x: Addr) {
    (e.Read? ==> FreeToRead(s, x)) && (e.HasPend() ==> FreeToWrite(s, x))
  }

  lemma LockCanStep(ecd: bool, s: State, t: Tid, x: Addr)
    requires t in s.threads && s.threads[t].phase.Locking? && Least(x, s.threads[t].phase.todo)
    requires x in LogOf(s.threads[t]) && Grants(s, LogOf(s.threads[t])[x], x)
    ensures CanFinish(ecd, s) && CanMove(ecd, s, t)
  {
    var Locking(todo, rd, wr) := s.threads[t].phase;
    var e := LogOf(s.threads[t])[x];
    var ph := if e.ReadObsolete? then Locking(todo - {x}, rd, wr)
              else if e.Read? then
                if Admits(e, s.vars[x].value) then Locking(todo - {x}, rd + {x}, wr) else Unlocking(rd + {x}, wr)
              else
                if Admits(e, s.vars[x].value) then Locking(todo - {x}, rd, wr + {x}) else Unlocking(rd, wr + {x});
    hide FreeToRead, FreeToWrite, Admits, LogOf;
    var s' := SetPhase(s, t, ph);
    assert LockStep(s, t, x, s');
    assert CommitStep(ecd, s, t, Lock(x), s') by { hide LockStep; }
    hide CommitStep, LockStep;
    CommitStepCanStep(ecd, s, t, Lock(x), s');
  }

  lemma FreeGrants(s: State, e: LogVar, x: Addr)
    requires FreeToWrite(s, x)
    ensures Grants(s, e, x)
  {
    hide WriteGuards, ReadGuards;
  }

  lemma DecideCanStep(ecd: bool, s: State, t: Tid)
    requires t in s.threads && s.threads[t].phase.Locking? && s.threads[t].phase.todo == {} && PhaseFits(s.threads[t])
    ensures CanFinish(ecd, s) && CanMove(ecd, s, t)
  {
    var ph := s.threads[t].phase;
    var s' := SetPhase(s, t, Publishing(ph.rd, ph.wr)).(
                abs := AllInstalled(LogOf(s.threads[t]), s.abs),
                events := s.events + [Decision(s, t)]);
    assert CommitStep(ecd, s, t, Decide, s') by { hide LogOf, AllInstalled, Decision; }
    hide CommitStep;
    CommitStepCanStep(ecd, s, t, Decide, s');
  }

  /** The records no committing thread has visited yet, above `x`. */
  function Above(s: State, x: Addr): set<Addr> {
    set t, y | t in s.threads && s.threads[t].phase.Locking? && y in s.threads[t].phase.todo && x < y :: y
  }

  /** A thread that guards `x` while it is still locking waits, if at all, for a higher address. */
  lemma GuardsBelowTodo(th: Thread, x: Addr, y: Addr)
    requires PhaseFits(th) && th.phase.Locking? && y in th.phase.todo
    requires x in WriteGuards(th.phase) || x in ReadGuards(th.phase)
    ensures x < y
  {
  }

  /** Follow the chain of waiting: each thread on it is blocked at a higher address than the one
      before, so it ends at a thread that can step. */
  lemma {:induction false} LockingCanStep(ecd: bool, s: State, t: Tid, x: Addr)
    requires Inv(ecd, s) && t in s.threads && s.threads[t].phase.Locking? && Least(x, s.threads[t].phase.todo)
    ensures CanFinish(ecd, s)
    decreases Above(s, x)
  {
    InvFits(ecd, s, t);
    if FreeToWrite(s, x) {
      FreeGrants(s, LogOf(s.threads[t])[x], x);
      LockCanStep(ecd, s, t, x);
    } else {
      var u :| u in s.threads && (x in WriteGuards(s.threads[u].phase) || x in ReadGuards(s.threads[u].phase));
      InvFits(ecd, s, u);
      hide Inv, PhaseFits, CanFinish;
      match s.threads[u].phase {
        case Unlocking(_, _) => UnlockingCanStep(ecd, s, u);
        case Publishing(_, _) => PublishingCanStep(ecd, s, u);
        case Locking(todo, _, _) =>
          if todo == {} {
            DecideCanStep(ecd, s, u);
          } else {
            var y := LeastExists(todo);
            GuardsBelowTodo(s.threads[u], x, y);
            assert y in Above(s, x) && y !in Above(s, y);
            assert Above(s, y) <= Above(s, x);
            LockingCanStep(ecd, s, u, y);
          }
      }
    }
  }

  lemma CommitterCanStep(ecd: bool, s: State, t: Tid)
    requires Inv(ecd, s) && t in s.threads && Committing(s.threads[t].phase)
    ensures CanFinish(ecd, s)
  {
    InvFits(ecd, s, t);
    hide Inv, PhaseFits, CanFinish;
    match s.threads[t].phase {
      case Unlocking(_, _) => UnlockingCanStep(ecd, s, t);
      case Publishing(_, _) => PublishingCanStep(ecd, s, t);
      case Waking(_, _, _) => WakingCanStep(ecd, s, t);
      case Locking(todo, _, _) =>
        if todo == {} {
          DecideCanStep(ecd, s, t);
        } else {
          var x := LeastExists(todo);
          LockingCanStep(ecd, s, t, x);
        }
    }
  }

  /** Deadlock freedom. In every reachable state with a thread inside `commit`, some step of a
      commit can be taken, or the end of a sweep for which a waker waits. */
  lemma CommitsDoNotDeadlock(ecd: bool, s: State, t: Tid)
    requires Reachable(ecd, s) && t in s.threads && Committing(s.threads[t].phase)
    ensures CanFinish(ecd, s)
  {
    hide *;
    ReachableInv(ecd, s);
    CommitterCanStep(ecd, s, t);
  }

  // ---------------------------------------------------------------- how much is left to do

  /** A bound on the steps a thread in `commit` has left, not counting the waiters it holds. */
  function Steps(th: Thread): nat {
    match th.phase
    case Locking(todo, _, _) => |todo| + 3 * |LogOf(th).Keys| + 3
    case Unlocking(rd, wr) => |rd + wr| + 1
    case Publishing(rd, wr) => |rd| + |wr| + |Writes(LogOf(th)).Keys| + 2
    case Waking(todo, _, _) => |todo| + 1
    case _ => 0
  }

  /** Waiters it holds and has yet to signal, and the unpark it owes. */
  function Signals(th: Thread): nat {
    match th.phase
    case Waking(_, taken, unpark) => 2 * |taken| + if unpark.Some? then 1 else 0
    case _ => 0
  }

  function Sweeps(th: Thread): nat {
    if th.phase.Sweeping? && th.phase.locked then 1 else 0
  }

  ghost function Total(threads: map<Tid, Thread>, w: Thread -> nat): nat
    decreases |threads|
  {
    if threads == map[] then 0
    else
      var t :| t in threads;
      FewerThreads(threads, t);
      w(threads[t]) + Total(threads - {t}, w)
  }

  lemma FewerThreads(threads: map<Tid, Thread>, t: Tid)
    requires t in threads
    ensures |threads - {t}| < |threads|
  {
    assert (threads - {t}).Keys == threads.Keys - {t};
    assert |(threads - {t}).Keys| == |threads - {t}| && |threads.Keys| == |threads|;
  }

  lemma {:induction false} TotalWithout(threads: map<Tid, Thread>, w: Thread -> nat, t: Tid)
    requires t in threads
    ensures Total(threads, w) == w(threads[t]) + Total(threads - {t}, w)
    decreases |threads|
  {
    var u :| u in threads && Total(threads, w) == w(threads[u]) + Total(threads - {u}, w);
    FewerThreads(threads, u);
    FewerThreads(threads, t);
    if u != t {
      TotalWithout(threads - {u}, w, t);
      TotalWithout(threads - {t}, w, u);
      assert threads - {u} - {t} == threads - {t} - {u};
    }
  }

  /** The total changes as much as the one thread that moves. */
  lemma TotalMoves(s: State, t: Tid, s': State, w: Thread -> nat)
    requires OnlyMoves(s, t, s')
    ensures Total(s'.threads, w) - w(s'.threads[t]) == Total(s.threads, w) - w(s.threads[t])
  {
    TotalWithout(s.threads, w, t);
    TotalWithout(s'.threads, w, t);
    assert s'.threads - {t} == s.threads - {t};
  }

  lemma SubsetSmaller(a: set<Addr>, b: set<Addr>)
    requires a <= b
    ensures |a| <= |b|
  {
    assert b == a + (b - a);
  }

  /** Of two amounts of work the first is less: fewer steps of commits, or as many and fewer waiters
      to signal, or as many of both and fewer sweeps under way. */
  predicate Less(a: nat, b: nat, c: nat, a': nat, b': nat, c': nat) {
    a < a' || (a == a' && (b < b' || (b == b' && c < c')))
  }

  ghost predicate WorkShrinks(th: Thread, th': Thread) {
    Less(Steps(th'), Signals(th'), Sweeps(th'), Steps(th), Signals(th), Sweeps(th))
  }

  lemma LockShrinks(s: State, t: Tid, x: Addr, s': State)
    requires t in s.threads && s.threads[t].phase.Locking? && LockStep(s, t, x, s') && PhaseFits(s.threads[t])
    ensures t in s'.threads && Steps(s'.threads[t]) < Steps(s.threads[t])
  {
    LockOnlyPhase(s, t, x, s');
    var ph, ph' := s.threads[t].phase, s'.threads[t].phase;
    LockWork(s, t, x, s');
    assert ph.rd <= LogOf(s.threads[t]).Keys && ph.wr <= LogOf(s.threads[t]).Keys;
    hide LockStep, PhaseFits;
    if ph'.Locking? {
      assert ph.todo == ph'.todo + {x};
      assert LogOf(s'.threads[t]) == LogOf(s.threads[t]);
    } else {
      SubsetSmaller(ph'.rd + ph'.wr, LogOf(s.threads[t]).Keys);
    }
  }

  lemma LockWork(s: State, t: Tid, x: Addr, s': State)
    requires t in s.threads && s.threads[t].phase.Locking? && LockStep(s, t, x, s')
    ensures t in s'.threads && x in LogOf(s.threads[t]) && x in s.threads[t].phase.todo
    ensures var ph, ph' := s.threads[t].phase, s'.threads[t].phase;
            if ph'.Locking? then ph'.todo == ph.todo - {x}
            else ph'.Unlocking? && ph'.rd + ph'.wr == ph.rd + ph.wr + {x}
  {
    hide FreeToRead, FreeToWrite, LogOf, Admits;
  }

  lemma DecidedHasLess(th: Thread, th': Thread)
    requires PhaseFits(th) && th.phase.Locking? && th.phase.todo == {} && LogOf(th') == LogOf(th)
    requires th'.phase == Publishing(th.phase.rd, th.phase.wr)
    ensures Steps(th') < Steps(th)
  {
    hide LogOf;
    SubsetSmaller(th.phase.rd, LogOf(th).Keys);
    SubsetSmaller(th.phase.wr, LogOf(th).Keys);
    SubsetSmaller(Writes(LogOf(th)).Keys, LogOf(th).Keys);
  }

  lemma DecideShrinks(ecd: bool, s: State, t: Tid, s': State)
    requires t in s.threads && CommitStep(ecd, s, t, Decide, s') && PhaseFits(s.threads[t])
    ensures t in s'.threads && Steps(s'.threads[t]) < Steps(s.threads[t])
  {
    DecideShape(ecd, s, t, s');
    assert LogOf(s'.threads[t]) == LogOf(s.threads[t]);
    hide CommitStep, PhaseFits, Steps, LogOf;
    DecidedHasLess(s.threads[t], s'.threads[t]);
  }

  lemma UnlockShrinks(ecd: bool, s: State, t: Tid, x: Addr, s': State)
    requires t in s.threads && CommitStep(ecd, s, t, Unlock(x), s')
    ensures t in s'.threads && Steps(s'.threads[t]) < Steps(s.threads[t])
  {
    hide LogOf;
    var ph := s.threads[t].phase;
    assert ph.rd - {x} + (ph.wr - {x}) == ph.rd + ph.wr - {x};
  }

  lemma DropReadShrinks(ecd: bool, s: State, t: Tid, x: Addr, s': State)
    requires t in s.threads && CommitStep(ecd, s, t, DropRead(x), s')
    ensures t in s'.threads && Steps(s'.threads[t]) < Steps(s.threads[t])
  {
    assert LogOf(s'.threads[t]) == LogOf(s.threads[t]);
    hide LogOf, Writes;
  }

  lemma StartWakeShrinks(ecd: bool, s: State, t: Tid, s': State)
    requires t in s.threads && CommitStep(ecd, s, t, StartWake, s')
    ensures t in s'.threads && Steps(s'.threads[t]) < Steps(s.threads[t])
  {
    hide LogOf, Writes;
  }

  lemma RestartShrinks(ecd: bool, s: State, t: Tid, s': State)
    requires t in s.threads && CommitStep(ecd, s, t, Restart, s')
    ensures t in s'.threads && Steps(s'.threads[t]) < Steps(s.threads[t])
  {
    hide RunFrom;
  }

  lemma GuardsShrinkWork(ecd: bool, s: State, t: Tid, a: Action, s': State)
    requires t in s.threads && CommitStep(ecd, s, t, a, s') && (a.Unlock? || a.DropRead? || a.StartWake? || a.Restart?)
    ensures t in s'.threads && Steps(s'.threads[t]) < Steps(s.threads[t])
  {
    hide CommitStep, Steps;
    match a {
      case Unlock(x) => UnlockShrinks(ecd, s, t, x, s');
      case DropRead(x) => DropReadShrinks(ecd, s, t, x, s');
      case StartWake => StartWakeShrinks(ecd, s, t, s');
      case Restart => RestartShrinks(ecd, s, t, s');
    }
  }

  lemma WriteBackShrinks(ecd: bool, s: State, t: Tid, x: Addr, s': State)
    requires t in s.threads && CommitStep(ecd, s, t, WriteBack(x), s')
    ensures t in s'.threads && Steps(s'.threads[t]) < Steps(s.threads[t])
  {
    WriteBackShape(ecd, s, t, x, s');
    assert LogOf(s'.threads[t]) == LogOf(s.threads[t]);
    OwedIsGuarded(s.threads[t]);
    hide CommitStep, LogOf, Writes;
  }

  lemma CommitShrinks(ecd: bool, s: State, t: Tid, a: Action, s': State)
    requires t in s.threads && CommitStep(ecd, s, t, a, s') && PhaseFits(s.threads[t])
    ensures t in s'.threads && Steps(s'.threads[t]) < Steps(s.threads[t])
  {
    CommitActions(ecd, s, t, a, s');
    if a.Lock? {
      assert s.threads[t].phase.Locking? && LockStep(s, t, a.x, s');
      hide CommitStep, LockStep, PhaseFits, Steps;
      LockShrinks(s, t, a.x, s');
    } else if a.Decide? {
      DecideShrinks(ecd, s, t, s');
    } else if a.WriteBack? {
      WriteBackShrinks(ecd, s, t, a.x, s');
    } else {
      hide CommitStep, PhaseFits, Steps;
      GuardsShrinkWork(ecd, s, t, a, s');
    }
  }

  lemma TakeShrinks(s: State, t: Tid, x: Addr, s': State)
    requires t in s.threads && WakeStep(s, t, Take(x), s')
    ensures t in s'.threads && Steps(s'.threads[t]) < Steps(s.threads[t])
  {
    hide ListFree;
  }

  lemma SignalShrinks(s: State, t: Tid, s': State)
    requires t in s.threads && WakeStep(s, t, Signal, s')
    ensures t in s'.threads && Steps(s'.threads[t]) == Steps(s.threads[t])
        && Signals(s'.threads[t]) < Signals(s.threads[t])
  {
    hide Alive;
  }

  lemma WakeShrinks(s: State, t: Tid, a: Action, s': State)
    requires t in s.threads && WakeStep(s, t, a, s')
    ensures t in s'.threads && WorkShrinks(s.threads[t], s'.threads[t])
  {
    if a.Take? {
      TakeShrinks(s, t, a.x, s');
      hide WakeStep, Steps, Signals, Sweeps;
    } else if a.Signal? {
      SignalShrinks(s, t, s');
      hide WakeStep, Steps, Signals, Sweeps;
    } else {
      hide ListFree, Alive, LogOf;
    }
  }

  lemma SweepEndShrinks(ecd: bool, s: State, t: Tid, s': State)
    requires t in s.threads && WaitStep(ecd, s, t, SweepEnd, s')
    ensures t in s'.threads && WorkShrinks(s.threads[t], s'.threads[t])
  {
    hide Retain, Alive, LogOf;
  }

  lemma FinishingShrinks(ecd: bool, s: State, t: Tid, a: Action, s': State)
    requires Inv(ecd, s) && t in s.threads && Next(ecd, s, By(t, a), s') && Finishing(a)
    ensures t in s'.threads && WorkShrinks(s.threads[t], s'.threads[t])
  {
    StepOf(ecd, s, t, a, s');
    InvFits(ecd, s, t);
    hide Inv, Next, RunStep, CommitStep, WakeStep, WaitStep, PhaseFits, Steps, Signals, Sweeps;
    if PartOf(a) == Commit {
      CommitShrinks(ecd, s, t, a, s');
    } else if PartOf(a) == Wake {
      WakeShrinks(s, t, a, s');
    } else {
      SweepEndShrinks(ecd, s, t, s');
    }
  }

  ghost predicate TotalShrinks(s: State, s': State) {
    Less(Total(s'.threads, Steps), Total(s'.threads, Signals), Total(s'.threads, Sweeps),
         Total(s.threads, Steps), Total(s.threads, Signals), Total(s.threads, Sweeps))
  }

  /** Completion, first half: every step of a commit leaves less to do. */
  lemma FinishingProgresses(ecd: bool, s: State, t: Tid, a: Action, s': State)
    requires Inv(ecd, s) && t in s.threads && Next(ecd, s, By(t, a), s') && Finishing(a)
    ensures TotalShrinks(s, s')
  {
    OnlyOneMoves(ecd, s, t, a, s');
    FinishingShrinks(ecd, s, t, a, s');
    TotalMoves(s, t, s', Steps);
    TotalMoves(s, t, s', Signals);
    TotalMoves(s, t, s', Sweeps);
    hide Inv, Next, Finishing, OnlyMoves, Total, Steps, Signals, Sweeps;
  }

  lemma ClosureAddsNothing(ecd: bool, s: State, t: Tid, a: Action, s': State)
    requires t in s.threads && RunStep(ecd, s, t, a, s') && !a.EnterCommit?
    ensures t in s'.threads && Steps(s'.threads[t]) == 0 && Signals(s'.threads[t]) == 0
  {
    ClosureShape(ecd, s, t, a, s');
    hide RunStep;
  }

  lemma NoCommitNoWork(th: Thread)
    requires CbOf(th.phase).Some? || th.phase.Running?
    ensures Steps(th) == 0 && Signals(th) == 0
  {
  }

  lemma WaitAddsNothing(ecd: bool, s: State, t: Tid, a: Action, s': State)
    requires t in s.threads && WaitStep(ecd, s, t, a, s')
    ensures t in s'.threads && Steps(s'.threads[t]) == 0 && Signals(s'.threads[t]) == 0
  {
    hide WaitStep, Steps, Signals, CbOf;
    WaiterHasCb(ecd, s, t, a, s');
    if a.Leave? {
      LeaveDropsCb(ecd, s, t, a, s');
    } else {
      OnlyLeaveDrops(ecd, s, t, a, s');
    }
    NoCommitNoWork(s'.threads[t]);
  }

  lemma OutsideHasNone(ecd: bool, s: State, t: Tid, a: Action, s': State)
    requires t in s.threads && Next(ecd, s, By(t, a), s') && PartOf(a) != Commit && PartOf(a) != Wake && !a.EnterCommit?
    ensures t in s'.threads && Steps(s'.threads[t]) == 0 && Signals(s'.threads[t]) == 0
  {
    hide *;
    StepOf(ecd, s, t, a, s');
    match PartOf(a) {
      case Closure => ClosureAddsNothing(ecd, s, t, a, s');
      case Wait => WaitAddsNothing(ecd, s, t, a, s');
    }
  }

  /** No step outside `commit` but entering one adds to what commits have to do. */
  lemma OthersAddNothing(ecd: bool, s: State, t: Tid, a: Action, s': State)
    requires t in s.threads && Next(ecd, s, By(t, a), s') && PartOf(a) != Commit && PartOf(a) != Wake && !a.EnterCommit?
    ensures Total(s'.threads, Steps) <= Total(s.threads, Steps)
    ensures Total(s'.threads, Signals) <= Total(s.threads, Signals)
  {
    OnlyOneMoves(ecd, s, t, a, s');
    OutsideHasNone(ecd, s, t, a, s');
    TotalMoves(s, t, s', Steps);
    TotalMoves(s, t, s', Signals);
    hide Next, OnlyMoves, Total, Steps, Signals;
  }

  // ---------------------------------------------------------------- draining

  ghost predicate NobodyCommits(s: State) {
    forall t :: t in s.threads ==> !Committing(s.threads[t].phase)
  }

  /** A run that consists of steps of commits already begun. */
  ghost predicate FinishingRun(ecd: bool, states: seq<State>, moves: seq<Move>) {
    && |states| == |moves| + 1
    && (forall i :: 0 <= i < |moves| ==> moves[i].By? && Finishing(moves[i].a))
    && (forall i :: 0 <= i < |moves| ==> Next(ecd, states[i], moves[i], states[i + 1]))
  }

  lemma OneStepLonger(ecd: bool, s: State, t: Tid, a: Action, states: seq<State>, moves: seq<Move>)
    requires FinishingRun(ecd, states, moves) && Finishing(a) && Next(ecd, s, By(t, a), states[0])
    ensures FinishingRun(ecd, [s] + states, [By(t, a)] + moves)
  {
    hide Next, Finishing;
  }

  lemma {:induction false} Drain(ecd: bool, s: State) returns (states: seq<State>, moves: seq<Move>)
    requires Inv(ecd, s)
    ensures FinishingRun(ecd, states, moves) && states[0] == s
    ensures NobodyCommits(states[|moves|])
    decreases Total(s.threads, Steps), Total(s.threads, Signals), Total(s.threads, Sweeps)
  {
    hide Inv, Next, Total, Committing, CanStep, Finishing;
    if NobodyCommits(s) {
      states, moves := [s], [];
    } else {
      var t :| t in s.threads && Committing(s.threads[t].phase);
      CommitterCanStep(ecd, s, t);
      var u, a :| Finishing(a) && CanStep(ecd, s, u, a);
      var s' := StepTo(ecd, s, u, a);
      FinishingProgresses(ecd, s, u, a, s');
      NextKeepsInv(ecd, s, By(u, a), s');
      states, moves := Drain(ecd, s');
      OneStepLonger(ecd, s, u, a, states, moves);
      states, moves := [s] + states, [By(u, a)] + moves;
    }
  }

  /** Completion. From every reachable state the commits in flight can all be brought to an end by
      steps of their own; each either succeeds or goes back to its closure. */
  lemma CommitsComplete(ecd: bool, s: State) returns (states: seq<State>, moves: seq<Move>)
    requires Reachable(ecd, s)
    ensures FinishingRun(ecd, states, moves) && states[0] == s
    ensures NobodyCommits(states[|moves|])
  {
    hide *;
    ReachableInv(ecd, s);
    states, moves := Drain(ecd, s);
  }

  lemma StepTo(ecd: bool, s: State, t: Tid, a: Action) returns (s': State)
    requires CanStep(ecd, s, t, a)
    ensures t in s.threads && Next(ecd, s, By(t, a), s')
  {
    hide Next;
    s' :| Next(ecd, s, By(t, a), s');
  }

  // ---------------------------------------------------------------- a bound

  /** What commits have left to do when no list holds more than `longest` waiters. */
  ghost function Load(s: State, longest: nat): nat {
    Total(s.threads, Steps) * (1 + 2 * longest) + Total(s.threads, Signals)
  }

  ghost predicate ListsAtMost(s: State, longest: nat) {
    forall x: Addr :: |ListAt(s, x)| <= longest
  }

  lemma ListsBounded(ecd: bool, states: seq<State>, moves: seq<Move>, i: nat)
    requires Behaviour(ecd, states, moves) && i < |states|
    ensures ListsAtMost(states[i], 64 + 3 * |states[0].threads.Keys|)
  {
    hide Behaviour, ListAt;
    var s, longest := states[i], 64 + 3 * |states[0].threads.Keys|;
    forall x: Addr ensures |ListAt(s, x)| <= longest {
      DeadWaiters.DeadWaitersBounded(ecd, states, moves, i, x);
    }
  }

  lemma TakeCosts(s: State, t: Tid, x: Addr, s': State)
    requires t in s.threads && WakeStep(s, t, Take(x), s')
    ensures t in s'.threads && Steps(s'.threads[t]) + 1 == Steps(s.threads[t])
    ensures Signals(s'.threads[t]) <= Signals(s.threads[t]) + 2 * |ListAt(s, x)|
  {
    hide ListFree;
    var ph := s.threads[t].phase;
    assert |ph.todo - {x}| == |ph.todo| - 1;
  }

  lemma UnparkCosts(s: State, t: Tid, a: Action, s': State)
    requires t in s.threads && WakeStep(s, t, a, s') && !a.Take? && !a.Signal?
    ensures t in s'.threads
    ensures || (Steps(s'.threads[t]) == Steps(s.threads[t]) && Signals(s'.threads[t]) < Signals(s.threads[t]))
            || (Steps(s'.threads[t]) < Steps(s.threads[t]) && Signals(s'.threads[t]) == Signals(s.threads[t]))
  {
    WakeActions(s, t, a, s');
    hide ListFree, Alive, LogOf;
  }

  lemma CommitSignalsNobody(ecd: bool, s: State, t: Tid, a: Action, s': State)
    requires t in s.threads && CommitStep(ecd, s, t, a, s')
    ensures t in s'.threads && Signals(s'.threads[t]) == 0
  {
    CommitPhases(ecd, s, t, a, s');
    CommitStepShape(ecd, s, t, a, s');
    if a.StartWake? {
      hide LogOf, Writes;
    } else {
      NotYetWaking(ecd, s, t, a, s');
      hide CommitStep;
    }
  }

  lemma DropsToNoWaking(ecd: bool, s: State, t: Tid, a: Action, s': State)
    requires t in s.threads && t in s'.threads && CommitStep(ecd, s, t, a, s')
    requires a.Unlock? || a.Restart? || a.DropRead? || a.Decide?
    ensures !s'.threads[t].phase.Waking?
  {
    hide LogOf, RunFrom, AllInstalled, Decision, Least;
  }

  lemma NotYetWaking(ecd: bool, s: State, t: Tid, a: Action, s': State)
    requires t in s.threads && t in s'.threads && CommitStep(ecd, s, t, a, s') && !a.StartWake?
    ensures !s'.threads[t].phase.Waking?
  {
    CommitActions(ecd, s, t, a, s');
    if a.Lock? {
      assert s.threads[t].phase.Locking? && LockStep(s, t, a.x, s');
      LockWork(s, t, a.x, s');
      hide CommitStep, LockStep;
    } else if a.WriteBack? {
      WriteBackPhases(ecd, s, t, a.x, s');
      hide CommitStep;
    } else {
      hide CommitStep;
      DropsToNoWaking(ecd, s, t, a, s');
    }
  }

  /** The step costs its thread one of its steps, which may bring `2 * longest` signals, or a signal. */
  ghost predicate Costs(th: Thread, th': Thread, longest: nat) {
    || (Steps(th') < Steps(th) && Signals(th') <= Signals(th) + 2 * longest)
    || (Steps(th') == Steps(th) && Signals(th') < Signals(th))
  }

  lemma StepCosts(ecd: bool, s: State, t: Tid, a: Action, s': State, longest: nat)
    requires Inv(ecd, s) && t in s.threads && Next(ecd, s, By(t, a), s') && (PartOf(a) == Commit || PartOf(a) == Wake)
    requires ListsAtMost(s, longest)
    ensures t in s'.threads && Costs(s.threads[t], s'.threads[t], longest)
  {
    StepOf(ecd, s, t, a, s');
    InvFits(ecd, s, t);
    hide Inv, Next, RunStep, CommitStep, WakeStep, WaitStep, PhaseFits, Steps, Signals, ListAt;
    if PartOf(a) == Commit {
      CommitShrinks(ecd, s, t, a, s');
      CommitSignalsNobody(ecd, s, t, a, s');
    } else if a.Take? {
      TakeCosts(s, t, a.x, s');
    } else if a.Signal? {
      SignalShrinks(s, t, s');
    } else {
      UnparkCosts(s, t, a, s');
    }
  }

  lemma FewerTimes(a: nat, b: nat, unit: nat)
    requires a < b
    ensures a * unit + unit <= b * unit
  {
    var d := b - a - 1;
    assert b * unit == (a + 1) * unit + d * unit;
    assert (a + 1) * unit == a * unit + unit;
  }

  lemma LoadLess(n: nat, g: nat, n': nat, g': nat, longest: nat)
    requires (n' < n && g' <= g + 2 * longest) || (n' == n && g' < g)
    ensures n' * (1 + 2 * longest) + g' < n * (1 + 2 * longest) + g
  {
    if n' < n {
      FewerTimes(n', n, 1 + 2 * longest);
    }
  }

  /** What one thread's step costs it, all threads together are that much nearer the end. */
  lemma TotalsCost(s: State, t: Tid, s': State, longest: nat)
    requires OnlyMoves(s, t, s') && Costs(s.threads[t], s'.threads[t], longest)
    ensures Load(s', longest) < Load(s, longest)
  {
    TotalMoves(s, t, s', Steps);
    TotalMoves(s, t, s', Signals);
    hide OnlyMoves, Total, Steps, Signals;
    LoadLess(Total(s.threads, Steps), Total(s.threads, Signals),
             Total(s'.threads, Steps), Total(s'.threads, Signals), longest);
  }

  lemma LoadShrinks(ecd: bool, s: State, t: Tid, a: Action, s': State, longest: nat)
    requires Inv(ecd, s) && t in s.threads && Next(ecd, s, By(t, a), s') && (PartOf(a) == Commit || PartOf(a) == Wake)
    requires ListsAtMost(s, longest)
    ensures Load(s', longest) < Load(s, longest)
  {
    StepCosts(ecd, s, t, a, s', longest);
    OnlyOneMoves(ecd, s, t, a, s');
    hide Inv, Next, Load, ListAt, Costs;
    TotalsCost(s, t, s', longest);
  }

  lemma SomeTimes(a: nat, b: nat, unit: nat)
    requires a <= b
    ensures a * unit <= b * unit
  {
    if a < b {
      FewerTimes(a, b, unit);
    }
  }

  lemma LoadStays(ecd: bool, s: State, m: Move, s': State, longest: nat)
    requires Next(ecd, s, m, s')
    requires m.By? ==> PartOf(m.a) != Commit && PartOf(m.a) != Wake && !m.a.EnterCommit?
    ensures Load(s', longest) <= Load(s, longest)
  {
    match m
    case Atomic(x, ptr, v) =>
      AtomicShape(s, x, ptr, v, s');
      hide Next;
    case By(t, a) =>
      MoverExists(ecd, s, t, a, s');
      OthersAddNothing(ecd, s, t, a, s');
      hide Next, Total;
      SomeTimes(Total(s'.threads, Steps), Total(s.threads, Steps), 1 + 2 * longest);
  }

  predicate OfCommit(m: Move) {
    m.By? && (PartOf(m.a) == Commit || PartOf(m.a) == Wake)
  }

  /** The steps of commits in a run. */
  function CommitSteps(moves: seq<Move>): nat {
    if moves == [] then 0
    else CommitSteps(moves[..|moves| - 1]) + if OfCommit(moves[|moves| - 1]) then 1 else 0
  }

  /** Completion, in numbers. While nobody enters `commit`, the commits in flight take no more steps
      than they had locks, writes and lists left, each list holding at most `64 + 3T` waiters: the
      number is fixed by the state they start from, whatever the other threads do. */
  lemma {:induction false} CommitStepsBounded(ecd: bool, states: seq<State>, moves: seq<Move>, i: nat, j: nat)
    requires Behaviour(ecd, states, moves) && i <= j < |states| && |states| == |moves| + 1
    requires forall k :: i <= k < j ==> !(moves[k].By? && moves[k].a.EnterCommit?)
    ensures var longest := 64 + 3 * |states[0].threads.Keys|;
            CommitSteps(moves[i..j]) + Load(states[j], longest) <= Load(states[i], longest)
  {
    hide *;
    if i < j {
      CommitStepsBounded(ecd, states, moves, i, j - 1);
      BehaviourNext(ecd, states, moves, j - 1);
      BehaviourKeepsInv(ecd, states, moves, j - 1);
      ListsBounded(ecd, states, moves, j - 1);
      CountsOneMore(moves, i, j - 1);
      StepLoad(ecd, states[j - 1], moves[j - 1], states[j], 64 + 3 * |states[0].threads.Keys|);
    } else {
      NoSteps(moves, i);
    }
  }

  lemma StepLoad(ecd: bool, s: State, m: Move, s': State, longest: nat)
    requires Inv(ecd, s) && Next(ecd, s, m, s') && !(m.By? && m.a.EnterCommit?)
    requires ListsAtMost(s, longest)
    ensures Load(s', longest) + (if OfCommit(m) then 1 else 0) <= Load(s, longest)
  {
    if OfCommit(m) {
      MoverExists(ecd, s, m.t, m.a, s');
      hide Next, Inv, Load, ListAt;
      LoadShrinks(ecd, s, m.t, m.a, s', longest);
    } else {
      hide Next, Inv, Load, ListAt;
      LoadStays(ecd, s, m, s', longest);
    }
  }

  lemma NoSteps(moves: seq<Move>, i: nat)
    requires i <= |moves|
    ensures CommitSteps(moves[i..i]) == 0
  {
  }

  lemma CountsOneMore(moves: seq<Move>, i: nat, j: nat)
    requires i <= j < |moves|
    ensures CommitSteps(moves[i..j + 1]) == CommitSteps(moves[i..j]) + if OfCommit(moves[j]) then 1 else 0
  {
    assert moves[i..j + 1][..j - i] == moves[i..j];
  }
}
