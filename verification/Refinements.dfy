/** The methods of the shared objects, as steps of the machine: what `wait`, `set_dead` and `wake_all`
    do to a block is what the machine's steps do to the variable it stands for. */
module Refinements {
  import opened Values
  import opened Logs
  import opened Programs
  import opened RunFacts
  import opened Machine
  import opened Invariants
  import opened ControlBlocks

  // ---------------------------------------------------------------- objects and names

  /** Control blocks are objects on one side and names on the other. */
  type Names = map<ControlBlock, Cb>

  function Named(list: seq<ControlBlock>, names: Names): (r: seq<Cb>)
    requires forall c :: c in list ==> c in names
    ensures |r| == |list| && forall i :: 0 <= i < |list| ==> r[i] == names[list[i]]
  {
    if list == [] then [] else [names[list[0]]] + Named(list[1..], names)
  }

  /** The block stands for `v`. */
  ghost predicate Shows(b: VarControlBlock, v: Var, names: Names)
    reads b
  {
    && (forall c :: c in b.waiting ==> c in names)
    && b.value == v.value && b.dead == v.dead && Named(b.waiting, names) == v.waiting
  }

  /** `alive` are the control blocks whose weak references can be upgraded. */
  ghost predicate TellsAlive(alive: set<ControlBlock>, s: State, names: Names) {
    forall c :: c in names ==> (c in alive <==> Alive(s, names[c]))
  }

  /** `retain` on objects is `retain` on names. */
  lemma {:induction false} KeepNamed(list: seq<ControlBlock>, names: Names, alive: set<ControlBlock>, live: set<Cb>)
    requires forall c :: c in list ==> c in names && (c in alive <==> names[c] in live)
    ensures forall c :: c in Keep(list, alive) ==> c in names
    ensures Named(Keep(list, alive), names) == Keep(Named(list, names), live)
  {
    forall c | c in Keep(list, alive) ensures c in names {
      KeepMember(list, alive, c);
    }
    if list != [] {
      KeepNamed(list[1..], names, alive, live);
      var kept := Keep(list[1..], alive);
      if list[0] in alive {
        assert Keep(list, alive) == [list[0]] + kept;
      } else {
        assert Keep(list, alive) == kept;
      }
    }
  }

  lemma RetainNamed(list: seq<ControlBlock>, names: Names, alive: set<ControlBlock>, s: State)
    requires (forall c :: c in list ==> c in names) && TellsAlive(alive, s, names)
    ensures forall c :: c in Keep(list, alive) ==> c in names
    ensures Named(Keep(list, alive), names) == Retain(s, Named(list, names))
  {
    hide Alive;
    KeepNamed(list, names, alive, Upgradable(s, Named(list, names)));
  }

  // ---------------------------------------------------------------- steps of one thread

  /** The thread takes these steps one after another. */
  ghost predicate Leads(ecd: bool, s: State, t: Tid, acts: seq<Action>, s': State)
    decreases |acts|
  {
    if acts == [] then s' == s
    else exists next :: Next(ecd, s, By(t, acts[0]), next) && Leads(ecd, next, t, acts[1..], s')
  }

  lemma LeadsNext(ecd: bool, s: State, t: Tid, a: Action, next: State, acts: seq<Action>, s': State)
    requires Next(ecd, s, By(t, a), next) && Leads(ecd, next, t, acts, s')
    ensures Leads(ecd, s, t, [a] + acts, s')
  {
    hide Next;
    assert ([a] + acts)[0] == a && ([a] + acts)[1..] == acts;
  }

  lemma LeadsOnce(ecd: bool, s: State, t: Tid, a: Action, s': State)
    requires Next(ecd, s, By(t, a), s')
    ensures Leads(ecd, s, t, [a], s')
  {
    hide Next;
    assert Leads(ecd, s', t, [], s');
    LeadsNext(ecd, s, t, a, s', [], s');
    assert [a] + [] == [a];
  }

  // ---------------------------------------------------------------- wait

  /** `wait` is the step `Register`. */
  method RegisterBlock(ecd: bool, b: VarControlBlock, thread: ControlBlock, names: Names, ghost s: State, ghost t: Tid)
    returns (ghost s': State)
    requires Shows(b, s.vars[b.address], names) && thread in names
    requires t in s.threads && s.threads[t].phase.Registering? && s.threads[t].phase.cb == names[thread]
    requires b.address in s.threads[t].phase.todo && ListFree(s, b.address)
    modifies b`waiting
    ensures Next(ecd, s, By(t, Register(b.address)), s')
    ensures Shows(b, s'.vars[b.address], names)
  {
    ghost var x, ph := b.address, s.threads[t].phase;
    ghost var was := b.waiting;
    s' := SetPhase(SetVar(s, x, s.vars[x].(waiting := s.vars[x].waiting + [ph.cb])), t,
                   Checking(ph.cb, x, ph.todo - {x}, ph.reg));
    Registers(ecd, s, t, x, s');
    b.Wait(thread);
    assert Named(b.waiting, names) == Named(was, names) + [names[thread]];
  }

  lemma Registers(ecd: bool, s: State, t: Tid, x: Addr, s': State)
    requires t in s.threads && s.threads[t].phase.Registering? && x in s.threads[t].phase.todo && ListFree(s, x)
    requires var ph := s.threads[t].phase;
             s' == SetPhase(SetVar(s, x, s.vars[x].(waiting := s.vars[x].waiting + [ph.cb])), t,
                            Checking(ph.cb, x, ph.todo - {x}, ph.reg))
    ensures Next(ecd, s, By(t, Register(x)), s')
    ensures s'.vars[x] == s.vars[x].(waiting := s.vars[x].waiting + [s.threads[t].phase.cb])
  {
    hide ListFree, Waits, LogOf, RunStep, CommitStep, WakeStep;
    assert WaitStep(ecd, s, t, Register(x), s');
  }

  // ---------------------------------------------------------------- set_dead

  function VarAt(s: State, x: Addr): Var {
    s.vars[x]
  }

  /** Only variable `x` and the phase of `t` change. */
  ghost predicate Touches(s: State, t: Tid, x: Addr, s': State) {
    && t in s.threads && t in s'.threads
    && s'.threads == s.threads[t := s.threads[t].(phase := s'.threads[t].phase)]
    && (forall y: Addr :: y != x ==> VarAt(s', y) == VarAt(s, y))
    && s'.changed == s.changed && s'.tokens == s.tokens
  }

  lemma TouchesOne(s: State, t: Tid, x: Addr, v: Var, ph: Phase)
    requires t in s.threads
    ensures Touches(s, t, x, SetPhase(SetVar(s, x, v), t, ph))
  {
  }

  lemma TouchesTwice(s: State, t: Tid, x: Addr, s1: State, s2: State)
    requires Touches(s, t, x, s1) && Touches(s1, t, x, s2)
    ensures Touches(s, t, x, s2)
  {
  }

  lemma MarksDead(ecd: bool, s: State, t: Tid, x: Addr) returns (s': State)
    requires t in s.threads && s.threads[t].phase.Dying? && x in s.threads[t].phase.todo
    ensures Next(ecd, s, By(t, MarkDead(x)), s') && Touches(s, t, x, s')
    ensures s'.vars[x] == s.vars[x].(dead := s.vars[x].dead + 1)
    ensures var ph := s.threads[t].phase;
            s'.threads == s.threads[t := s.threads[t].(phase :=
              if s.vars[x].dead >= 64 then Sweeping(ph.cb, x, ph.todo - {x}, false) else Dying(ph.cb, ph.todo - {x}))]
  {
    var ph, v := s.threads[t].phase, s.vars[x].(dead := s.vars[x].dead + 1);
    var ph' := if s.vars[x].dead >= 64 then Sweeping(ph.cb, x, ph.todo - {x}, false) else Dying(ph.cb, ph.todo - {x});
    s' := SetPhase(SetVar(s, x, v), t, ph');
    TouchesOne(s, t, x, v, ph');
    MarkIsStep(ecd, s, t, x, ph');
    hide Next, Touches;
  }

  lemma MarkIsStep(ecd: bool, s: State, t: Tid, x: Addr, ph': Phase)
    requires t in s.threads && s.threads[t].phase.Dying? && x in s.threads[t].phase.todo
    requires var ph := s.threads[t].phase;
             ph' == if s.vars[x].dead >= 64 then Sweeping(ph.cb, x, ph.todo - {x}, false)
                    else Dying(ph.cb, ph.todo - {x})
    ensures Next(ecd, s, By(t, MarkDead(x)), SetPhase(SetVar(s, x, s.vars[x].(dead := s.vars[x].dead + 1)), t, ph'))
  {
    hide Waits, LogOf, RunStep, CommitStep, WakeStep;
    assert WaitStep(ecd, s, t, MarkDead(x), SetPhase(SetVar(s, x, s.vars[x].(dead := s.vars[x].dead + 1)), t, ph'));
  }

  lemma StartsSweep(ecd: bool, s: State, t: Tid, x: Addr) returns (s': State)
    requires t in s.threads && s.threads[t].phase.Sweeping? && s.threads[t].phase.x == x && !s.threads[t].phase.locked
    requires ListFree(s, x)
    ensures Next(ecd, s, By(t, SweepStart), s') && Touches(s, t, x, s')
    ensures s'.vars[x] == s.vars[x].(dead := 0)
    ensures var ph := s.threads[t].phase;
            s'.threads == s.threads[t := s.threads[t].(phase := Sweeping(ph.cb, x, ph.todo, true))]
  {
    hide Waits, LogOf, RunStep, CommitStep, WakeStep, ListFree;
    s' := SetPhase(SetVar(s, x, s.vars[x].(dead := 0)), t,
                   Sweeping(s.threads[t].phase.cb, x, s.threads[t].phase.todo, true));
    assert WaitStep(ecd, s, t, SweepStart, s');
  }

  lemma EndsSweep(ecd: bool, s: State, t: Tid, x: Addr) returns (s': State)
    requires t in s.threads && s.threads[t].phase.Sweeping? && s.threads[t].phase.x == x && s.threads[t].phase.locked
    ensures Next(ecd, s, By(t, SweepEnd), s') && Touches(s, t, x, s')
    ensures s'.vars[x] == s.vars[x].(waiting := Retain(s, s.vars[x].waiting))
    ensures var ph := s.threads[t].phase;
            s'.threads == s.threads[t := s.threads[t].(phase := Dying(ph.cb, ph.todo))]
  {
    hide Waits, LogOf, RunStep, CommitStep, WakeStep, Retain;
    s' := SetPhase(SetVar(s, x, s.vars[x].(waiting := Retain(s, s.vars[x].waiting))), t,
                   Dying(s.threads[t].phase.cb, s.threads[t].phase.todo));
    assert WaitStep(ecd, s, t, SweepEnd, s');
  }

  /** A thread that goes on with its control block neither dies nor revives anybody. */
  lemma SameAlive(s: State, t: Tid, s': State, list: seq<Cb>)
    requires t in s.threads && s'.threads.Keys == s.threads.Keys
    requires forall u :: u in s.threads && u != t ==> s'.threads[u] == s.threads[u]
    requires CbOf(s'.threads[t].phase) == CbOf(s.threads[t].phase)
    ensures Retain(s', list) == Retain(s, list)
  {
    hide CbOf, Keep;
    assert Upgradable(s', list) == Upgradable(s, list);
  }

  lemma Sweeps(ecd: bool, s: State, t: Tid, x: Addr) returns (s': State)
    requires t in s.threads && s.threads[t].phase.Sweeping? && s.threads[t].phase.x == x && !s.threads[t].phase.locked
    requires ListFree(s, x)
    ensures Leads(ecd, s, t, [SweepStart] + [SweepEnd], s') && Touches(s, t, x, s')
    ensures t in s'.threads && s'.threads[t].phase == Dying(s.threads[t].phase.cb, s.threads[t].phase.todo)
    ensures s'.vars[x] == Var(s.vars[x].value, Retain(s, s.vars[x].waiting), 0)
  {
    hide Next, Retain, Leads, ListFree, Touches;
    var s2 := StartsSweep(ecd, s, t, x);
    SameAlive(s, t, s2, s.vars[x].waiting);
    s' := EndsSweep(ecd, s2, t, x);
    TouchesTwice(s, t, x, s2, s');
    LeadsOnce(ecd, s2, t, SweepEnd, s');
    LeadsNext(ecd, s, t, SweepStart, s2, [SweepEnd], s');
  }

  lemma StillFree(s: State, t: Tid, s': State, x: Addr)
    requires t in s.threads && t in s'.threads && s'.threads == s.threads[t := s'.threads[t]] && ListFree(s, x)
    requires s'.threads[t].phase.Sweeping? ==> !s'.threads[t].phase.locked
    ensures ListFree(s', x)
  {
  }

  /** `set_dead`, undisturbed: `MarkDead`, and past 64 a whole sweep. */
  lemma Dies(ecd: bool, s: State, t: Tid, x: Addr) returns (acts: seq<Action>, s': State)
    requires t in s.threads && s.threads[t].phase.Dying? && x in s.threads[t].phase.todo && ListFree(s, x)
    ensures acts == [MarkDead(x)] + if s.vars[x].dead >= 64 then [SweepStart] + [SweepEnd] else []
    ensures Leads(ecd, s, t, acts, s') && Touches(s, t, x, s')
    ensures t in s'.threads && s'.threads[t].phase == Dying(s.threads[t].phase.cb, s.threads[t].phase.todo - {x})
    ensures s'.vars[x] == if s.vars[x].dead >= 64 then Var(s.vars[x].value, Retain(s, s.vars[x].waiting), 0)
                          else s.vars[x].(dead := s.vars[x].dead + 1)
  {
    hide Next, Retain, Leads, ListFree, Touches;
    var s1 := MarksDead(ecd, s, t, x);
    if s.vars[x].dead >= 64 {
      StillFree(s, t, s1, x);
      SameAlive(s, t, s1, s.vars[x].waiting);
      s' := Sweeps(ecd, s1, t, x);
      TouchesTwice(s, t, x, s1, s');
      LeadsNext(ecd, s, t, MarkDead(x), s1, [SweepStart] + [SweepEnd], s');
      acts := [MarkDead(x)] + ([SweepStart] + [SweepEnd]);
    } else {
      LeadsOnce(ecd, s, t, MarkDead(x), s1);
      assert [MarkDead(x)] + [] == [MarkDead(x)];
      acts, s' := [MarkDead(x)], s1;
    }
  }

  method SetDeadBlock(ecd: bool, b: VarControlBlock, alive: set<ControlBlock>, names: Names,
      ghost s: State, ghost t: Tid)
    returns (ghost acts: seq<Action>, ghost s': State)
    requires Shows(b, s.vars[b.address], names) && TellsAlive(alive, s, names)
    requires t in s.threads && s.threads[t].phase.Dying? && b.address in s.threads[t].phase.todo
    requires ListFree(s, b.address)
    modifies b`waiting, b`dead
    ensures acts == [MarkDead(b.address)] + if old(b.dead) >= 64 then [SweepStart] + [SweepEnd] else []
    ensures Leads(ecd, s, t, acts, s') && Shows(b, s'.vars[b.address], names)
  {
    hide Leads, TellsAlive, ListFree, Retain;
    acts, s' := Dies(ecd, s, t, b.address);
    RetainNamed(b.waiting, names, alive, s);
    b.SetDead(alive);
  }

  // ---------------------------------------------------------------- wake_all

  /** The waiters signalled by somebody who holds `list`, and the threads that get unparked for it. */
  function Roused(s: State, list: seq<Cb>): set<Tid> {
    set cb | cb in Upgradable(s, list) && cb !in s.changed :: cb.owner
  }

  /** The state when the whole list has been dealt with. */
  function AllSignalled(s: State, t: Tid): State
    requires t in s.threads && s.threads[t].phase.Waking?
  {
    var ph := s.threads[t].phase;
    SetPhase(s, t, Waking(ph.todo, [], None)).(
      changed := s.changed + Upgradable(s, ph.taken), tokens := s.tokens + Roused(s, ph.taken))
  }

  /** The state after the first waiter has been dealt with. */
  function OneSignalled(s: State, t: Tid): State
    requires t in s.threads && s.threads[t].phase.Waking? && s.threads[t].phase.taken != []
  {
    var ph := s.threads[t].phase;
    SetPhase(s, t, Waking(ph.todo, ph.taken[1..], None)).(
      changed := s.changed + Upgradable(s, [ph.taken[0]]), tokens := s.tokens + Roused(s, [ph.taken[0]]))
  }

  lemma RousesOne(s: State, cb: Cb)
    ensures Upgradable(s, [cb]) == if Alive(s, cb) then {cb} else {}
    ensures Roused(s, [cb]) == if Alive(s, cb) && cb !in s.changed then {cb.owner} else {}
  {
    hide Alive;
  }

  /** A dead waiter, or one whose flag is cleared already. */
  lemma SignalsNobody(ecd: bool, s: State, t: Tid)
    requires t in s.threads && s.threads[t].phase.Waking?
    requires s.threads[t].phase.unpark.None? && s.threads[t].phase.taken != []
    requires var cb := s.threads[t].phase.taken[0]; !Alive(s, cb) || cb in s.changed
    ensures Next(ecd, s, By(t, Signal), OneSignalled(s, t))
  {
    var ph := s.threads[t].phase;
    RousesOne(s, ph.taken[0]);
    hide RunStep, CommitStep, WaitStep, Alive, Upgradable, Roused;
    var s' := SetPhase(s, t, Waking(ph.todo, ph.taken[1..], None));
    assert s'.changed == OneSignalled(s, t).changed && s'.tokens == OneSignalled(s, t).tokens;
    assert WakeStep(s, t, Signal, s');
  }

  lemma SignalsWaiter(ecd: bool, s: State, t: Tid) returns (s1: State)
    requires t in s.threads && s.threads[t].phase.Waking?
    requires s.threads[t].phase.unpark.None? && s.threads[t].phase.taken != []
    requires var cb := s.threads[t].phase.taken[0]; Alive(s, cb) && cb !in s.changed
    ensures var ph := s.threads[t].phase;
            s1 == SetPhase(s, t, Waking(ph.todo, ph.taken[1..], Some(ph.taken[0].owner))).(
              changed := s.changed + {ph.taken[0]})
    ensures Next(ecd, s, By(t, Signal), s1)
  {
    var ph := s.threads[t].phase;
    hide RunStep, CommitStep, WaitStep, Alive;
    s1 := SetPhase(s, t, Waking(ph.todo, ph.taken[1..], Some(ph.taken[0].owner))).(
      changed := s.changed + {ph.taken[0]});
    assert WakeStep(s, t, Signal, s1);
  }

  lemma Unparks(ecd: bool, s: State, t: Tid) returns (s1: State)
    requires t in s.threads && s.threads[t].phase.Waking? && s.threads[t].phase.unpark.Some?
    ensures var ph := s.threads[t].phase;
            s1 == SetPhase(s, t, Waking(ph.todo, ph.taken, None)).(tokens := s.tokens + {ph.unpark.value})
    ensures Next(ecd, s, By(t, Unpark), s1)
  {
    var ph := s.threads[t].phase;
    hide RunStep, CommitStep, WaitStep;
    s1 := SetPhase(s, t, Waking(ph.todo, ph.taken, None)).(tokens := s.tokens + {ph.unpark.value});
    assert WakeStep(s, t, Unpark, s1);
  }

  lemma SignalsAndUnparks(ecd: bool, s: State, t: Tid) returns (s1: State)
    requires t in s.threads && s.threads[t].phase.Waking?
    requires s.threads[t].phase.unpark.None? && s.threads[t].phase.taken != []
    requires var cb := s.threads[t].phase.taken[0]; Alive(s, cb) && cb !in s.changed
    ensures Next(ecd, s, By(t, Signal), s1) && Next(ecd, s1, By(t, Unpark), OneSignalled(s, t))
  {
    hide Next, Alive, Upgradable, Roused;
    RousesOne(s, s.threads[t].phase.taken[0]);
    s1 := SignalsWaiter(ecd, s, t);
    var s2 := Unparks(ecd, s1, t);
    assert s2.threads == OneSignalled(s, t).threads;
    assert s2 == OneSignalled(s, t);
  }

  lemma PhaseTwice(s: State, t: Tid, ph: Phase, ph': Phase, changed: set<Cb>, tokens: set<Tid>, changed': set<Cb>,
      tokens': set<Tid>)
    requires t in s.threads
    ensures var s1 := SetPhase(s, t, ph).(changed := changed, tokens := tokens);
            && t in s1.threads && s1.threads[t].phase == ph && s1.changed == changed && s1.tokens == tokens
            && SetPhase(s1, t, ph').(changed := changed', tokens := tokens')
            == SetPhase(s, t, ph').(changed := changed', tokens := tokens')
  {
    var th := s.threads[t];
    assert s.threads[t := th.(phase := ph)][t := th.(phase := ph')] == s.threads[t := th.(phase := ph')];
  }

  /** No step of a waker changes who is alive. */
  lemma WakerKillsNobody(s: State, t: Tid)
    requires t in s.threads && s.threads[t].phase.Waking? && s.threads[t].phase.taken != []
    ensures forall cb :: Alive(OneSignalled(s, t), cb) <==> Alive(s, cb)
  {
    hide Upgradable, Roused;
  }

  lemma WakerRouses(s: State, t: Tid)
    requires t in s.threads && s.threads[t].phase.Waking? && s.threads[t].phase.taken != []
    ensures AllSignalled(OneSignalled(s, t), t) == AllSignalled(s, t)
  {
    var taken, todo, s1 := s.threads[t].phase.taken, s.threads[t].phase.todo, OneSignalled(s, t);
    assert taken == [taken[0]] + taken[1..];
    WakerKillsNobody(s, t);
    PhaseTwice(s, t, Waking(todo, taken[1..], None), Waking(todo, [], None), s1.changed, s1.tokens,
               s.changed + Upgradable(s, taken), s.tokens + Roused(s, taken));
    hide Alive, Upgradable, Roused, SetPhase;
    RousedParts(s, taken[0], taken[1..], s1);
    assert s1.changed + Upgradable(s1, taken[1..]) == s.changed + Upgradable(s, taken);
    assert s1.tokens + Roused(s1, taken[1..]) == s.tokens + Roused(s, taken);
  }

  lemma RousedParts(s: State, cb: Cb, rest: seq<Cb>, s1: State)
    requires (forall c :: Alive(s1, c) <==> Alive(s, c)) && s1.changed == s.changed + Upgradable(s, [cb])
    ensures Upgradable(s, [cb] + rest) == Upgradable(s, [cb]) + Upgradable(s1, rest)
    ensures Roused(s, [cb] + rest) == Roused(s, [cb]) + Roused(s1, rest)
  {
    hide Alive;
  }

  /** Signalling the list one waiter at a time clears the flags of the live ones and unparks those
      that had not been signalled before. */
  lemma {:induction false} Rouses(ecd: bool, s: State, t: Tid) returns (acts: seq<Action>)
    requires t in s.threads && s.threads[t].phase.Waking? && s.threads[t].phase.unpark.None?
    ensures Leads(ecd, s, t, acts, AllSignalled(s, t))
    decreases if t in s.threads && s.threads[t].phase.Waking? then |s.threads[t].phase.taken| else 0
  {
    var taken := s.threads[t].phase.taken;
    hide Next, Alive, Leads;
    if taken == [] {
      acts := [];
      NothingToRouse(ecd, s, t);
    } else {
      WakerRouses(s, t);
      hide AllSignalled;
      acts := Rouses(ecd, OneSignalled(s, t), t);
      if Alive(s, taken[0]) && taken[0] !in s.changed {
        var s1 := SignalsAndUnparks(ecd, s, t);
        LeadsNext(ecd, s1, t, Unpark, OneSignalled(s, t), acts, AllSignalled(s, t));
        LeadsNext(ecd, s, t, Signal, s1, [Unpark] + acts, AllSignalled(s, t));
        acts := [Signal] + ([Unpark] + acts);
      } else {
        SignalsNobody(ecd, s, t);
        LeadsNext(ecd, s, t, Signal, OneSignalled(s, t), acts, AllSignalled(s, t));
        acts := [Signal] + acts;
      }
    }
  }

  lemma NothingToRouse(ecd: bool, s: State, t: Tid)
    requires t in s.threads && s.threads[t].phase.Waking?
    requires s.threads[t].phase.taken == [] && s.threads[t].phase.unpark.None?
    ensures Leads(ecd, s, t, [], AllSignalled(s, t))
  {
    var s' := AllSignalled(s, t);
    assert Upgradable(s, []) == {} && Roused(s, []) == {};
    hide Upgradable, Roused, Next;
    assert s'.threads == s.threads && s'.changed == s.changed && s'.tokens == s.tokens;
  }

  lemma Takes(ecd: bool, s: State, t: Tid, x: Addr) returns (s': State)
    requires t in s.threads && s.threads[t].phase.Waking? && s.threads[t].phase.taken == []
    requires s.threads[t].phase.unpark.None? && Least(x, s.threads[t].phase.todo) && ListFree(s, x)
    ensures Next(ecd, s, By(t, Take(x)), s')
    ensures s' == SetPhase(SetVar(s, x, s.vars[x].(waiting := [])), t,
                           Waking(s.threads[t].phase.todo - {x}, s.vars[x].waiting, None))
  {
    hide RunStep, CommitStep, WaitStep, ListFree, Least;
    s' := SetPhase(SetVar(s, x, s.vars[x].(waiting := [])), t,
                   Waking(s.threads[t].phase.todo - {x}, s.vars[x].waiting, None));
    assert WakeStep(s, t, Take(x), s');
  }

  lemma TakenAlive(s: State, t: Tid, x: Addr, list: seq<Cb>)
    requires t in s.threads && s.threads[t].phase.Waking?
    ensures var s1 := SetPhase(SetVar(s, x, s.vars[x].(waiting := [])), t,
                               Waking(s.threads[t].phase.todo - {x}, s.vars[x].waiting, None));
            && Upgradable(s1, list) == Upgradable(s, list) && Roused(s1, list) == Roused(s, list)
  {
    var s1 := SetPhase(SetVar(s, x, s.vars[x].(waiting := [])), t,
                       Waking(s.threads[t].phase.todo - {x}, s.vars[x].waiting, None));
    assert forall cb :: Alive(s1, cb) <==> Alive(s, cb);
    hide Alive;
    assert Upgradable(s1, list) == Upgradable(s, list);
  }

  /** `wake_all` on `x`, undisturbed: the list is taken, its live waiters signalled. */
  lemma Wakes(ecd: bool, s: State, t: Tid, x: Addr) returns (acts: seq<Action>, s': State)
    requires t in s.threads && s.threads[t].phase.Waking? && s.threads[t].phase.taken == []
    requires s.threads[t].phase.unpark.None? && Least(x, s.threads[t].phase.todo) && ListFree(s, x)
    ensures Leads(ecd, s, t, acts, s') && t in s'.threads
    ensures s'.threads[t].phase == Waking(s.threads[t].phase.todo - {x}, [], None)
    ensures s'.vars[x] == s.vars[x].(waiting := [])
    ensures s'.changed == s.changed + Upgradable(s, s.vars[x].waiting)
    ensures s'.tokens == s.tokens + Roused(s, s.vars[x].waiting)
  {
    hide Next, Leads, Alive, Upgradable, Roused, ListFree, Least;
    var s1 := Takes(ecd, s, t, x);
    TakenAlive(s, t, x, s.vars[x].waiting);
    var rest := Rouses(ecd, s1, t);
    s' := AllSignalled(s1, t);
    LeadsNext(ecd, s, t, Take(x), s1, rest, s');
    acts := [Take(x)] + rest;
  }

  /** The flags of the listed waiters are as the machine has them. */
  ghost predicate ShowsFlags(list: seq<ControlBlock>, names: Names, s: State)
    reads set c | c in list
  {
    forall c :: c in list ==> c in names && (c.blocked <==> names[c] !in s.changed)
  }

  lemma SignalledFlags(list: seq<ControlBlock>, names: Names, alive: set<ControlBlock>, s: State, c: ControlBlock)
    requires (forall d :: d in list ==> d in names) && TellsAlive(alive, s, names) && c in list
    ensures c in alive <==> names[c] in Upgradable(s, Named(list, names))
    ensures c in alive && names[c] !in s.changed ==> names[c].owner in Roused(s, Named(list, names))
  {
    hide Alive;
    var i :| 0 <= i < |list| && list[i] == c;
    assert Named(list, names)[i] == names[c];
  }

  /** `wake_all` on the object does what `Take` and the signals after it do: the same list, the same
      flags, and who is unparked gets a token. */
  method WakeAllBlock(ecd: bool, b: VarControlBlock, alive: set<ControlBlock>, names: Names,
      ghost s: State, ghost t: Tid)
    returns (ghost acts: seq<Action>, ghost s': State)
    requires Shows(b, s.vars[b.address], names) && TellsAlive(alive, s, names) && ShowsFlags(b.waiting, names, s)
    requires t in s.threads && s.threads[t].phase.Waking? && s.threads[t].phase.taken == []
    requires s.threads[t].phase.unpark.None? && Least(b.address, s.threads[t].phase.todo) && ListFree(s, b.address)
    modifies b`waiting, set c | c in b.waiting
    ensures Leads(ecd, s, t, acts, s') && Shows(b, s'.vars[b.address], names)
    ensures ShowsFlags(old(b.waiting), names, s')
    ensures forall c :: c in old(b.waiting) && c.unparks > old(c.unparks) ==> names[c].owner in s'.tokens
  {
    hide Leads, TellsAlive, ListFree, Upgradable, Roused;
    ghost var list := b.waiting;
    acts, s' := Wakes(ecd, s, t, b.address);
    forall c | c in list
      ensures c in alive <==> names[c] in Upgradable(s, Named(list, names))
      ensures c in alive && names[c] !in s.changed ==> names[c].owner in Roused(s, Named(list, names))
    {
      SignalledFlags(list, names, alive, s, c);
    }
    b.WakeAll(alive);
  }
}
