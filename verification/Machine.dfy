/** Any number of threads running transactions on shared variables, one atomic step at a time:
    body reads, `commit`, `wait_for_change`, and the driver loops around them. */
module Machine {
  import opened Values
  import opened Logs
  import opened Programs
  import opened RunFacts

  /** A `ControlBlock`: the thread it parks and a number of its own. */
  datatype Cb = Cb(owner: Tid, serial: nat)

  /** A `VarControlBlock`. Weak references are control-block names; whether one can be upgraded
      depends on its owner still being in `wait_for_change`. */
  datatype Var = Var(value: Arc, waiting: seq<Cb>, dead: nat)

  type Vars = m: imap<Addr, Var> | forall x: Addr :: x in m
    ghost witness imap x: Addr :: Var(Arc(Id(x, -1 - x), Nothing), [], 0)

  type Histories = m: imap<Addr, seq<Arc>> | forall x: Addr :: x in m
    ghost witness imap x: Addr :: []

  type Body = p: Prog | Closed(p)
    ghost witness Return(Nothing)

  datatype Phase =
    /** Outside any transaction. */
    | Idle
    /** Running the closure. */
    | Running
    /** In `commit`: records not visited yet, and the variables guarded so far. */
    | Locking(todo: set<Addr>, rd: set<Addr>, wr: set<Addr>)
    /** `commit` returns false: the guards still to be dropped. */
    | Unlocking(rd: set<Addr>, wr: set<Addr>)
    /** Past the lock point: read guards to drop, then values to write back. */
    | Publishing(rd: set<Addr>, wr: set<Addr>)
    /** In `wake_all`: variables whose list is not taken yet, the rest of the list taken last,
        and a thread whose flag is cleared but which is not unparked yet. */
    | Waking(todo: set<Addr>, taken: seq<Cb>, unpark: Option<Tid>)
    /** In `wait_for_change`: variables not registered with yet, and those compared already. */
    | Registering(cb: Cb, todo: set<Addr>, reg: set<Addr>)
    /** Registered with `x`, not compared with it yet. */
    | Checking(cb: Cb, x: Addr, todo: set<Addr>, reg: set<Addr>)
    /** In `ControlBlock::wait`: about to test `blocked`, and inside `park`. */
    | Polling(cb: Cb)
    | Parked(cb: Cb)
    /** In the `set_dead` loop. */
    | Dying(cb: Cb, todo: set<Addr>)
    /** Sweeping the list of `x`, before and after `store(0)` under its mutex. */
    | Sweeping(cb: Cb, x: Addr, todo: set<Addr>, locked: bool)

  /** `loads` and `allocs` are the answers memory has given the current run of the closure, and
      `run` is how far it has got with them; in `commit` and `wait_for_change` its log is the log
      of the transaction. */
  datatype Thread = Thread(body: Body, loads: seq<Access>, allocs: seq<Id>, run: Run, phase: Phase)

  /** What happened, in the order of the lock points. */
  datatype Event =
    | Committed(t: Tid, body: Body, picks: seq<bool>, v: Val)
    | Stored(x: Addr, v: Val)

  datatype State = State(
    vars: Vars,
    threads: map<Tid, Thread>,
    /** Control blocks whose `blocked` flag is false. */
    changed: set<Cb>,
    /** Threads holding an unpark token. */
    tokens: set<Tid>,
    nextCb: nat,
    nextId: nat,
    /** Bookkeeping that no step tests: the store in which each commit is one atomic step, every
        value each variable has held, the events so far, the allocations `write_atomic` installed. */
    abs: Store,
    hist: Histories,
    events: seq<Event>,
    atomics: set<int>)

  // ---------------------------------------------------------------- observations

  ghost function Contents(s: State): (m: Store)
    ensures forall x: Addr :: m[x] == s.vars[x].value
  {
    imap x: Addr :: s.vars[x].value
  }

  /** The value in variable `x`, its value in the atomic store, every value it has held, the
      threads waiting for it, and its counter of dead ones. */
  function Cur(s: State, x: Addr): Arc {
    s.vars[x].value
  }

  function AbsAt(s: State, x: Addr): Arc {
    s.abs[x]
  }

  function HistAt(s: State, x: Addr): seq<Arc> {
    s.hist[x]
  }

  function ListAt(s: State, x: Addr): seq<Cb> {
    s.vars[x].waiting
  }

  function DeadAt(s: State, x: Addr): nat {
    s.vars[x].dead
  }

  /** A run of `body` from an empty log, given answers. */
  function RunFrom(ecd: bool, body: Body, loads: seq<Access>, allocs: seq<Id>): Run {
    Exec(ecd, body, Ctx(map[], Replay(loads, allocs), []))
  }

  function LogOf(th: Thread): Log {
    if th.run.Done? then th.run.ctx.log else map[]
  }

  /** Variables a thread holds a write guard on, and those it holds a read guard on. */
  function WriteGuards(ph: Phase): set<Addr> {
    match ph
    case Locking(_, _, wr) => wr
    case Unlocking(_, wr) => wr
    case Publishing(_, wr) => wr
    case _ => {}
  }

  function ReadGuards(ph: Phase): set<Addr> {
    match ph
    case Locking(_, rd, _) => rd
    case Unlocking(rd, _) => rd
    case Publishing(rd, _) => rd
    case _ => {}
  }

  ghost predicate FreeToRead(s: State, x: Addr) {
    forall t :: t in s.threads ==> x !in WriteGuards(s.threads[t].phase)
  }

  ghost predicate FreeToWrite(s: State, x: Addr) {
    forall t :: t in s.threads ==> x !in WriteGuards(s.threads[t].phase) && x !in ReadGuards(s.threads[t].phase)
  }

  /** The mutex around the list of `x` is free; only a sweep holds it across steps. */
  ghost predicate ListFree(s: State, x: Addr) {
    forall t :: t in s.threads ==> var ph := s.threads[t].phase; !(ph.Sweeping? && ph.x == x && ph.locked)
  }

  function CbOf(ph: Phase): Option<Cb> {
    match ph
    case Registering(cb, _, _) => Some(cb)
    case Checking(cb, _, _, _) => Some(cb)
    case Polling(cb) => Some(cb)
    case Parked(cb) => Some(cb)
    case Dying(cb, _) => Some(cb)
    case Sweeping(cb, _, _, _) => Some(cb)
    case _ => None
  }

  /** `Weak::upgrade` succeeds. */
  predicate Alive(s: State, cb: Cb) {
    cb.owner in s.threads && CbOf(s.threads[cb.owner].phase) == Some(cb)
  }

  /** The allocations a thread keeps alive. */
  function HeldBy(th: Thread): set<Arc> {
    match th.phase
    case Running => Held(th.run)
    case Locking(_, _, _) => Arcs(LogOf(th))
    case Publishing(_, _) => Arcs(LogOf(th))
    case Registering(_, todo, _) => ValuesAt(Waits(LogOf(th)), todo)
    case Checking(_, x, todo, _) => ValuesAt(Waits(LogOf(th)), todo + {x})
    case _ => {}
  }

  function ValuesAt(m: map<Addr, Arc>, xs: set<Addr>): set<Arc> {
    set x | x in xs && x in m :: m[x]
  }

  ghost predicate InVariable(s: State, a: Arc) {
    exists x: Addr :: Cur(s, x) == a
  }

  ghost predicate InThread(s: State, a: Arc) {
    exists t :: t in s.threads && a in HeldBy(s.threads[t])
  }

  /** The allocation `a` is alive. */
  ghost predicate InUse(s: State, a: Arc) {
    InVariable(s, a) || InThread(s, a)
  }

  /** The allocator may hand out an address no live allocation has. */
  ghost predicate Unallocated(s: State, ptr: nat) {
    forall a :: InUse(s, a) ==> a.id.ptr != ptr
  }

  // ---------------------------------------------------------------- steps

  function SetThread(s: State, t: Tid, th: Thread): State {
    s.(threads := s.threads[t := th])
  }

  function SetPhase(s: State, t: Tid, ph: Phase): State
    requires t in s.threads
  {
    SetThread(s, t, s.threads[t].(phase := ph))
  }

  function SetVar(s: State, x: Addr, v: Var): State {
    s.(vars := s.vars[x := v])
  }

  /** Begin a run of the closure with an empty log, as `clear` and the top of the loop do. */
  function Begin(ecd: bool, body: Body): Thread {
    Thread(body, [], [], RunFrom(ecd, body, [], []), Running)
  }

  datatype Action =
    | Start(body: Body)
    | LoadVar
    | Box(ptr: nat)
    | EnterCommit
    | GiveUp
    | Rerun
    | Block
    | Lock(x: Addr)
    | Decide
    | Unlock(x: Addr)
    | Restart
    | DropRead(x: Addr)
    | WriteBack(x: Addr)
    | StartWake
    | Take(x: Addr)
    | Signal
    | Unpark
    | Finish
    | Register(x: Addr)
    | Check
    | StartPoll
    | Poll
    | Unparked
    | MarkDead(x: Addr)
    | SweepStart
    | SweepEnd
    | Leave

  function Loaded(ecd: bool, th: Thread, x: Addr, a: Arc): Thread {
    var loads := th.loads + [Access(x, a)];
    th.(loads := loads, run := RunFrom(ecd, th.body, loads, th.allocs))
  }

  function Allocated(ecd: bool, th: Thread, id: Id): Thread {
    var allocs := th.allocs + [id];
    th.(allocs := allocs, run := RunFrom(ecd, th.body, th.loads, allocs))
  }

  /** The closure running. */
  ghost predicate RunStep(ecd: bool, s: State, t: Tid, a: Action, s': State)
    requires t in s.threads
  {
    var th := s.threads[t];
    match a
    case Start(body) =>
      th.phase.Idle? && s' == SetThread(s, t, Begin(ecd, body))
    case LoadVar =>
      // `read_ref_atomic`
      && th.phase.Running? && th.run.Ask? && th.run.q.AskLoad?
      && FreeToRead(s, th.run.q.x)
      && s' == SetThread(s, t, Loaded(ecd, th, th.run.q.x, s.vars[th.run.q.x].value))
    case Box(ptr) =>
      // `Arc::new`
      && th.phase.Running? && th.run.Ask? && th.run.q.AskAlloc?
      && Unallocated(s, ptr)
      && s' == SetThread(s, t, Allocated(ecd, th, Id(ptr, s.nextId))).(nextId := s.nextId + 1)
    case EnterCommit =>
      && th.phase.Running? && th.run.Done? && th.run.out.Ok?
      && s' == SetPhase(s, t, Locking(LogOf(th).Keys, {}, {}))
    case GiveUp =>
      // the control function answered `Abort`
      && th.phase.Running? && th.run.Done? && !th.run.out.Ok?
      && s' == SetPhase(s, t, Idle)
    case Rerun =>
      // `with_control` does not wait on `Failure`
      && th.phase.Running? && th.run.Done? && th.run.out.Failed?
      && s' == SetThread(s, t, Begin(ecd, th.body))
    case Block =>
      // `wait_for_change`; `with_err` calls it on `Failure` as well
      && th.phase.Running? && th.run.Done? && !th.run.out.Ok?
      && s' == SetPhase(s, t, Registering(Cb(t, s.nextCb), Waits(LogOf(th)).Keys, {})).(nextCb := s.nextCb + 1)
    case _ => false
  }

  /** One record of `commit`'s first phase. */
  ghost predicate LockStep(s: State, t: Tid, x: Addr, s': State)
    requires t in s.threads && s.threads[t].phase.Locking?
  {
    var Locking(todo, rd, wr) := s.threads[t].phase;
    var log := LogOf(s.threads[t]);
    && Least(x, todo) && x in log
    && var e := log[x];
       if e.ReadObsolete? then
         s' == SetPhase(s, t, Locking(todo - {x}, rd, wr))
       else if e.Read? then
         && FreeToRead(s, x)
         && s' == SetPhase(s, t,
                           if Admits(e, s.vars[x].value) then Locking(todo - {x}, rd + {x}, wr)
                           else Unlocking(rd + {x}, wr))
       else
         && FreeToWrite(s, x)
         && s' == SetPhase(s, t,
                           if Admits(e, s.vars[x].value) then Locking(todo - {x}, rd, wr + {x})
                           else Unlocking(rd, wr + {x}))
  }

  /** `commit`. */
  ghost predicate CommitStep(ecd: bool, s: State, t: Tid, a: Action, s': State)
    requires t in s.threads
  {
    var ph := s.threads[t].phase;
    match a
    case Lock(x) =>
      ph.Locking? && LockStep(s, t, x, s')
    case Decide =>
      // the loop over the records ends
      && ph.Locking? && ph.todo == {} && s.threads[t].run.Done? && s.threads[t].run.out.Ok?
      && s' == SetPhase(s, t, Publishing(ph.rd, ph.wr)).(
                 abs := AllInstalled(LogOf(s.threads[t]), s.abs),
                 events := s.events + [Decision(s, t)])
    case Unlock(x) =>
      && ph.Unlocking? && x in ph.rd + ph.wr
      && s' == SetPhase(s, t, Unlocking(ph.rd - {x}, ph.wr - {x}))
    case Restart =>
      && ph.Unlocking? && ph.rd == {} && ph.wr == {}
      && s' == SetThread(s, t, Begin(ecd, s.threads[t].body))
    case DropRead(x) =>
      && ph.Publishing? && Least(x, ph.rd)
      && s' == SetPhase(s, t, Publishing(ph.rd - {x}, ph.wr))
    case WriteBack(x) =>
      // `*lock = value.clone()`, and the guard is dropped
      && ph.Publishing? && ph.rd == {} && Least(x, ph.wr)
      && x in Writes(LogOf(s.threads[t]))
      && s' == SetPhase(Installs(s, x, Writes(LogOf(s.threads[t]))[x]), t, Publishing({}, ph.wr - {x}))
    case StartWake =>
      && ph.Publishing? && ph.rd == {} && ph.wr == {}
      && s' == SetPhase(s, t, Waking(Writes(LogOf(s.threads[t])).Keys, [], None))
    case _ => false
  }

  function Decision(s: State, t: Tid): Event
    requires t in s.threads
  {
    var th := s.threads[t];
    if th.run.Done? && th.run.out.Ok? then Committed(t, th.body, th.run.ctx.picks, th.run.out.v)
    else Committed(t, th.body, [], Nothing)
  }

  function Installs(s: State, x: Addr, a: Arc): State {
    s.(vars := s.vars[x := s.vars[x].(value := a)], hist := s.hist[x := s.hist[x] + [a]])
  }

  /** `wake_all` for each written variable. */
  ghost predicate WakeStep(s: State, t: Tid, a: Action, s': State)
    requires t in s.threads
  {
    var ph := s.threads[t].phase;
    match a
    case Take(x) =>
      && ph.Waking? && ph.taken == [] && ph.unpark.None? && Least(x, ph.todo) && ListFree(s, x)
      && s' == SetPhase(SetVar(s, x, s.vars[x].(waiting := [])), t, Waking(ph.todo - {x}, s.vars[x].waiting, None))
    case Signal =>
      // `upgrade`, then `swap(false)`
      && ph.Waking? && ph.taken != [] && ph.unpark.None?
      && var cb := ph.taken[0];
         s' == if Alive(s, cb) && cb !in s.changed then
                 SetPhase(s, t, Waking(ph.todo, ph.taken[1..], Some(cb.owner))).(changed := s.changed + {cb})
               else
                 SetPhase(s, t, Waking(ph.todo, ph.taken[1..], None))
    case Unpark =>
      && ph.Waking? && ph.unpark.Some?
      && s' == SetPhase(s, t, Waking(ph.todo, ph.taken, None)).(tokens := s.tokens + {ph.unpark.value})
    case Finish =>
      // `commit` returns true and so does the driver
      && ph.Waking? && ph.todo == {} && ph.taken == [] && ph.unpark.None?
      && s' == SetPhase(s, t, Idle)
    case _ => false
  }

  /** `wait_for_change`, with the variables in any order. */
  ghost predicate WaitStep(ecd: bool, s: State, t: Tid, a: Action, s': State)
    requires t in s.threads
  {
    var ph := s.threads[t].phase;
    var waits := Waits(LogOf(s.threads[t]));
    match a
    case Register(x) =>
      && ph.Registering? && x in ph.todo && ListFree(s, x)
      && s' == SetPhase(SetVar(s, x, s.vars[x].(waiting := s.vars[x].waiting + [ph.cb])), t,
                        Checking(ph.cb, x, ph.todo - {x}, ph.reg))
    case Check =>
      && ph.Checking? && FreeToRead(s, ph.x) && ph.x in waits
      && s' == SetPhase(s, t,
                        if PtrEq(waits[ph.x], s.vars[ph.x].value) then Registering(ph.cb, ph.todo, ph.reg + {ph.x})
                        else Dying(ph.cb, ph.reg + {ph.x}))
    case StartPoll =>
      && ph.Registering? && ph.todo == {}
      && s' == SetPhase(s, t, Polling(ph.cb))
    case Poll =>
      && ph.Polling?
      && s' == SetPhase(s, t, if ph.cb in s.changed then Dying(ph.cb, waits.Keys) else Parked(ph.cb))
    case Unparked =>
      // `park_timeout` returns: token, timeout or spuriously
      && ph.Parked?
      && s' == SetPhase(s, t, Polling(ph.cb)).(tokens := s.tokens - {t})
    case MarkDead(x) =>
      // `fetch_add`
      && ph.Dying? && x in ph.todo
      && s' == SetPhase(SetVar(s, x, s.vars[x].(dead := s.vars[x].dead + 1)), t,
                        if s.vars[x].dead >= 64 then Sweeping(ph.cb, x, ph.todo - {x}, false)
                        else Dying(ph.cb, ph.todo - {x}))
    case SweepStart =>
      && ph.Sweeping? && !ph.locked && ListFree(s, ph.x)
      && s' == SetPhase(SetVar(s, ph.x, s.vars[ph.x].(dead := 0)), t,
                        Sweeping(ph.cb, ph.x, ph.todo, true))
    case SweepEnd =>
      && ph.Sweeping? && ph.locked
      && s' == SetPhase(SetVar(s, ph.x, s.vars[ph.x].(waiting := Retain(s, s.vars[ph.x].waiting))), t,
                        Dying(ph.cb, ph.todo))
    case Leave =>
      && ph.Dying? && ph.todo == {}
      && s' == SetThread(s, t, Begin(ecd, s.threads[t].body))
    case _ => false
  }

  /** The waiters in `list` whose weak reference can be upgraded. */
  function Upgradable(s: State, list: seq<Cb>): set<Cb> {
    set cb | cb in list && Alive(s, cb)
  }

  /** `guard.retain(|t| t.upgrade().is_some())`. */
  function Retain(s: State, list: seq<Cb>): seq<Cb> {
    Keep(list, Upgradable(s, list))
  }

  function Overwritten(s: State, x: Addr, a: Arc): State {
    s.(vars := s.vars[x := s.vars[x].(value := a)],
       nextId := s.nextId + 1,
       abs := s.abs[x := a],
       hist := s.hist[x := s.hist[x] + [a]],
       events := s.events + [Stored(x, a.val)],
       atomics := s.atomics + {s.nextId})
  }

  /** `write_atomic`: it wakes nobody. */
  ghost predicate AtomicStep(s: State, x: Addr, ptr: nat, v: Val, s': State) {
    && FreeToWrite(s, x) && Unallocated(s, ptr)
    && s' == Overwritten(s, x, Arc(Id(ptr, s.nextId), v))
  }

  datatype Move = By(t: Tid, a: Action) | Atomic(x: Addr, ptr: nat, v: Val)

  ghost predicate Next(ecd: bool, s: State, m: Move, s': State) {
    match m
    case By(t, a) =>
      && t in s.threads
      && (RunStep(ecd, s, t, a, s') || CommitStep(ecd, s, t, a, s') || WakeStep(s, t, a, s')
          || WaitStep(ecd, s, t, a, s'))
    case Atomic(x, ptr, v) => AtomicStep(s, x, ptr, v, s')
  }

  ghost predicate Init(s: State) {
    && (forall t :: t in s.threads ==>
        s.threads[t].phase.Idle? && s.threads[t].loads == [] && s.threads[t].allocs == [])
    && (forall x: Addr :: ListAt(s, x) == [] && DeadAt(s, x) == 0)
    && (forall x: Addr :: Cur(s, x).id.serial < s.nextId)
    && (forall x: Addr, y: Addr :: x != y ==>
        !PtrEq(Cur(s, x), Cur(s, y)) && Cur(s, x).id.serial != Cur(s, y).id.serial)
    && (forall x: Addr :: AbsAt(s, x) == Cur(s, x) && HistAt(s, x) == [Cur(s, x)])
    && s.changed == {} && s.events == [] && s.atomics == {}
  }

  /** A run of the whole system. */
  ghost predicate Behaviour(ecd: bool, states: seq<State>, moves: seq<Move>) {
    && |states| == |moves| + 1
    && Init(states[0])
    && forall i :: 0 <= i < |moves| ==> Next(ecd, states[i], moves[i], states[i + 1])
  }

  ghost predicate Reachable(ecd: bool, s: State) {
    exists states, moves :: Behaviour(ecd, states, moves) && states[|moves|] == s
  }
}
