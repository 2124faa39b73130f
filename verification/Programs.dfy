/** Transaction bodies, their execution on a log, and two reference semantics on plain stores. */
module Programs {
  import opened Values
  import opened Logs

  /** A transaction body: a deterministic closure, as the tree of its calls into the
      transaction. `k` gives the rest of the closure for each value a call may return. Errors
      are propagated, as with the `?` operator. */
  datatype Prog =
    | Return(v: Val)
    | Retry
    | Fail
    | ReadVar(x: Addr, k: imap<Val, Prog>)
    | WriteVar(x: Addr, w: Val, next: Prog)
    | ModifyVar(x: Addr, f: Val -> Val, next: Prog)
    | ExchangeVar(x: Addr, w: Val, k: imap<Val, Prog>)
    | OrElse(first: Prog, second: Prog, k: imap<Val, Prog>)

  /** The closure says what to do with every value it may be given. */
  ghost predicate Closed(p: Prog)
    decreases p
  {
    match p
    case Return(_) => true
    case Retry => true
    case Fail => true
    case ReadVar(_, k) => forall v :: v in k && Closed(k[v])
    case WriteVar(_, _, next) => Closed(next)
    case ModifyVar(_, _, next) => Closed(next)
    case ExchangeVar(_, _, k) => forall v :: v in k && Closed(k[v])
    case OrElse(a, b, k) => Closed(a) && Closed(b) && forall v :: v in k && Closed(k[v])
  }

  ghost predicate OrFree(p: Prog)
    decreases p
  {
    match p
    case Return(_) => true
    case Retry => true
    case Fail => true
    case ReadVar(_, k) => forall v :: v in k ==> OrFree(k[v])
    case WriteVar(_, _, next) => OrFree(next)
    case ModifyVar(_, _, next) => OrFree(next)
    case ExchangeVar(_, _, k) => forall v :: v in k ==> OrFree(k[v])
    case OrElse(_, _, _) => false
  }

  // ---------------------------------------------------------------- execution on the log

  /** One load of a variable from shared memory. */
  datatype Access = Access(x: Addr, arc: Arc)

  /** Where the loads and allocations of a run come from. `Replay` lists the answers other
      threads' progress gave, in order, and may run out; `Live` is memory nobody else touches. */
  datatype Env =
    | Replay(loads: seq<Access>, allocs: seq<Id>)
    | Live(store: Store, next: nat)

  datatype Answer = Pending | Given(arc: Arc, env: Env)

  function Load(e: Env, x: Addr): Answer {
    match e
    case Live(store, _) => Given(store[x], e)
    case Replay(loads, _) =>
      if loads != [] && loads[0].x == x then Given(loads[0].arc, e.(loads := loads[1..])) else Pending
  }

  function Alloc(e: Env, v: Val): Answer {
    match e
    case Live(_, next) => Given(Arc(Id(next, next), v), e.(next := next + 1))
    case Replay(_, allocs) =>
      if allocs != [] then Given(Arc(allocs[0], v), e.(allocs := allocs[1..])) else Pending
  }

  /** What a body asks of memory. */
  datatype Query = AskLoad(x: Addr) | AskAlloc(v: Val)

  datatype Outcome =
    | Ok(v: Val)
    | Retried
    /** `StmError::Failure`; `at` names the variable if the library itself raised it. */
    | Failed(at: Option<Addr>)

  /** The state of a run. `picks` records which branch of each `or` on the taken path was taken. */
  datatype Ctx = Ctx(log: Log, env: Env, picks: seq<bool>)

  /** A run either waits for memory, keeping the allocations `held` alive and with the answers
      `env` not used yet, or is over. */
  datatype Run = Ask(q: Query, held: set<Arc>, env: Env) | Done(out: Outcome, ctx: Ctx)

  datatype Fetched = Stuck | Conflict(env: Env) | Got(arc: Arc, env: Env)

  /** The value `read`, `modify` and `exchange` obtain, before they update the entry. With early
      conflict detection a variable that was only read is loaded again and compared. */
  function Fetch(ecd: bool, x: Addr, log: Log, e: Env): Fetched {
    if x in log then
      if ecd && log[x].Read? then
        match Load(e, x)
        case Pending => Stuck
        case Given(a, e') => if PtrEq(log[x].orig, a) then Got(log[x].Value(), e') else Conflict(e')
      else
        Got(log[x].Value(), e)
    else
      match Load(e, x)
      case Pending => Stuck
      case Given(a, e') => Got(a, e')
  }

  /** `read`: upgrade the entry, or insert what was loaded. */
  function LogRead(log: Log, x: Addr, loaded: Arc): Log {
    log[x := if x in log then log[x].AfterRead() else Read(loaded)]
  }

  /** `write`. */
  function LogWrite(log: Log, x: Addr, boxed: Arc): Log {
    log[x := if x in log then log[x].AfterWrite(boxed) else Write(boxed)]
  }

  /** `modify` and `exchange`: both in one pass over the entry. */
  function LogReadWrite(log: Log, x: Addr, loaded: Arc, boxed: Arc): Log {
    log[x := if x in log then log[x].AfterRead().AfterWrite(boxed) else ReadWrite(loaded, boxed)]
  }

  /** The outcome of one call into the transaction: memory has to answer first, early conflict
      detection raised `Failure`, or the body goes on as `p`. */
  datatype Call = Waiting(q: Query, held: set<Arc>, env: Env) | Raised(x: Addr, env: Env) | Continue(p: Prog, c: Ctx)

  predicate IsCall(p: Prog) {
    p.ReadVar? || p.WriteVar? || p.ModifyVar? || p.ExchangeVar?
  }

  /** `read`, `write`, `modify` and `exchange`. */
  function DoCall(ecd: bool, p: Prog, c: Ctx): (r: Call)
    requires Closed(p) && IsCall(p)
    ensures r.Continue? ==> r.p < p && Closed(r.p) && r.c.picks == c.picks
  {
    match p
    case ReadVar(x, k) => (
      match Fetch(ecd, x, c.log, c.env)
      case Stuck => Waiting(AskLoad(x), Arcs(c.log), c.env)
      case Conflict(e) => Raised(x, e)
      case Got(a, e) => Continue(k[a.val], c.(log := LogRead(c.log, x, a), env := e))
    )
    case WriteVar(x, w, next) => (
      match Alloc(c.env, w)
      case Pending => Waiting(AskAlloc(w), Arcs(c.log), c.env)
      case Given(b, e) => Continue(next, c.(log := LogWrite(c.log, x, b), env := e))
    )
    case ModifyVar(x, f, next) => (
      match Fetch(ecd, x, c.log, c.env)
      case Stuck => Waiting(AskLoad(x), Arcs(c.log), c.env)
      case Conflict(e) => Raised(x, e)
      case Got(a, e) =>
        match Alloc(e, f(a.val))
        case Pending => Waiting(AskAlloc(f(a.val)), Arcs(c.log) + {a}, e)
        case Given(b, e') => Continue(next, c.(log := LogReadWrite(c.log, x, a, b), env := e'))
    )
    case ExchangeVar(x, w, k) => (
      match Alloc(c.env, w)
      case Pending => Waiting(AskAlloc(w), Arcs(c.log), c.env)
      case Given(b, e) =>
        match Fetch(ecd, x, c.log, e)
        case Stuck => Waiting(AskLoad(x), Arcs(c.log) + {b}, e)
        case Conflict(e') => Raised(x, e')
        case Got(a, e') => Continue(k[a.val], c.(log := LogReadWrite(c.log, x, a, b), env := e'))
    )
  }

  /** The contexts in which `or` starts its first and its second branch: the second one from a
      backup of the log. */
  function FirstCtx(c: Ctx): Ctx {
    c.(picks := c.picks + [true])
  }

  function SecondCtx(c: Ctx, afterFirst: Ctx): Ctx {
    Ctx(c.log, afterFirst.env, c.picks + [false])
  }

  /** The context after the second branch: its log, plus what the first branch waited for. */
  function MergedCtx(afterFirst: Ctx, afterSecond: Ctx): Ctx {
    afterSecond.(log := Combine(afterSecond.log, afterFirst.log))
  }

  /** Run a body from `c`. */
  function Exec(ecd: bool, p: Prog, c: Ctx): Run
    requires Closed(p)
    decreases p
  {
    if IsCall(p) then
      match DoCall(ecd, p, c)
      case Waiting(q, held, e) => Ask(q, held, e)
      case Raised(x, e) => Done(Failed(Some(x)), c.(env := e))
      case Continue(p', c') => Exec(ecd, p', c')
    else
      match p
      case Return(v) => Done(Ok(v), c)
      case Retry => Done(Retried, c)
      case Fail => Done(Failed(None), c)
      case OrElse(first, second, k) =>
        match Exec(ecd, first, FirstCtx(c))
        case Ask(q, held, e) => Ask(q, held + Arcs(c.log), e)
        case Done(Failed(at), c1) => Done(Failed(at), c1)
        case Done(Ok(v), c1) => Exec(ecd, k[v], c1)
        case Done(Retried, c1) =>
          match Exec(ecd, second, SecondCtx(c, c1))
          case Ask(q, held, e) => Ask(q, held + Arcs(c1.log), e)
          case Done(Failed(at), c2) => Done(Failed(at), c2)
          case Done(Ok(v), c2) => Exec(ecd, k[v], MergedCtx(c1, c2))
          case Done(Retried, c2) => Done(Retried, MergedCtx(c1, c2))
  }

  // ---------------------------------------------------------------- reference semantics

  datatype Direct = Finished(v: Val, m: Vals) | Blocked | Refused

  datatype Moved = Moved(p: Prog, m: Vals)

  /** One call on a plain store. */
  function CallDirect(p: Prog, m: Vals): (r: Moved)
    requires Closed(p) && IsCall(p)
    ensures r.p < p && Closed(r.p)
  {
    match p
    case ReadVar(x, k) => Moved(k[m[x]], m)
    case WriteVar(x, w, next) => Moved(next, m[x := w])
    case ModifyVar(x, f, next) => Moved(next, m[x := f(m[x])])
    case ExchangeVar(x, w, k) => Moved(k[m[x]], m[x := w])
  }

  /** A body run alone and atomically on a plain store: `or` is left-biased and rolls back. */
  function RunDirect(p: Prog, m: Vals): Direct
    requires Closed(p)
    decreases p
  {
    if IsCall(p) then
      RunDirect(CallDirect(p, m).p, CallDirect(p, m).m)
    else
      match p
      case Return(v) => Finished(v, m)
      case Retry => Blocked
      case Fail => Refused
      case OrElse(first, second, k) =>
        match RunDirect(first, m)
        case Finished(v, m1) => RunDirect(k[v], m1)
        case Refused => Refused
        case Blocked =>
          match RunDirect(second, m)
          case Finished(v, m2) => RunDirect(k[v], m2)
          case Blocked => Blocked
          case Refused => Refused
  }

  datatype Path = Path(res: Direct, used: nat)

  /** A body run atomically on a plain store, with the branch of every `or` it meets chosen by
      `picks` from position `i` on: the branch not taken leaves no trace. */
  function RunPath(p: Prog, m: Vals, picks: seq<bool>, i: nat): Path
    requires Closed(p)
    decreases p
  {
    if IsCall(p) then
      RunPath(CallDirect(p, m).p, CallDirect(p, m).m, picks, i)
    else
      match p
      case Return(v) => Path(Finished(v, m), i)
      case Retry => Path(Blocked, i)
      case Fail => Path(Refused, i)
      case OrElse(first, second, k) =>
        var branch := if i < |picks| && picks[i] then first else second;
        match RunPath(branch, m, picks, i + 1)
        case Path(Finished(v, m'), j) => RunPath(k[v], m', picks, j)
        case Path(Blocked, j) => Path(Blocked, j)
        case Path(Refused, j) => Path(Refused, j)
  }
}
