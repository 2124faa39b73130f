/** `modify`, `exchange`, `or`, `optionally` and `unwrap_or_retry` in terms of simpler programs. */
module Combinators {
  import opened Values
  import opened Logs
  import opened Programs
  import opened LogLaws
  import opened RunFacts

  // ---------------------------------------------------------------- fused operations

  /** The body with every `modify` and `exchange` replaced by a `read` and a `write`. */
  ghost function Unfuse(p: Prog): Prog
    requires Closed(p)
    decreases p
  {
    match p
    case Return(v) => Return(v)
    case Retry => Retry
    case Fail => Fail
    case ReadVar(x, k) => ReadVar(x, imap v: Val :: Unfuse(k[v]))
    case WriteVar(x, w, next) => WriteVar(x, w, Unfuse(next))
    case ModifyVar(x, f, next) => ReadVar(x, imap v: Val :: WriteVar(x, f(v), Unfuse(next)))
    case ExchangeVar(x, w, k) => ReadVar(x, imap v: Val :: WriteVar(x, w, Unfuse(k[v])))
    case OrElse(first, second, k) => OrElse(Unfuse(first), Unfuse(second), imap v: Val :: Unfuse(k[v]))
  }

  lemma {:induction false} UnfuseCloses(p: Prog)
    requires Closed(p)
    ensures Closed(Unfuse(p))
    decreases p
  {
    match p
    case ReadVar(x, k) =>
      forall v ensures Closed(Unfuse(k[v])) { UnfuseCloses(k[v]); }
    case WriteVar(_, _, next) => UnfuseCloses(next);
    case ModifyVar(_, _, next) => UnfuseCloses(next);
    case ExchangeVar(_, _, k) =>
      forall v ensures Closed(Unfuse(k[v])) { UnfuseCloses(k[v]); }
    case OrElse(first, second, k) =>
      UnfuseCloses(first);
      UnfuseCloses(second);
      forall v ensures Closed(Unfuse(k[v])) { UnfuseCloses(k[v]); }
    case _ =>
  }

  /** One pass over the entry does what `read` and then `write` do, from every log. */
  lemma FusedEntry(log: Log, x: Addr, loaded: Arc, boxed: Arc)
    ensures LogReadWrite(log, x, loaded, boxed) == LogWrite(LogRead(log, x, loaded), x, boxed)
  {
  }

  /** Loading a variable and boxing a value do not depend on each other. */
  lemma FetchAfterAlloc(ecd: bool, x: Addr, log: Log, e: Env, w: Val)
    requires Alloc(e, w).Given?
    ensures match Fetch(ecd, x, log, e)
            case Stuck => Fetch(ecd, x, log, Alloc(e, w).env).Stuck?
            case Conflict(_) => Fetch(ecd, x, log, Alloc(e, w).env).Conflict?
            case Got(a, e') =>
              && Alloc(e', w).Given? && Alloc(e', w).arc == Alloc(e, w).arc
              && Fetch(ecd, x, log, Alloc(e, w).env) == Got(a, Alloc(e', w).env)
  {
  }

  lemma AllocAfterFetch(ecd: bool, x: Addr, log: Log, e: Env, w: Val)
    requires Alloc(e, w).Pending?
    ensures match Fetch(ecd, x, log, e)
            case Got(_, e') => Alloc(e', w).Pending?
            case _ => true
  {
  }

  /** What `r` waits for `r'` waits for as well; only where `r` boxes a value first, as `exchange`
      does, may `r'` have to load the variable before, or have been stopped by what it loaded. */
  ghost predicate SameWait(q: Query, r': Run) {
    || (r'.Ask? && r'.q == q)
    || (q.AskAlloc? && ((r'.Ask? && r'.q.AskLoad?) || FailedEarly(r')))
  }

  /** The two runs end alike or wait alike. A run stopped by early conflict detection may have used
      up one allocation more, or still wait for it: nothing reads that. */
  ghost predicate SameRun(r: Run, r': Run) {
    match r
    case Ask(q, _, _) => SameWait(q, r')
    case Done(out, c) =>
      && r'.Done? && r'.out == out && r'.ctx.log == c.log && r'.ctx.picks == c.picks
      && (FailedEarly(r) || r'.ctx.env == c.env)
  }

  ghost predicate SameCall(ecd: bool, p: Prog, c: Ctx)
    requires Closed(p) && IsCall(p) && Closed(Unfuse(p))
  {
    var r := Exec(ecd, Unfuse(p), c);
    match DoCall(ecd, p, c)
    case Waiting(q, _, _) => SameWait(q, r)
    case Raised(x, _) => r.Done? && r.out == Failed(Some(x)) && r.ctx.log == c.log && r.ctx.picks == c.picks
    case Continue(p', c') => Closed(Unfuse(p')) && r == Exec(ecd, Unfuse(p'), c')
  }

  lemma UnfusedRead(ecd: bool, p: Prog, c: Ctx)
    requires Closed(p) && p.ReadVar? && Closed(Unfuse(p))
    ensures SameCall(ecd, p, c)
  {
    assert Unfuse(p) == ReadVar(p.x, imap v: Val :: Unfuse(p.k[v]));
    hide Fetch, Alloc, LogRead, LogWrite, Arcs, Unfuse;
    match Fetch(ecd, p.x, c.log, c.env) {
      case Got(a, e) =>
        assert Unfuse(p).k[a.val] == Unfuse(p.k[a.val]);
      case _ =>
    }
  }

  lemma UnfusedWrite(ecd: bool, p: Prog, c: Ctx)
    requires Closed(p) && p.WriteVar? && Closed(Unfuse(p))
    ensures SameCall(ecd, p, c)
  {
    assert Unfuse(p) == WriteVar(p.x, p.w, Unfuse(p.next));
    hide Fetch, Alloc, LogRead, LogWrite, Arcs, Unfuse;
  }

  lemma UnfusedModify(ecd: bool, p: Prog, c: Ctx)
    requires Closed(p) && p.ModifyVar? && Closed(Unfuse(p)) && Closed(Unfuse(p.next))
    ensures SameCall(ecd, p, c)
  {
    hide Fetch, Alloc, LogRead, LogWrite, LogReadWrite, Arcs;
    match Fetch(ecd, p.x, c.log, c.env) {
      case Got(a, e) =>
        var then_ := WriteVar(p.x, p.f(a.val), Unfuse(p.next));
        var c1 := c.(log := LogRead(c.log, p.x, a), env := e);
        assert Exec(ecd, Unfuse(p), c) == Exec(ecd, then_, c1);
        match Alloc(e, p.f(a.val)) {
          case Given(b, e') => FusedEntry(c.log, p.x, a, b);
          case _ =>
        }
      case _ =>
    }
  }

  lemma UnfusedExchange(ecd: bool, p: Prog, c: Ctx)
    requires Closed(p) && p.ExchangeVar? && Closed(Unfuse(p)) && forall v :: Closed(Unfuse(p.k[v]))
    ensures SameCall(ecd, p, c)
  {
    if Alloc(c.env, p.w).Given? {
      FetchAfterAlloc(ecd, p.x, c.log, c.env, p.w);
    } else {
      AllocAfterFetch(ecd, p.x, c.log, c.env, p.w);
    }
    hide Fetch, Alloc, LogRead, LogWrite, LogReadWrite, Arcs;
    match Fetch(ecd, p.x, c.log, c.env) {
      case Got(a, e) =>
        var then_ := WriteVar(p.x, p.w, Unfuse(p.k[a.val]));
        var c1 := c.(log := LogRead(c.log, p.x, a), env := e);
        assert Exec(ecd, Unfuse(p), c) == Exec(ecd, then_, c1);
        match Alloc(e, p.w) {
          case Given(b, e') => FusedEntry(c.log, p.x, a, b);
          case _ =>
        }
      case _ =>
    }
  }

  lemma UnfusedCall(ecd: bool, p: Prog, c: Ctx)
    requires Closed(p) && IsCall(p) && Closed(Unfuse(p))
    ensures SameCall(ecd, p, c)
  {
    hide SameCall, Unfuse;
    match p
    case ModifyVar(_, _, next) =>
      UnfuseCloses(next);
      UnfusedModify(ecd, p, c);
    case ExchangeVar(_, _, k) =>
      forall v ensures Closed(Unfuse(k[v])) { UnfuseCloses(k[v]); }
      UnfusedExchange(ecd, p, c);
    case ReadVar(_, _) => UnfusedRead(ecd, p, c);
    case WriteVar(_, _, _) => UnfusedWrite(ecd, p, c);
  }

  /** Fused operations refine the simple ones, in whole programs: replacing every `modify` and
      `exchange` by `read` and `write` changes neither the outcome nor the log of any run,
      whatever memory answers, with and without early conflict detection. */
  lemma {:induction false} UnfusedRunsTheSame(ecd: bool, p: Prog, c: Ctx)
    requires Closed(p)
    ensures Closed(Unfuse(p)) && SameRun(Exec(ecd, p, c), Exec(ecd, Unfuse(p), c))
    decreases p
  {
    UnfuseCloses(p);
    if IsCall(p) {
      UnfusedCall(ecd, p, c);
      hide Unfuse, DoCall;
      match DoCall(ecd, p, c) {
        case Continue(p', c') => UnfusedRunsTheSame(ecd, p', c');
        case _ =>
      }
    } else if p.OrElse? {
      UnfusedOr(ecd, p, c);
    }
  }

  ghost predicate AllClosed(k: imap<Val, Prog>) {
    forall v :: v in k && Closed(k[v])
  }

  /** An `or` whose second branch came out as `r`, its first having retried and left `c1`. */
  ghost function AfterSecond(ecd: bool, k: imap<Val, Prog>, c1: Ctx, r: Run): Run
    requires AllClosed(k)
  {
    match r
    case Ask(q, held, e) => Ask(q, held + Arcs(c1.log), e)
    case Done(Failed(at), c2) => Done(Failed(at), c2)
    case Done(Ok(v), c2) => Exec(ecd, k[v], MergedCtx(c1, c2))
    case Done(Retried, c2) => Done(Retried, MergedCtx(c1, c2))
  }

  /** An `or` run from `c` whose first branch came out as `r`. */
  ghost function AfterFirst(ecd: bool, p: Prog, c: Ctx, r: Run): Run
    requires Closed(p) && p.OrElse? && AllClosed(p.k)
  {
    match r
    case Ask(q, held, e) => Ask(q, held + Arcs(c.log), e)
    case Done(Failed(at), c1) => Done(Failed(at), c1)
    case Done(Ok(v), c1) => Exec(ecd, p.k[v], c1)
    case Done(Retried, c1) => AfterSecond(ecd, p.k, c1, Exec(ecd, p.second, SecondCtx(c, c1)))
  }

  lemma OrRuns(ecd: bool, p: Prog, c: Ctx)
    requires Closed(p) && p.OrElse?
    ensures AllClosed(p.k) && Exec(ecd, p, c) == AfterFirst(ecd, p, c, Exec(ecd, p.first, FirstCtx(c)))
  {
    hide DoCall, Combine, Arcs;
  }

  ghost function UnfuseAll(k: imap<Val, Prog>): (k': imap<Val, Prog>)
    requires AllClosed(k)
    ensures AllClosed(k')
  {
    forall v ensures Closed(Unfuse(k[v])) { UnfuseCloses(k[v]); }
    imap v: Val :: Unfuse(k[v])
  }

  lemma UnfusesBranches(p: Prog)
    requires Closed(p) && p.OrElse?
    ensures AllClosed(p.k) && Unfuse(p) == OrElse(Unfuse(p.first), Unfuse(p.second), UnfuseAll(p.k))
    ensures Closed(Unfuse(p.first)) && Closed(Unfuse(p.second)) && forall v :: UnfuseAll(p.k)[v] == Unfuse(p.k[v])
  {
    UnfuseCloses(p.first);
    UnfuseCloses(p.second);
  }

  /** A merge of the same logs: the runs go on alike if they came out of the second branch alike. */
  lemma SecondsAlike(ecd: bool, k: imap<Val, Prog>, c1: Ctx, r: Run, r': Run)
    requires AllClosed(k) && SameRun(r, r')
    requires r.Done? && r.out.Ok? ==>
      SameRun(Exec(ecd, k[r.out.v], MergedCtx(c1, r.ctx)), Exec(ecd, UnfuseAll(k)[r.out.v], MergedCtx(c1, r.ctx)))
    ensures SameRun(AfterSecond(ecd, k, c1, r), AfterSecond(ecd, UnfuseAll(k), c1, r'))
  {
    hide Exec, Combine, Arcs, UnfuseAll, AllClosed;
  }

  /** Two `or`s go on alike if their first branches came out alike, and so do they from there. */
  lemma FirstsAlike(ecd: bool, p: Prog, q: Prog, c: Ctx, r: Run, r': Run)
    requires Closed(p) && p.OrElse? && AllClosed(p.k) && Closed(q) && q.OrElse? && AllClosed(q.k)
    requires SameRun(r, r')
    requires r.Done? && r.out.Ok? ==> SameRun(Exec(ecd, p.k[r.out.v], r.ctx), Exec(ecd, q.k[r.out.v], r.ctx))
    requires r.Done? && r.out.Retried? ==>
      SameRun(AfterSecond(ecd, p.k, r.ctx, Exec(ecd, p.second, SecondCtx(c, r.ctx))),
              AfterSecond(ecd, q.k, r.ctx, Exec(ecd, q.second, SecondCtx(c, r.ctx))))
    ensures SameRun(AfterFirst(ecd, p, c, r), AfterFirst(ecd, q, c, r'))
  {
    hide Exec, Combine, Arcs, AllClosed, Closed, AfterSecond, SecondCtx;
  }

  lemma {:induction false} UnfusedOr(ecd: bool, p: Prog, c: Ctx)
    requires Closed(p) && p.OrElse? && Closed(Unfuse(p))
    ensures SameRun(Exec(ecd, p, c), Exec(ecd, Unfuse(p), c))
    decreases p, 1
  {
    var r := Exec(ecd, p.first, FirstCtx(c));
    UnfusesBranches(p);
    OrRuns(ecd, p, c);
    OrRuns(ecd, Unfuse(p), c);
    UnfusedRunsTheSame(ecd, p.first, FirstCtx(c));
    if r.Done? && r.out.Ok? {
      UnfusedRunsTheSame(ecd, p.k[r.out.v], r.ctx);
    }
    if r.Done? && r.out.Retried? {
      UnfusedSecond(ecd, p, c, r.ctx);
    }
    hide Exec, Combine, Arcs, Unfuse, UnfuseAll, AllClosed, Closed, AfterSecond, AfterFirst, SameRun;
    FirstsAlike(ecd, p, Unfuse(p), c, r, Exec(ecd, Unfuse(p.first), FirstCtx(c)));
  }

  lemma {:induction false} UnfusedSecond(ecd: bool, p: Prog, c: Ctx, c1: Ctx)
    requires Closed(p) && p.OrElse? && AllClosed(p.k) && Closed(Unfuse(p.second))
    ensures SameRun(AfterSecond(ecd, p.k, c1, Exec(ecd, p.second, SecondCtx(c, c1))),
                    AfterSecond(ecd, UnfuseAll(p.k), c1, Exec(ecd, Unfuse(p.second), SecondCtx(c, c1))))
    decreases p, 0
  {
    var r := Exec(ecd, p.second, SecondCtx(c, c1));
    UnfusedRunsTheSame(ecd, p.second, SecondCtx(c, c1));
    if r.Done? && r.out.Ok? {
      UnfusedRunsTheSame(ecd, p.k[r.out.v], MergedCtx(c1, r.ctx));
    }
    hide Exec, Combine, Arcs, Unfuse, AllClosed, Closed, AfterSecond, SameRun;
    SecondsAlike(ecd, p.k, c1, r, Exec(ecd, Unfuse(p.second), SecondCtx(c, c1)));
  }

  lemma UnfusedCallMeans(p: Prog, m: Vals, picks: seq<bool>, i: nat)
    requires Closed(p) && IsCall(p)
    ensures Closed(Unfuse(p)) && Closed(Unfuse(CallDirect(p, m).p))
    ensures RunPath(Unfuse(p), m, picks, i) == RunPath(Unfuse(CallDirect(p, m).p), CallDirect(p, m).m, picks, i)
  {
    UnfuseCloses(p);
    UnfuseCloses(CallDirect(p, m).p);
    match p
    case ModifyVar(x, f, next) =>
      assert CallDirect(Unfuse(p), m) == Moved(WriteVar(x, f(m[x]), Unfuse(next)), m);
      hide Closed, Unfuse;
    case ExchangeVar(x, w, k) =>
      assert CallDirect(Unfuse(p), m) == Moved(WriteVar(x, w, Unfuse(k[m[x]])), m);
      hide Closed, Unfuse;
    case _ =>
  }

  lemma {:induction false} UnfusedMeansTheSame(p: Prog, m: Vals, picks: seq<bool>, i: nat)
    requires Closed(p)
    ensures Closed(Unfuse(p)) && RunPath(Unfuse(p), m, picks, i) == RunPath(p, m, picks, i)
    decreases p
  {
    UnfuseCloses(p);
    if IsCall(p) {
      UnfusedCallMeans(p, m, picks, i);
      UnfusedMeansTheSame(CallDirect(p, m).p, CallDirect(p, m).m, picks, i);
      hide Closed, Unfuse, CallDirect;
    } else if p.OrElse? {
      UnfusesBranches(p);
      var branch := if i < |picks| && picks[i] then p.first else p.second;
      UnfusedMeansTheSame(branch, m, picks, i + 1);
      hide Unfuse, UnfuseAll, CallDirect;
      match RunPath(branch, m, picks, i + 1) {
        case Path(Finished(v, m'), j) => UnfusedMeansTheSame(p.k[v], m', picks, j);
        case _ =>
      }
    }
  }

  // ---------------------------------------------------------------- or

  /** `or` isolates and merges. When the first branch retries and the second does not fail, what is
      committed is what the second branch, run from the backup, would commit; and the transaction
      waits for what the second branch read, and for every variable the first one read that the
      log of the second does not mention. */
  lemma OrMerges(ecd: bool, p: Prog, c: Ctx, c1: Ctx, out: Outcome, c2: Ctx)
    requires Closed(p) && p.OrElse? && !out.Failed?
    requires Exec(ecd, p.first, FirstCtx(c)) == Done(Retried, c1)
    requires Exec(ecd, p.second, SecondCtx(c, c1)) == Done(out, c2)
    ensures Exec(ecd, p, c) ==
        if out.Ok? then Exec(ecd, p.k[out.v], MergedCtx(c1, c2)) else Done(Retried, MergedCtx(c1, c2))
    ensures var log := MergedCtx(c1, c2).log;
            && Writes(log) == Writes(c2.log)
            && Reads(log) == Reads(c2.log)
            && Waits(log) == (Waits(c1.log) - c2.log.Keys) + Waits(c2.log)
  {
    CombineCommitsTheSame(c2.log, c1.log);
    CombineMergesWaits(c2.log, c1.log);
    hide Combine, DoCall, Waits, Writes, Reads;
  }

  /** A failure in either branch is the failure of the whole, at once and with the log of that branch
      alone: the second branch is not tried after it, and nothing is merged into it. */
  lemma OrFails(ecd: bool, p: Prog, c: Ctx, at: Option<Addr>)
    requires Closed(p) && p.OrElse?
    ensures var r, first := Exec(ecd, p, c), Exec(ecd, p.first, FirstCtx(c));
            && (first.Done? && first.out == Failed(at) ==> r == first)
            && (first.Done? && first.out.Retried? ==>
                var second := Exec(ecd, p.second, SecondCtx(c, first.ctx));
                second.Done? && second.out == Failed(at) ==> r == second)
  {
    hide DoCall, Combine, Arcs;
  }

  /** The documentation of `or` promises that a transaction blocked in both branches waits for the
      variables of both. It does exactly if the second branch's log has no write without a read on
      a variable that the first branch read. */
  lemma OrWaitsForBoth(c1: Ctx, c2: Ctx)
    ensures Waits(c1.log).Keys + Waits(c2.log).Keys <= Waits(MergedCtx(c1, c2).log).Keys
       <==> forall x :: x in Waits(c1.log) && x in c2.log ==> !c2.log[x].Write?
  {
    CombineMergesWaits(c2.log, c1.log);
    var merged := (Waits(c1.log) - c2.log.Keys) + Waits(c2.log);
    assert merged.Keys == Waits(c1.log).Keys - c2.log.Keys + Waits(c2.log).Keys;
    if Waits(c1.log).Keys + Waits(c2.log).Keys <= merged.Keys {
      forall x | x in Waits(c1.log) && x in c2.log ensures !c2.log[x].Write? {
        assert x in Waits(c1.log).Keys + Waits(c2.log).Keys;
      }
    }
  }

  /** And it waits to see the first branch's values change exactly if the second branch has
      recorded no other value for any of them. */
  lemma OrWaitsForFirst(c1: Ctx, c2: Ctx)
    ensures (forall x :: x in Waits(c1.log) ==>
               x in Waits(MergedCtx(c1, c2).log) && Waits(MergedCtx(c1, c2).log)[x] == Waits(c1.log)[x])
       <==> (forall x :: x in Waits(c1.log) && x in c2.log ==> c2.log[x].HasOrig() && c2.log[x].orig == c1.log[x].orig)
  {
    var merged := Waits(MergedCtx(c1, c2).log);
    forall x ensures x in Waits(c1.log) ==>
      ((x in merged && merged[x] == Waits(c1.log)[x]) <==>
       (x in c2.log ==> c2.log[x].HasOrig() && c2.log[x].orig == c1.log[x].orig))
    {
      CombineWaitsFor(c2.log, c1.log, x);
    }
  }

  ghost function RetryOn(v: Val): Prog {
    Retry
  }

  /** `read(x)`, then `retry`. */
  ghost function ReadRetry(x: Addr): Prog {
    ReadVar(x, imap v: Val :: RetryOn(v))
  }

  /** When the next load finds `a`. */
  lemma ReadRetryRuns(ecd: bool, x: Addr, a: Arc, e: Env, e': Env, picks: seq<bool>)
    requires Load(e, x) == Given(a, e')
    ensures Closed(ReadRetry(x))
    ensures Exec(ecd, ReadRetry(x), Ctx(map[], e, picks)) == Done(Retried, Ctx(map[x := Read(a)], e', picks))
  {
    assert RetryOn(a.val) == Retry;
    hide Load;
  }

  /** `read(x)`, then `retry`; or: `write(x)`, then `retry`. */
  ghost function BlindSecond(x: Addr): Prog {
    OrElse(ReadRetry(x), WriteVar(x, Nothing, Retry), Same())
  }

  lemma WriteRetryRuns(ecd: bool, x: Addr, st: Store, next: nat, picks: seq<bool>)
    ensures Closed(WriteVar(x, Nothing, Retry))
    ensures Exec(ecd, WriteVar(x, Nothing, Retry), Ctx(map[], Live(st, next), picks))
         == Done(Retried, Ctx(map[x := Write(Arc(Id(next, next), Nothing))], Live(st, next + 1), picks))
  {
    var c := Ctx(map[x := Write(Arc(Id(next, next), Nothing))], Live(st, next + 1), picks);
    assert DoCall(ecd, WriteVar(x, Nothing, Retry), Ctx(map[], Live(st, next), picks)) == Continue(Retry, c);
  }

  /** It blocks with nothing to wait for, on any memory: no change of `x` will ever wake it. */
  lemma BlindWriteHidesRead(ecd: bool, x: Addr, st: Store, next: nat)
    ensures Closed(BlindSecond(x))
    ensures var r := Exec(ecd, BlindSecond(x), Ctx(map[], Live(st, next), []));
            r.Done? && r.out.Retried? && Waits(r.ctx.log) == map[]
  {
    var c, c1 := Ctx(map[], Live(st, next), []), Ctx(map[x := Read(st[x])], Live(st, next), [true]);
    ReadRetryRuns(ecd, x, st[x], Live(st, next), Live(st, next), [true]);
    WriteRetryRuns(ecd, x, st, next, [false]);
    BlindWriteWaits(x, st[x], Arc(Id(next, next), Nothing));
    hide ReadRetry, Exec, Combine, Waits, Same, Closed;
    OrAfterFirst(ecd, ReadRetry(x), WriteVar(x, Nothing, Retry), c, c1);
  }

  lemma BlindWriteWaits(x: Addr, a: Arc, b: Arc)
    ensures Waits(Combine(map[x := Write(b)], map[x := Read(a)])) == map[]
  {
  }

  /** `read(x)`, then `retry`; or the same. */
  ghost function ReadTwice(x: Addr): Prog {
    OrElse(ReadRetry(x), ReadRetry(x), Same())
  }

  lemma LoadHead(x: Addr, a: Arc, loads: seq<Access>)
    requires |loads| > 0 && loads[0] == Access(x, a)
    ensures Load(Replay(loads, []), x) == Given(a, Replay(loads[1..], []))
  {
  }

  lemma TwoLoads(x: Addr, a: Arc, b: Arc)
    ensures var rest := Replay([Access(x, b)], []);
            && Load(Replay([Access(x, a), Access(x, b)], []), x) == Given(a, rest)
            && Load(rest, x) == Given(b, Replay([], []))
  {
    LoadHead(x, a, [Access(x, a), Access(x, b)]);
    LoadHead(x, b, [Access(x, b)]);
    assert [Access(x, a), Access(x, b)][1..] == [Access(x, b)] && [Access(x, b)][1..] == [];
    hide Load;
  }

  lemma ReadTwiceRuns(ecd: bool, x: Addr, a: Arc, b: Arc, c: Ctx, e: Env, e': Env)
    requires c.log == map[] && c.picks == [] && Load(c.env, x) == Given(a, e) && Load(e, x) == Given(b, e')
    ensures Closed(ReadTwice(x))
    ensures Exec(ecd, ReadTwice(x), c) ==
            Done(Retried, MergedCtx(Ctx(map[x := Read(a)], e, [true]), Ctx(map[x := Read(b)], e', [false])))
  {
    var c1 := Ctx(map[x := Read(a)], e, [true]);
    assert FirstCtx(c) == Ctx(map[], c.env, [true]) && SecondCtx(c, c1) == Ctx(map[], e, [false]);
    hide Load, Closed, ReadRetry, Exec, Combine, Same, Arcs, FirstCtx, SecondCtx;
    ReadRetryRuns(ecd, x, a, c.env, e, [true]);
    ReadRetryRuns(ecd, x, b, e, e', [false]);
    OrAfterFirst(ecd, ReadRetry(x), ReadRetry(x), c, c1);
  }

  /** If `x` changes in between, only the value the second branch saw is waited on. */
  lemma RereadReplacesValue(ecd: bool, x: Addr, a: Arc, b: Arc)
    requires a != b
    ensures Closed(ReadTwice(x))
    ensures var r := Exec(ecd, ReadTwice(x), Ctx(map[], Replay([Access(x, a), Access(x, b)], []), []));
            r.Done? && r.out.Retried? && Waits(r.ctx.log) == map[x := b]
  {
    var c := Ctx(map[], Replay([Access(x, a), Access(x, b)], []), []);
    TwoLoads(x, a, b);
    hide Load, Closed, ReadTwice, Exec, Combine, Waits;
    ReadTwiceRuns(ecd, x, a, b, c, Replay([Access(x, b)], []), Replay([], []));
    CombineMergesWaits(map[x := Read(b)], map[x := Read(a)]);
    RereadWaits(x, a, b);
  }

  lemma RereadWaits(x: Addr, a: Arc, b: Arc)
    ensures (Waits(map[x := Read(a)]) - map[x := Read(b)].Keys) + Waits(map[x := Read(b)]) == map[x := b]
  {
  }

  // ---------------------------------------------------------------- left bias

  ghost function NonZero(v: Val): Prog {
    if v == Num(0) then Retry else Return(v)
  }

  /** Read `x` until it is not zero. */
  ghost function AwaitNonZero(x: Addr): (p: Prog)
    ensures Closed(p)
  {
    assert forall v :: Closed(NonZero(v));
    ReadVar(x, imap v: Val :: NonZero(v))
  }

  /** Having found zero, it retries. */
  lemma AwaitRetries(ecd: bool, x: Addr, a: Arc, e: Env, e': Env, picks: seq<bool>)
    requires Load(e, x) == Given(a, e') && a.val == Num(0)
    ensures Exec(ecd, AwaitNonZero(x), Ctx(map[], e, picks)) == Done(Retried, Ctx(map[x := Read(a)], e', picks))
  {
    hide Load;
    var c := Ctx(map[x := Read(a)], e', picks);
    assert DoCall(ecd, AwaitNonZero(x), Ctx(map[], e, picks)) == Continue(Retry, c);
    assert Exec(ecd, AwaitNonZero(x), Ctx(map[], e, picks)) == Exec(ecd, Retry, c);
  }

  lemma AwaitAsks(ecd: bool, x: Addr, e: Env, picks: seq<bool>)
    requires Load(e, x).Pending?
    ensures Exec(ecd, AwaitNonZero(x), Ctx(map[], e, picks)) == Ask(AskLoad(x), {}, e)
  {
    hide Load;
    assert Arcs(map[]) == {};
  }

  lemma AwaitFinishes(x: Addr, m: Vals)
    requires m[x] != Num(0)
    ensures RunDirect(AwaitNonZero(x), m) == Finished(m[x], m)
  {
    assert CallDirect(AwaitNonZero(x), m) == Moved(Return(m[x]), m);
  }

  /** Wait for `x` to be other than zero and return it, or else do `second`. */
  ghost function AwaitOr(x: Addr, second: Prog): (p: Prog)
    requires Closed(second)
    ensures Closed(p)
  {
    OrElse(AwaitNonZero(x), second, Same())
  }

  /** Alone, it takes its first branch. */
  lemma AwaitOrFinishes(x: Addr, second: Prog, m: Vals)
    requires Closed(second) && m[x] != Num(0)
    ensures RunDirect(AwaitOr(x, second), m) == Finished(m[x], m)
  {
    AwaitFinishes(x, m);
    hide AwaitNonZero;
    assert Same()[m[x]] == Return(m[x]);
  }

  /** Before anything is loaded it asks for `x`; having found zero it goes on with `second`. */
  lemma AwaitOrAsks(ecd: bool, x: Addr, second: Prog, c: Ctx)
    requires Closed(second) && c.log == map[] && Load(c.env, x).Pending?
    ensures Exec(ecd, AwaitOr(x, second), c) == Ask(AskLoad(x), {}, c.env)
  {
    AwaitAsks(ecd, x, c.env, FirstCtx(c).picks);
    assert Arcs(map[]) == {};
    hide AwaitNonZero, Load, DoCall;
  }

  /** An `or` whose first branch retried, and whose value is returned as it is. */
  lemma OrAfterFirst(ecd: bool, first: Prog, second: Prog, c: Ctx, c1: Ctx)
    requires Closed(first) && Closed(second) && Exec(ecd, first, FirstCtx(c)) == Done(Retried, c1)
    ensures Closed(OrElse(first, second, Same()))
    ensures Exec(ecd, OrElse(first, second, Same()), c) ==
            match Exec(ecd, second, SecondCtx(c, c1))
            case Ask(q, held, e) => Ask(q, held + Arcs(c1.log), e)
            case Done(Failed(at), c2) => Done(Failed(at), c2)
            case Done(out, c2) => Done(out, MergedCtx(c1, c2))
  {
    var p := OrElse(first, second, Same());
    assert Closed(p) && p.first == first && p.second == second;
    hide Combine, Arcs, DoCall, Closed;
    match Exec(ecd, second, SecondCtx(c, c1)) {
      case Done(Ok(v), c2) =>
        assert Same()[v] == Return(v);
        OrMerges(ecd, p, c, c1, Ok(v), c2);
      case Done(Retried, c2) => OrMerges(ecd, p, c, c1, Retried, c2);
      case _ =>
    }
  }

  lemma AwaitOrSecond(ecd: bool, x: Addr, second: Prog, c: Ctx, a: Arc, e: Env)
    requires Closed(second) && c.log == map[] && Load(c.env, x) == Given(a, e) && a.val == Num(0)
    ensures var c1 := Ctx(map[x := Read(a)], e, c.picks + [true]);
            Exec(ecd, AwaitOr(x, second), c) ==
            match Exec(ecd, second, SecondCtx(c, c1))
            case Ask(q, held, e') => Ask(q, held + Arcs(c1.log), e')
            case Done(Failed(at), c2) => Done(Failed(at), c2)
            case Done(out, c2) => Done(out, MergedCtx(c1, c2))
  {
    AwaitRetries(ecd, x, a, c.env, e, FirstCtx(c).picks);
    hide AwaitNonZero, Load, Combine, Arcs, Exec;
    OrAfterFirst(ecd, AwaitNonZero(x), second, c, Ctx(map[x := Read(a)], e, c.picks + [true]));
  }

  /** Wait for `x` to be other than zero and return it, or else return one. */
  ghost function NonZeroOrOne(x: Addr): (p: Prog)
    ensures Closed(p)
  {
    AwaitOr(x, Return(Num(1)))
  }

  lemma MergeReadOnly(x: Addr, a: Arc)
    ensures Combine(map[], map[x := Read(a)]) == map[x := ReadObsolete(a)]
  {
  }

  /** Having found zero it returns one, and its log validates nothing. */
  lemma NonZeroOrOneRuns(ecd: bool, x: Addr, a: Arc)
    requires a.val == Num(0)
    ensures Exec(ecd, NonZeroOrOne(x), Ctx(map[], Replay([Access(x, a)], []), []))
         == Done(Ok(Num(1)), Ctx(map[x := ReadObsolete(a)], NO_ANSWERS, [false]))
  {
    LoadHead(x, a, [Access(x, a)]);
    assert [Access(x, a)][1..] == [];
    AwaitOrSecond(ecd, x, Return(Num(1)), Ctx(map[], Replay([Access(x, a)], []), []), a, NO_ANSWERS);
    MergeReadOnly(x, a);
    hide AwaitOr, Load, Combine;
  }

  /** Under interference `or` need not prefer its first branch: reads of a branch that retried are
      not validated, so a run that found zero agrees with a store that holds another value, where
      the body run atomically would have taken its first branch. */
  lemma OrIsNotLeftBiased(ecd: bool, x: Addr, a: Arc, m: Vals)
    requires a.val == Num(0) && m[x] == Num(2)
    ensures var r := Exec(ecd, NonZeroOrOne(x), Ctx(map[], Replay([Access(x, a)], []), []));
            && r.Done? && r.out == Ok(Num(1)) && Agrees(r.ctx.log, m)
            && RunDirect(NonZeroOrOne(x), m) == Finished(Num(2), m)
  {
    NonZeroOrOneRuns(ecd, x, a);
    AwaitOrFinishes(x, Return(Num(1)), m);
    hide AwaitOr, Exec, RunDirect;
  }

  // ---------------------------------------------------------------- optionally and unwrap_or_retry

  /** Go on with `k` after `p`, as `p?` does. */
  ghost function Then(p: Prog, k: imap<Val, Prog>): Prog
    requires Closed(p) && forall v :: v in k
    decreases p
  {
    match p
    case Return(v) => k[v]
    case Retry => Retry
    case Fail => Fail
    case ReadVar(x, k') => ReadVar(x, imap v: Val :: Then(k'[v], k))
    case WriteVar(x, w, next) => WriteVar(x, w, Then(next, k))
    case ModifyVar(x, f, next) => ModifyVar(x, f, Then(next, k))
    case ExchangeVar(x, w, k') => ExchangeVar(x, w, imap v: Val :: Then(k'[v], k))
    case OrElse(first, second, k') => OrElse(first, second, imap v: Val :: Then(k'[v], k))
  }

  lemma {:induction false} ThenCloses(p: Prog, k: imap<Val, Prog>)
    requires Closed(p) && AllClosed(k)
    ensures Closed(Then(p, k))
    decreases p
  {
    match p
    case ReadVar(_, k') =>
      forall v ensures Closed(Then(k'[v], k)) { ThenCloses(k'[v], k); }
    case WriteVar(_, _, next) => ThenCloses(next, k);
    case ModifyVar(_, _, next) => ThenCloses(next, k);
    case ExchangeVar(_, _, k') =>
      forall v ensures Closed(Then(k'[v], k)) { ThenCloses(k'[v], k); }
    case OrElse(_, _, k') =>
      forall v ensures Closed(Then(k'[v], k)) { ThenCloses(k'[v], k); }
    case _ =>
  }

  /** What comes out of `p`, then `k` on its value. */
  ghost function Chain(ecd: bool, r: Run, k: imap<Val, Prog>): Run
    requires AllClosed(k)
  {
    match r
    case Ask(_, _, _) => r
    case Done(Ok(v), c) => Exec(ecd, k[v], c)
    case Done(_, _) => r
  }

  lemma ThenCall(ecd: bool, p: Prog, c: Ctx, k: imap<Val, Prog>)
    requires Closed(p) && IsCall(p) && AllClosed(k) && Closed(Then(p, k))
    ensures var r := DoCall(ecd, p, c);
            DoCall(ecd, Then(p, k), c) == if r.Continue? then Continue(Then(r.p, k), r.c) else r
  {
    hide Fetch, Alloc, LogRead, LogWrite, LogReadWrite, Arcs;
  }

  lemma {:induction false} ThenRuns(ecd: bool, p: Prog, k: imap<Val, Prog>, c: Ctx)
    requires Closed(p) && AllClosed(k)
    ensures Closed(Then(p, k)) && Exec(ecd, Then(p, k), c) == Chain(ecd, Exec(ecd, p, c), k)
    decreases p
  {
    ThenCloses(p, k);
    if IsCall(p) {
      ThenCall(ecd, p, c, k);
      assert IsCall(Then(p, k));
      hide DoCall, Then;
      match DoCall(ecd, p, c) {
        case Continue(p', c') => ThenRuns(ecd, p', k, c');
        case _ =>
      }
    } else if p.OrElse? {
      ThenOr(ecd, p, k, c);
    }
  }

  lemma {:induction false} ThenOr(ecd: bool, p: Prog, k: imap<Val, Prog>, c: Ctx)
    requires Closed(p) && p.OrElse? && AllClosed(k) && Closed(Then(p, k))
    ensures Exec(ecd, Then(p, k), c) == Chain(ecd, Exec(ecd, p, c), k)
    decreases p, 0
  {
    assert Then(p, k) == OrElse(p.first, p.second, imap v: Val :: Then(p.k[v], k));
    OrRuns(ecd, p, c);
    OrRuns(ecd, Then(p, k), c);
    hide Combine, Arcs, Then, Exec, Closed, AllClosed;
    match Exec(ecd, p.first, FirstCtx(c)) {
      case Done(Ok(v), c1) => ThenRuns(ecd, p.k[v], k, c1);
      case Done(Retried, c1) =>
        match Exec(ecd, p.second, SecondCtx(c, c1)) {
          case Done(Ok(v), c2) => ThenRuns(ecd, p.k[v], k, MergedCtx(c1, c2));
          case _ =>
        }
      case _ =>
    }
  }

  function Unpicked(r: Run): Run {
    match r
    case Done(out, c) => Done(out, c.(picks := []))
    case Ask(_, _, _) => r
  }

  /** Which branches were taken before has no influence on a run. */
  lemma {:induction false} PicksDoNotMatter(ecd: bool, p: Prog, c: Ctx, c': Ctx)
    requires Closed(p) && c'.log == c.log && c'.env == c.env
    ensures Unpicked(Exec(ecd, p, c')) == Unpicked(Exec(ecd, p, c))
    decreases p
  {
    if IsCall(p) {
      assert DoCall(ecd, p, c).Continue? ==>
          DoCall(ecd, p, c') == Continue(DoCall(ecd, p, c).p, DoCall(ecd, p, c).c.(picks := c'.picks));
      assert !DoCall(ecd, p, c).Continue? ==> DoCall(ecd, p, c') == DoCall(ecd, p, c);
      hide DoCall;
      match DoCall(ecd, p, c) {
        case Continue(p', c1) => PicksDoNotMatter(ecd, p', c1, c1.(picks := c'.picks));
        case _ =>
      }
    } else if p.OrElse? {
      PicksInOr(ecd, p, c, c');
    }
  }

  lemma {:induction false} PicksInOr(ecd: bool, p: Prog, c: Ctx, c': Ctx)
    requires Closed(p) && p.OrElse? && c'.log == c.log && c'.env == c.env
    ensures Unpicked(Exec(ecd, p, c')) == Unpicked(Exec(ecd, p, c))
    decreases p, 0
  {
    hide DoCall, Combine, Arcs;
    PicksDoNotMatter(ecd, p.first, FirstCtx(c), FirstCtx(c'));
    match Exec(ecd, p.first, FirstCtx(c)) {
      case Done(Ok(v), c1) => PicksDoNotMatter(ecd, p.k[v], c1, Exec(ecd, p.first, FirstCtx(c')).ctx);
      case Done(Retried, c1) =>
        var c1' := Exec(ecd, p.first, FirstCtx(c')).ctx;
        PicksDoNotMatter(ecd, p.second, SecondCtx(c, c1), SecondCtx(c', c1'));
        match Exec(ecd, p.second, SecondCtx(c, c1)) {
          case Done(Ok(v), c2) =>
            var c2' := Exec(ecd, p.second, SecondCtx(c', c1')).ctx;
            PicksDoNotMatter(ecd, p.k[v], MergedCtx(c1, c2), MergedCtx(c1', c2'));
          case _ =>
        }
      case _ =>
    }
  }

  ghost function Wrap(): (k: imap<Val, Prog>)
    ensures forall v :: v in k
  {
    imap v: Val :: Return(Just(v))
  }

  ghost function Same(): (k: imap<Val, Prog>)
    ensures forall v :: v in k
  {
    imap v: Val :: Return(v)
  }

  function UnwrapOrRetry(option: Val): Prog {
    match option
    case Just(v) => Return(v)
    case _ => Retry
  }

  ghost function Unwrap(): (k: imap<Val, Prog>)
    ensures forall v :: v in k
  {
    imap v: Val :: UnwrapOrRetry(v)
  }

  ghost function Optionally(f: Prog): Prog
    requires Closed(f)
  {
    OrElse(Then(f, Wrap()), Return(Nothing), Same())
  }

  lemma OptionallyCloses(f: Prog)
    requires Closed(f)
    ensures AllClosed(Wrap()) && AllClosed(Same()) && AllClosed(Unwrap())
    ensures Closed(Then(f, Wrap())) && Closed(Optionally(f)) && Closed(Then(Optionally(f), Unwrap()))
  {
    ThenCloses(f, Wrap());
    ThenCloses(Optionally(f), Unwrap());
  }

  /** What `optionally(tx, f)` does: the value of `f` if it has one, `None` from the log as it was
      if `f` retries, and then waiting for all that `f` read. */
  lemma OptionallyRuns(ecd: bool, f: Prog, c: Ctx)
    requires Closed(f)
    ensures Closed(Optionally(f))
    ensures var r, r' := Unpicked(Exec(ecd, f, c)), Unpicked(Exec(ecd, Optionally(f), c));
            match r
            case Ask(q, held, e) => r' == Ask(q, held + Arcs(c.log), e)
            case Done(Ok(v), c1) => r' == Done(Ok(Just(v)), c1)
            case Done(Failed(at), c1) => r' == Done(Failed(at), c1)
            case Done(Retried, c1) => r' == Done(Ok(Nothing), c1.(log := Combine(c.log, c1.log)))
  {
    OptionallyCloses(f);
    OrNothing(ecd, Then(f, Wrap()), c);
    ThenRuns(ecd, f, Wrap(), FirstCtx(c));
    PicksDoNotMatter(ecd, f, c, FirstCtx(c));
    WrapReturns(ecd, Exec(ecd, f, FirstCtx(c)));
    hide Then, Combine, Arcs, DoCall, Exec, Chain, Wrap, Same, AllClosed;
  }

  lemma WrapReturns(ecd: bool, r: Run)
    ensures AllClosed(Wrap())
    ensures Chain(ecd, r, Wrap()) == if r.Done? && r.out.Ok? then Done(Ok(Just(r.out.v)), r.ctx) else r
  {
    if r.Done? && r.out.Ok? {
      assert Wrap()[r.out.v] == Return(Just(r.out.v));
    }
  }

  /** `or` with a second branch that returns `None` at once. */
  lemma OrNothing(ecd: bool, p: Prog, c: Ctx)
    requires Closed(p)
    ensures Closed(OrElse(p, Return(Nothing), Same()))
    ensures Exec(ecd, OrElse(p, Return(Nothing), Same()), c) ==
            match Exec(ecd, p, FirstCtx(c))
            case Ask(q, held, e) => Ask(q, held + Arcs(c.log), e)
            case Done(Retried, c1) => Done(Ok(Nothing), MergedCtx(c1, SecondCtx(c, c1)))
            case Done(out, c1) => Done(out, c1)
  {
    var q := OrElse(p, Return(Nothing), Same());
    assert forall v :: Closed(Same()[v]);
    assert Closed(q);
    hide DoCall, Combine, Arcs, Closed;
    match Exec(ecd, p, FirstCtx(c)) {
      case Done(Ok(v), c1) =>
        assert Same()[v] == Return(v);
        assert Exec(ecd, q, c) == Exec(ecd, Return(v), c1);
      case Done(Retried, c1) =>
        assert Same()[Nothing] == Return(Nothing);
        OrMerges(ecd, q, c, c1, Ok(Nothing), SecondCtx(c, c1));
      case _ =>
    }
  }

  /** What the log recorded before stays, so a merge with a log grown from it waits for all that
      the grown log waits for. */
  lemma MergeWithBackup(backup: Log, grown: Log)
    requires Extends(backup, grown)
    ensures Waits(Combine(backup, grown)) == Waits(grown)
  {
    var merged := Waits(Combine(backup, grown));
    forall x ensures x in merged <==> x in Waits(grown)
             ensures x in merged ==> merged[x] == Waits(grown)[x]
    {
      CombineWaitsFor(backup, grown, x);
    }
  }

  /** `unwrap_or_retry(optionally(tx, f)?)` is `f`: the same outcome; the same log when `f` returns
      or fails; and when `f` retries, the same variables and values to wait for. */
  lemma OptionallyThenUnwrap(ecd: bool, f: Prog, c: Ctx)
    requires Closed(f)
    ensures Closed(Optionally(f)) && Closed(Then(Optionally(f), Unwrap()))
    ensures var r, r' := Exec(ecd, f, c), Exec(ecd, Then(Optionally(f), Unwrap()), c);
            match r
            case Ask(q, held, e) => r' == Ask(q, held + Arcs(c.log), e)
            case Done(out, c1) =>
              && r'.Done? && r'.out == out && r'.ctx.env == c1.env
              && (!out.Retried? ==> r'.ctx.log == c1.log)
              && Waits(r'.ctx.log) == Waits(c1.log)
  {
    OptionallyCloses(f);
    OptionallyRuns(ecd, f, c);
    ThenRuns(ecd, Optionally(f), Unwrap(), c);
    UnwrapReturns(ecd, Exec(ecd, Optionally(f), c));
    assert Exec(ecd, f, c).Done? ==> Extends(c.log, Exec(ecd, f, c).ctx.log) by {
      LogOnlyGrows(ecd, f, c);
    }
    hide Then, Optionally, Combine, Arcs, DoCall, Waits, Extends, Exec, Chain, Unwrap, AllClosed, Closed;
    match Exec(ecd, f, c) {
      case Done(Retried, c1) => MergeWithBackup(c.log, c1.log);
      case _ =>
    }
  }

  lemma UnwrapReturns(ecd: bool, r: Run)
    ensures AllClosed(Unwrap())
    ensures Chain(ecd, r, Unwrap()) ==
            if r.Done? && r.out.Ok? then
              if r.out.v.Just? then Done(Ok(r.out.v.inner), r.ctx) else Done(Retried, r.ctx)
            else r
  {
    if r.Done? && r.out.Ok? {
      assert Unwrap()[r.out.v] == UnwrapOrRetry(r.out.v);
    }
  }

  /** And `optionally(tx, |_| unwrap_or_retry(o))` is `o`, and leaves the log alone. */
  lemma UnwrapThenOptionally(ecd: bool, o: Val, c: Ctx)
    requires o.Nothing? || o.Just?
    ensures Closed(UnwrapOrRetry(o)) && Closed(Optionally(UnwrapOrRetry(o)))
    ensures Unpicked(Exec(ecd, Optionally(UnwrapOrRetry(o)), c)) == Done(Ok(o), c.(picks := []))
  {
    OptionallyRuns(ecd, UnwrapOrRetry(o), c);
    hide Then, Optionally;
    assert Combine(c.log, c.log) == c.log;
  }
}
