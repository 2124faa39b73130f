/** What running a body does to the log, and what the log then means. */
module LogLaws {
  import opened Values
  import opened Logs
  import opened Programs

  lemma CallOnlyGrows(ecd: bool, p: Prog, c: Ctx)
    requires Closed(p) && IsCall(p)
    ensures var r := DoCall(ecd, p, c); r.Continue? ==> Extends(c.log, r.c.log)
  {
    var r := DoCall(ecd, p, c);
    if r.Continue? {
      assert r.c.log == c.log[p.x := r.c.log[p.x]];
      assert p.x in c.log ==> EntryExtends(c.log[p.x], r.c.log[p.x]);
    }
  }

  lemma ExtendsTransitive(a: Log, b: Log, c: Log)
    requires Extends(a, b) && Extends(b, c)
    ensures Extends(a, c)
  {
  }

  /** `later` is a context that a run from `earlier` can reach. */
  ghost predicate Reaches(earlier: Ctx, later: Ctx) {
    Extends(earlier.log, later.log) && earlier.picks <= later.picks
  }

  lemma ReachesItself(c: Ctx)
    ensures forall e :: Reaches(c, c.(env := e))
  {
  }

  lemma ReachesTransitive(a: Ctx, b: Ctx, c: Ctx)
    requires Reaches(a, b) && Reaches(b, c)
    ensures Reaches(a, c)
  {
    ExtendsTransitive(a.log, b.log, c.log);
  }

  /** Starting a branch and merging the first one's waits are steps forward as well. */
  lemma BranchReaches(c: Ctx, c1: Ctx, c2: Ctx)
    ensures Reaches(c, FirstCtx(c)) && Reaches(c, SecondCtx(c, c1)) && Reaches(c2, MergedCtx(c1, c2))
  {
    CombineExtends(c2.log, c1.log);
  }

  ghost predicate RunReaches(c: Ctx, r: Run) {
    r.Done? ==> Reaches(c, r.ctx)
  }

  lemma ThenReaches(a: Ctx, b: Ctx, r: Run)
    requires Reaches(a, b) && RunReaches(b, r)
    ensures RunReaches(a, r)
  {
    if r.Done? {
      ReachesTransitive(a, b, r.ctx);
    }
  }

  /** No operation and no nesting of `or` loses an entry, changes a recorded value, gives a
      blind write a dependency, or drops a validation or a write. */
  lemma {:induction false} LogOnlyGrows(ecd: bool, p: Prog, c: Ctx)
    requires Closed(p)
    ensures RunReaches(c, Exec(ecd, p, c))
    decreases p
  {
    ReachesItself(c);
    if IsCall(p) {
      CallOnlyGrows(ecd, p, c);
      hide Extends;
      match DoCall(ecd, p, c) {
        case Continue(p', c') =>
          LogOnlyGrows(ecd, p', c');
          ThenReaches(c, c', Exec(ecd, p', c'));
        case _ =>
      }
    } else if p.OrElse? {
      hide Reaches, DoCall, Combine;
      BranchReaches(c, c, c);
      LogOnlyGrows(ecd, p.first, FirstCtx(c));
      ThenReaches(c, FirstCtx(c), Exec(ecd, p.first, FirstCtx(c)));
      match Exec(ecd, p.first, FirstCtx(c)) {
        case Done(Retried, c1) =>
          SecondBranchReaches(ecd, p, c, c1);
        case Done(Ok(v), c1) =>
          LogOnlyGrows(ecd, p.k[v], c1);
          ThenReaches(c, c1, Exec(ecd, p.k[v], c1));
        case _ =>
      }
    }
  }

  lemma {:induction false} SecondBranchReaches(ecd: bool, p: Prog, c: Ctx, c1: Ctx)
    requires Closed(p) && p.OrElse? && Exec(ecd, p.first, FirstCtx(c)) == Done(Retried, c1)
    ensures RunReaches(c, Exec(ecd, p, c))
    decreases p, 0
  {
    hide Reaches, DoCall, Combine;
    var r := Exec(ecd, p.second, SecondCtx(c, c1));
    LogOnlyGrows(ecd, p.second, SecondCtx(c, c1));
    BranchReaches(c, c1, c1);
    ThenReaches(c, SecondCtx(c, c1), r);
    if r.Done? && !r.out.Failed? {
      var c3 := MergedCtx(c1, r.ctx);
      BranchReaches(c, c1, r.ctx);
      ReachesTransitive(c, r.ctx, c3);
      if r.out.Ok? {
        LogOnlyGrows(ecd, p.k[r.out.v], c3);
        ThenReaches(c, c3, Exec(ecd, p.k[r.out.v], c3));
      }
    }
  }

  /** `m` holds the value every validated entry recorded. */
  ghost predicate Agrees(log: Log, m: Vals) {
    forall x :: x in log && log[x].Validated() ==> m[x] == log[x].orig.val
  }

  ghost function DirectResult(out: Outcome, log: Log, m: Vals): Direct {
    match out
    case Ok(v) => Finished(v, View(log, m))
    case Retried => Blocked
    case Failed(_) => Refused
  }

  lemma ReadKeepsView(log: Log, x: Addr, a: Arc, m: Vals)
    ensures View(LogRead(log, x, a), m) == View(log, m)
  {
  }

  lemma WriteUpdatesView(log: Log, x: Addr, b: Arc, m: Vals)
    ensures View(LogWrite(log, x, b), m) == View(log, m)[x := b.val]
  {
  }

  lemma ReadWriteUpdatesView(log: Log, x: Addr, a: Arc, b: Arc, m: Vals)
    ensures View(LogReadWrite(log, x, a, b), m) == View(log, m)[x := b.val]
  {
  }

  /** The value a call obtains is the one the log shows, once the entry is validated. */
  lemma FetchedIsViewed(ecd: bool, x: Addr, log: Log, e: Env, m: Vals)
    requires Fetch(ecd, x, log, e).Got?
    requires var a := Fetch(ecd, x, log, e).arc;
             Agrees(LogRead(log, x, a), m) || exists b :: Agrees(LogReadWrite(log, x, a, b), m)
    ensures View(log, m)[x] == Fetch(ecd, x, log, e).arc.val
  {
    var a := Fetch(ecd, x, log, e).arc;
    if Agrees(LogRead(log, x, a), m) {
      assert x in LogRead(log, x, a);
    } else {
      var b :| Agrees(LogReadWrite(log, x, a, b), m);
      assert x in LogReadWrite(log, x, a, b);
    }
  }

  lemma CallReplays(ecd: bool, p: Prog, c: Ctx, m: Vals)
    requires Closed(p) && IsCall(p) && DoCall(ecd, p, c).Continue?
    requires Agrees(DoCall(ecd, p, c).c.log, m)
    ensures var r := DoCall(ecd, p, c);
            CallDirect(p, View(c.log, m)) == Moved(r.p, View(r.c.log, m))
  {
    match p
    case ReadVar(x, _) =>
      var Got(a, e) := Fetch(ecd, x, c.log, c.env);
      ReadKeepsView(c.log, x, a, m);
      FetchedIsViewed(ecd, x, c.log, c.env, m);
    case WriteVar(x, w, _) =>
      WriteUpdatesView(c.log, x, Alloc(c.env, w).arc, m);
    case ModifyVar(x, f, _) =>
      var Got(a, e) := Fetch(ecd, x, c.log, c.env);
      ReadWriteUpdatesView(c.log, x, a, Alloc(e, f(a.val)).arc, m);
      FetchedIsViewed(ecd, x, c.log, c.env, m);
    case ExchangeVar(x, w, _) =>
      var Given(b, e) := Alloc(c.env, w);
      ReadWriteUpdatesView(c.log, x, Fetch(ecd, x, c.log, e).arc, b, m);
      FetchedIsViewed(ecd, x, c.log, e, m);
  }

  lemma AgreesEarlier(earlier: Ctx, later: Ctx, m: Vals)
    requires Reaches(earlier, later) && Agrees(later.log, m)
    ensures Agrees(earlier.log, m)
  {
  }

  /** Whatever other threads did during the run: on any store that still holds the validated
      values, the branches taken, run atomically, read the same values, end the same way and
      write exactly what the log would write. */
  lemma {:induction false} TakenPathReplays(ecd: bool, p: Prog, c: Ctx, m: Vals, picks: seq<bool>)
    requires Closed(p)
    requires Exec(ecd, p, c).Done? && !Exec(ecd, p, c).out.Failed?
    requires Agrees(Exec(ecd, p, c).ctx.log, m)
    requires Exec(ecd, p, c).ctx.picks <= picks
    ensures var r := Exec(ecd, p, c);
            RunPath(p, View(c.log, m), picks, |c.picks|) == Path(DirectResult(r.out, r.ctx.log, m), |r.ctx.picks|)
    decreases p
  {
    hide DoCall, CallDirect, Combine, Agrees;
    var r := Exec(ecd, p, c);
    if IsCall(p) {
      var Continue(p', c') := DoCall(ecd, p, c);
      LogOnlyGrows(ecd, p', c');
      AgreesEarlier(c', r.ctx, m);
      CallReplays(ecd, p, c, m);
      TakenPathReplays(ecd, p', c', m, picks);
    } else if p.OrElse? {
      match Exec(ecd, p.first, FirstCtx(c)) {
        case Done(Ok(v), c1) =>
          FirstBranchReplays(ecd, p, c, c1, v, m, picks);
        case Done(Retried, c1) =>
          SecondBranchReplays(ecd, p, c, c1, m, picks);
        case _ =>
      }
    }
  }

  lemma {:induction false} FirstBranchReplays(ecd: bool, p: Prog, c: Ctx, c1: Ctx, v: Val, m: Vals, picks: seq<bool>)
    requires Closed(p) && p.OrElse?
    requires Exec(ecd, p.first, FirstCtx(c)) == Done(Ok(v), c1)
    requires Exec(ecd, p, c).Done? && !Exec(ecd, p, c).out.Failed?
    requires Agrees(Exec(ecd, p, c).ctx.log, m)
    requires Exec(ecd, p, c).ctx.picks <= picks
    ensures var r := Exec(ecd, p, c);
            RunPath(p, View(c.log, m), picks, |c.picks|) == Path(DirectResult(r.out, r.ctx.log, m), |r.ctx.picks|)
    decreases p, 0
  {
    hide DoCall, CallDirect, Combine, Agrees;
    var r := Exec(ecd, p, c);
    LogOnlyGrows(ecd, p.first, FirstCtx(c));
    LogOnlyGrows(ecd, p.k[v], c1);
    AgreesEarlier(c1, r.ctx, m);
    TakenPathReplays(ecd, p.first, FirstCtx(c), m, picks);
    TakenPathReplays(ecd, p.k[v], c1, m, picks);
  }

  lemma CombineKeepsView(log: Log, other: Log, m: Vals)
    ensures View(Combine(log, other), m) == View(log, m)
  {
  }

  lemma {:induction false} SecondBranchReplays(ecd: bool, p: Prog, c: Ctx, c1: Ctx, m: Vals, picks: seq<bool>)
    requires Closed(p) && p.OrElse?
    requires Exec(ecd, p.first, FirstCtx(c)) == Done(Retried, c1)
    requires Exec(ecd, p, c).Done? && !Exec(ecd, p, c).out.Failed?
    requires Agrees(Exec(ecd, p, c).ctx.log, m)
    requires Exec(ecd, p, c).ctx.picks <= picks
    ensures var r := Exec(ecd, p, c);
            RunPath(p, View(c.log, m), picks, |c.picks|) == Path(DirectResult(r.out, r.ctx.log, m), |r.ctx.picks|)
    decreases p, 0
  {
    hide DoCall, CallDirect, Combine, Agrees;
    var r := Exec(ecd, p, c);
    var cB := SecondCtx(c, c1);
    var Done(out, c2) := Exec(ecd, p.second, cB);
    var c3 := MergedCtx(c1, c2);
    LogOnlyGrows(ecd, p.second, cB);
    BranchReaches(c, c1, c2);
    CombineKeepsView(c2.log, c1.log, m);
    if out.Ok? {
      LogOnlyGrows(ecd, p.k[out.v], c3);
      AgreesEarlier(c3, r.ctx, m);
      AgreesEarlier(c2, c3, m);
      TakenPathReplays(ecd, p.second, cB, m, picks);
      TakenPathReplays(ecd, p.k[out.v], c3, m, picks);
    } else {
      AgreesEarlier(c2, c3, m);
      TakenPathReplays(ecd, p.second, cB, m, picks);
    }
  }

  // ---------------------------------------------------------------- runs without interference

  /** Every load still to come finds what `st` holds. */
  ghost predicate Quiet(e: Env, st: Store) {
    match e
    case Live(store, _) => store == st
    case Replay(loads, _) => forall i :: 0 <= i < |loads| ==> loads[i].arc == st[loads[i].x]
  }

  /** Everything the log recorded is what `st` holds. */
  ghost predicate Current(log: Log, st: Store) {
    forall x :: x in log && log[x].HasOrig() ==> log[x].orig == st[x]
  }

  lemma QuietFetchIsCurrent(ecd: bool, x: Addr, log: Log, e: Env, st: Store)
    requires Quiet(e, st) && Current(log, st)
    ensures var r := Fetch(ecd, x, log, e);
            && !r.Conflict?
            && (r.Got? ==>
                && Quiet(r.env, st)
                && Current(LogRead(log, x, r.arc), st)
                && forall b :: Current(LogReadWrite(log, x, r.arc, b), st))
  {
  }

  lemma QuietAllocStaysQuiet(e: Env, v: Val, st: Store)
    requires Quiet(e, st)
    ensures Alloc(e, v).Given? ==> Quiet(Alloc(e, v).env, st)
  {
  }

  lemma CombineChangesNothingSeen(log: Log, other: Log, st: Store)
    requires Current(log, st) && Current(other, st)
    ensures Current(Combine(log, other), st)
    ensures View(Combine(log, other), Payloads(st)) == View(log, Payloads(st))
  {
  }

  lemma CurrentAgrees(log: Log, st: Store)
    requires Current(log, st)
    ensures Agrees(log, Payloads(st))
  {
  }

  lemma CallStaysCurrent(ecd: bool, p: Prog, c: Ctx, st: Store)
    requires Closed(p) && IsCall(p)
    requires Quiet(c.env, st) && Current(c.log, st)
    ensures var r := DoCall(ecd, p, c);
            !r.Raised? && (r.Continue? ==> Quiet(r.c.env, st) && Current(r.c.log, st))
  {
    hide Fetch, Alloc;
    match p
    case ReadVar(x, _) =>
      QuietFetchIsCurrent(ecd, x, c.log, c.env, st);
    case WriteVar(x, w, _) =>
      QuietAllocStaysQuiet(c.env, w, st);
    case ModifyVar(x, f, _) =>
      QuietFetchIsCurrent(ecd, x, c.log, c.env, st);
      match Fetch(ecd, x, c.log, c.env) {
        case Got(a, e) => QuietAllocStaysQuiet(e, f(a.val), st);
        case _ =>
      }
    case ExchangeVar(x, w, _) =>
      QuietAllocStaysQuiet(c.env, w, st);
      match Alloc(c.env, w) {
        case Given(b, e) => QuietFetchIsCurrent(ecd, x, c.log, e, st);
        case _ =>
      }
  }

  /** When nothing a run loads changes, it does on the log what the body does directly on the
      store, rolling back and retrying at the same places; early conflict detection never
      fires, and everything recorded is still current. */
  lemma {:induction false} LogRunMeansDirectRun(ecd: bool, p: Prog, c: Ctx, st: Store)
    requires Closed(p)
    requires Quiet(c.env, st) && Current(c.log, st)
    requires Exec(ecd, p, c).Done?
    ensures var r := Exec(ecd, p, c);
            && RunDirect(p, View(c.log, Payloads(st))) == DirectResult(r.out, r.ctx.log, Payloads(st))
            && (r.out.Failed? ==> r.out.at.None?)
            && Quiet(r.ctx.env, st) && Current(r.ctx.log, st)
    decreases p
  {
    hide DoCall, CallDirect, Combine, Quiet, Current;
    var m := Payloads(st);
    if IsCall(p) {
      CallStaysCurrent(ecd, p, c, st);
      var r := DoCall(ecd, p, c);
      CurrentAgrees(r.c.log, st);
      CallReplays(ecd, p, c, m);
      LogRunMeansDirectRun(ecd, r.p, r.c, st);
    } else if p.OrElse? {
      LogRunMeansDirectRun(ecd, p.first, FirstCtx(c), st);
      match Exec(ecd, p.first, FirstCtx(c)) {
        case Done(Ok(v), c1) => LogRunMeansDirectRun(ecd, p.k[v], c1, st);
        case Done(Failed(_), c1) =>
        case Done(Retried, c1) => SecondBranchMeansDirect(ecd, p, c, c1, st);
      }
    }
  }

  lemma {:induction false} SecondBranchMeansDirect(ecd: bool, p: Prog, c: Ctx, c1: Ctx, st: Store)
    requires Closed(p) && p.OrElse?
    requires Exec(ecd, p.first, FirstCtx(c)) == Done(Retried, c1)
    requires RunDirect(p.first, View(c.log, Payloads(st))).Blocked?
    requires Quiet(c1.env, st) && Current(c.log, st) && Current(c1.log, st)
    requires Exec(ecd, p, c).Done?
    ensures var r := Exec(ecd, p, c);
            && RunDirect(p, View(c.log, Payloads(st))) == DirectResult(r.out, r.ctx.log, Payloads(st))
            && (r.out.Failed? ==> r.out.at.None?)
            && Quiet(r.ctx.env, st) && Current(r.ctx.log, st)
    decreases p, 0
  {
    hide DoCall, CallDirect, Combine, Quiet, Current;
    LogRunMeansDirectRun(ecd, p.second, SecondCtx(c, c1), st);
    var c2 := Exec(ecd, p.second, SecondCtx(c, c1)).ctx;
    CombineChangesNothingSeen(c2.log, c1.log, st);
    match Exec(ecd, p.second, SecondCtx(c, c1)) {
      case Done(Ok(v), c2) => LogRunMeansDirectRun(ecd, p.k[v], MergedCtx(c1, c2), st);
      case _ =>
    }
  }

  lemma LiveCall(ecd: bool, p: Prog, c: Ctx)
    requires Closed(p) && IsCall(p) && c.env.Live?
    ensures match DoCall(ecd, p, c)
            case Waiting(_, _, _) => false
            case Raised(_, e) => e.Live?
            case Continue(_, c') => c'.env.Live?
  {
  }

  /** On memory nobody else touches a body never waits for memory. */
  lemma {:induction false} LiveNeverAsks(ecd: bool, p: Prog, c: Ctx)
    requires Closed(p) && c.env.Live?
    ensures Exec(ecd, p, c).Done? && Exec(ecd, p, c).ctx.env.Live?
    decreases p
  {
    hide DoCall, Combine;
    if IsCall(p) {
      LiveCall(ecd, p, c);
      match DoCall(ecd, p, c) {
        case Continue(p', c') => LiveNeverAsks(ecd, p', c');
        case Raised(_, _) =>
      }
    } else if p.OrElse? {
      LiveNeverAsks(ecd, p.first, FirstCtx(c));
      match Exec(ecd, p.first, FirstCtx(c)) {
        case Done(Ok(v), c1) => LiveNeverAsks(ecd, p.k[v], c1);
        case Done(Failed(_), c1) =>
        case Done(Retried, c1) =>
          LiveNeverAsks(ecd, p.second, SecondCtx(c, c1));
          match Exec(ecd, p.second, SecondCtx(c, c1)) {
            case Done(Ok(v), c2) => LiveNeverAsks(ecd, p.k[v], MergedCtx(c1, c2));
            case _ =>
          }
      }
    }
  }
}
