/** What a run can have in its log, given the answers memory gave it. */
module RunFacts {
  import opened Values
  import opened Logs
  import opened Programs

  const NO_ANSWERS := Replay([], [])

  /** The allocations a run keeps alive. */
  function Held(r: Run): set<Arc> {
    match r
    case Ask(_, held, _) => held
    case Done(_, c) => Arcs(c.log)
  }

  /** Early conflict detection ended the run. */
  predicate FailedEarly(r: Run) {
    r.Done? && r.out.Failed? && r.out.at.Some?
  }

  function Unused(r: Run): Env {
    match r
    case Ask(_, _, e) => e
    case Done(_, c) => c.env
  }

  // ---------------------------------------------------------------- what stays alive

  lemma ArcsOfUpdate(log: Log, x: Addr, e: LogVar)
    ensures Arcs(log[x := e]) <= Arcs(log) + e.Parts()
  {
    forall a | a in Arcs(log[x := e]) ensures a in Arcs(log) + e.Parts() {
      var y :| y in log[x := e] && a in log[x := e][y].Parts();
      if y != x {
        assert a in log[y].Parts();
      }
    }
  }

  lemma ArcsOfEntry(log: Log, x: Addr)
    requires x in log
    ensures log[x].Parts() <= Arcs(log)
  {
  }

  lemma PartsAfterCall(log: Log, x: Addr, a: Arc, b: Arc)
    ensures Arcs(LogRead(log, x, a)) <= Arcs(log) + {a}
    ensures Arcs(LogWrite(log, x, b)) <= Arcs(log) + {b}
    ensures Arcs(LogReadWrite(log, x, a, b)) <= Arcs(log) + {a, b}
  {
    if x in log {
      ArcsOfEntry(log, x);
    }
    ArcsOfUpdate(log, x, LogRead(log, x, a)[x]);
    ArcsOfUpdate(log, x, LogWrite(log, x, b)[x]);
    ArcsOfUpdate(log, x, LogReadWrite(log, x, a, b)[x]);
  }

  /** What `Fetch` returns is in the log or was just loaded. */
  lemma FetchSource(ecd: bool, x: Addr, log: Log, e: Env)
    ensures var r := Fetch(ecd, x, log, e);
            r.Got? ==> r.arc in Arcs(log) || (x !in log && Load(e, x) == Given(r.arc, r.env))
  {
    if x in log {
      ArcsOfEntry(log, x);
    }
  }

  /** The allocation that answers a query. */
  function AnswerArc(q: Query, loaded: Arc, id: Id): Arc {
    match q
    case AskLoad(_) => loaded
    case AskAlloc(v) => Arc(id, v)
  }

  /** The answers after `q` has been answered. */
  function Answered(e: Env, q: Query, loaded: Arc, id: Id): Env
    requires e.Replay?
  {
    match q
    case AskLoad(x) => Replay(e.loads + [Access(x, loaded)], e.allocs)
    case AskAlloc(_) => Replay(e.loads, e.allocs + [id])
  }

  lemma DryCall(ecd: bool, p: Prog, c: Ctx)
    requires Closed(p) && IsCall(p) && c.env == NO_ANSWERS
    ensures match DoCall(ecd, p, c)
            case Waiting(_, held, e) => held <= Arcs(c.log) && e == NO_ANSWERS
            case Raised(_, _) => false
            case Continue(_, c') => c'.env == NO_ANSWERS && Arcs(c'.log) <= Arcs(c.log)
  {
    FetchSource(ecd, p.x, c.log, c.env);
    match DoCall(ecd, p, c) {
      case Continue(_, c') =>
        ArcsOfEntry(c.log, p.x);
        PartsAfterCall(c.log, p.x, c.log[p.x].Value(), c.log[p.x].Value());
      case _ =>
    }
  }

  /** Without further answers a run gets hold of nothing new. */
  lemma {:induction false} DryRun(ecd: bool, p: Prog, c: Ctx)
    requires Closed(p) && c.env == NO_ANSWERS
    ensures Held(Exec(ecd, p, c)) <= Arcs(c.log) && Unused(Exec(ecd, p, c)) == NO_ANSWERS
    ensures !FailedEarly(Exec(ecd, p, c))
    decreases p
  {
    hide Arcs, DoCall, Combine;
    if IsCall(p) {
      DryCall(ecd, p, c);
      match DoCall(ecd, p, c) {
        case Continue(p', c') => DryRun(ecd, p', c');
        case _ =>
      }
    } else if p.OrElse? {
      DryRun(ecd, p.first, FirstCtx(c));
      match Exec(ecd, p.first, FirstCtx(c)) {
        case Done(Ok(v), c1) => DryRun(ecd, p.k[v], c1);
        case Done(Retried, c1) =>
          DryRun(ecd, p.second, SecondCtx(c, c1));
          AfterSecondDry(ecd, p, c, c1, Arcs(c.log));
        case _ =>
      }
    }
  }

  /** The part of an `or` after its second branch, once all answers are used. */
  lemma {:induction false} AfterSecondDry(ecd: bool, p: Prog, c: Ctx, c1: Ctx, alive: set<Arc>)
    requires Closed(p) && p.OrElse? && Exec(ecd, p.first, FirstCtx(c)) == Done(Retried, c1)
    requires var r := Exec(ecd, p.second, SecondCtx(c, c1));
             Held(r) <= alive && Unused(r) == NO_ANSWERS
    requires Arcs(c1.log) <= alive
    ensures Held(Exec(ecd, p, c)) <= alive && Unused(Exec(ecd, p, c)) == NO_ANSWERS
    ensures FailedEarly(Exec(ecd, p, c)) ==> FailedEarly(Exec(ecd, p.second, SecondCtx(c, c1)))
    decreases p, 0
  {
    hide Arcs, DoCall, Combine;
    var r := Exec(ecd, p.second, SecondCtx(c, c1));
    if r.Done? && !r.out.Failed? {
      CombineKeepsAlive(r.ctx.log, c1.log);
      if r.out.Ok? {
        DryRun(ecd, p.k[r.out.v], MergedCtx(c1, r.ctx));
      }
    }
  }

  /** What one answer brings to `Fetch` and `Alloc` when all the others are used. */
  lemma AnswerMemory(ecd: bool, x: Addr, log: Log, v: Val, loaded: Arc, id: Id)
    ensures match Fetch(ecd, x, log, NO_ANSWERS)
            case Stuck =>
              (match Fetch(ecd, x, log, Answered(NO_ANSWERS, AskLoad(x), loaded, id))
               case Stuck => false
               case Conflict(e) => e == NO_ANSWERS
               case Got(a, e) => e == NO_ANSWERS && a in Arcs(log) + {loaded})
            case Conflict(_) => false
            case Got(a, e) => e == NO_ANSWERS && a in Arcs(log)
    ensures Alloc(NO_ANSWERS, v) == Pending
    ensures Alloc(Answered(NO_ANSWERS, AskAlloc(v), loaded, id), v) == Given(Arc(id, v), NO_ANSWERS)
  {
    assert Answered(NO_ANSWERS, AskLoad(x), loaded, id) == Replay([Access(x, loaded)], []);
    assert Answered(NO_ANSWERS, AskAlloc(v), loaded, id) == Replay([], [id]);
    if x in log {
      ArcsOfEntry(log, x);
    }
  }

  ghost predicate AliveAfterCall(r: Call, c: Ctx, alive: set<Arc>, q: Query) {
    match r
    case Waiting(_, held, e) => held <= alive && e == NO_ANSWERS
    case Raised(_, e) => Arcs(c.log) <= alive && e == NO_ANSWERS && q.AskLoad?
    case Continue(_, c') => c'.env == NO_ANSWERS && Arcs(c'.log) <= alive
  }

  lemma SpareAnswersMemory(e: Env, x: Addr, v: Val, q: Query, loaded: Arc, id: Id)
    requires e.Replay?
    ensures match Load(e, x)
            case Given(a, e1) => e1.Replay?
                && Load(Answered(e, q, loaded, id), x) == Given(a, Answered(e1, q, loaded, id))
            case Pending => true
    ensures match Alloc(e, v)
            case Given(a, e1) => e1.Replay?
                && Alloc(Answered(e, q, loaded, id), v) == Given(a, Answered(e1, q, loaded, id))
            case Pending => true
  {
    if e.loads != [] {
      assert forall s: seq<Access> :: (e.loads + s)[1..] == e.loads[1..] + s;
    }
    if e.allocs != [] {
      assert forall s: seq<Id> :: (e.allocs + s)[1..] == e.allocs[1..] + s;
    }
  }

  lemma SpareAnswersFetch(ecd: bool, x: Addr, log: Log, e: Env, q: Query, loaded: Arc, id: Id)
    requires e.Replay?
    ensures var r := Fetch(ecd, x, log, Answered(e, q, loaded, id));
            match Fetch(ecd, x, log, e)
            case Got(a, e1) => e1.Replay? && r == Got(a, Answered(e1, q, loaded, id))
            case Conflict(e1) => e1.Replay? && r == Conflict(Answered(e1, q, loaded, id))
            case Stuck => true
  {
    hide Load, Answered;
    SpareAnswersMemory(e, x, Nothing, q, loaded, id);
  }

  /** More answers than a call needed do not change it. */
  lemma SpareAnswersCall(ecd: bool, p: Prog, c: Ctx, q: Query, loaded: Arc, id: Id)
    requires Closed(p) && IsCall(p) && c.env.Replay?
    ensures var r' := DoCall(ecd, p, c.(env := Answered(c.env, q, loaded, id)));
            match DoCall(ecd, p, c)
            case Waiting(_, _, _) => true
            case Raised(x, e) => e.Replay? && r' == Raised(x, Answered(e, q, loaded, id))
            case Continue(p', c1) =>
              c1.env.Replay? && r' == Continue(p', c1.(env := Answered(c1.env, q, loaded, id)))
  {
    hide Fetch, Alloc, Answered;
    match p
    case ReadVar(x, _) =>
      SpareAnswersFetch(ecd, x, c.log, c.env, q, loaded, id);
    case WriteVar(x, w, _) =>
      SpareAnswersMemory(c.env, x, w, q, loaded, id);
    case ModifyVar(x, f, _) =>
      SpareAnswersFetch(ecd, x, c.log, c.env, q, loaded, id);
      match Fetch(ecd, x, c.log, c.env) {
        case Got(a, e) => SpareAnswersMemory(e, x, f(a.val), q, loaded, id);
        case _ =>
      }
    case ExchangeVar(x, w, _) =>
      SpareAnswersMemory(c.env, x, w, q, loaded, id);
      match Alloc(c.env, w) {
        case Given(_, e) => SpareAnswersFetch(ecd, x, c.log, e, q, loaded, id);
        case _ =>
      }
  }

  lemma AnswerRead(ecd: bool, p: Prog, c: Ctx, q: Query, held: set<Arc>, loaded: Arc, id: Id)
    requires Closed(p) && p.ReadVar? && c.env.Replay?
    requires DoCall(ecd, p, c) == Waiting(q, held, NO_ANSWERS)
    ensures AliveAfterCall(DoCall(ecd, p, c.(env := Answered(c.env, q, loaded, id))), c, held + {AnswerArc(q,
        loaded, id)}, q)
  {
    hide Arcs, Fetch, LogRead;
    AnswerMemory(ecd, p.x, c.log, Nothing, loaded, id);
    match Fetch(ecd, p.x, c.log, Answered(c.env, q, loaded, id)) {
      case Got(a, _) => PartsAfterCall(c.log, p.x, a, loaded);
      case Conflict(_) =>
    }
  }

  lemma AnswerWrite(ecd: bool, p: Prog, c: Ctx, q: Query, held: set<Arc>, loaded: Arc, id: Id)
    requires Closed(p) && p.WriteVar? && c.env.Replay?
    requires DoCall(ecd, p, c) == Waiting(q, held, NO_ANSWERS)
    ensures AliveAfterCall(DoCall(ecd, p, c.(env := Answered(c.env, q, loaded, id))), c, held + {AnswerArc(q,
        loaded, id)}, q)
  {
    hide Arcs, LogWrite;
    PartsAfterCall(c.log, p.x, loaded, Arc(id, p.w));
  }

  lemma AnswerModify(ecd: bool, p: Prog, c: Ctx, q: Query, held: set<Arc>, loaded: Arc, id: Id)
    requires Closed(p) && p.ModifyVar? && c.env.Replay?
    requires DoCall(ecd, p, c) == Waiting(q, held, NO_ANSWERS)
    ensures AliveAfterCall(DoCall(ecd, p, c.(env := Answered(c.env, q, loaded, id))), c, held + {AnswerArc(q,
        loaded, id)}, q)
  {
    hide Arcs, Fetch, Alloc, LogReadWrite;
    AnswerMemory(ecd, p.x, c.log, Nothing, loaded, id);
    match Fetch(ecd, p.x, c.log, c.env) {
      case Stuck =>
        match Fetch(ecd, p.x, c.log, Answered(c.env, q, loaded, id)) {
          case Got(a, _) => AnswerMemory(ecd, p.x, c.log, p.f(a.val), loaded, id);
          case Conflict(_) =>
        }
      case Got(a, e) =>
        SpareAnswersFetch(ecd, p.x, c.log, c.env, q, loaded, id);
        AnswerMemory(ecd, p.x, c.log, p.f(a.val), loaded, id);
        PartsAfterCall(c.log, p.x, a, Arc(id, p.f(a.val)));
    }
  }

  lemma AnswerExchange(ecd: bool, p: Prog, c: Ctx, q: Query, held: set<Arc>, loaded: Arc, id: Id)
    requires Closed(p) && p.ExchangeVar? && c.env.Replay?
    requires DoCall(ecd, p, c) == Waiting(q, held, NO_ANSWERS)
    ensures AliveAfterCall(DoCall(ecd, p, c.(env := Answered(c.env, q, loaded, id))), c, held + {AnswerArc(q,
        loaded, id)}, q)
  {
    hide Arcs, Fetch, Alloc, LogReadWrite;
    AnswerMemory(ecd, p.x, c.log, p.w, loaded, id);
    match Alloc(c.env, p.w) {
      case Pending =>
        match Fetch(ecd, p.x, c.log, NO_ANSWERS) {
          case Got(a, _) => PartsAfterCall(c.log, p.x, a, Arc(id, p.w));
          case Stuck =>
        }
      case Given(b, e) =>
        SpareAnswersMemory(c.env, p.x, p.w, q, loaded, id);
        match Fetch(ecd, p.x, c.log, Answered(e, q, loaded, id)) {
          case Got(a, _) => PartsAfterCall(c.log, p.x, a, b);
          case Conflict(_) =>
        }
    }
  }

  lemma AnswerCall(ecd: bool, p: Prog, c: Ctx, q: Query, held: set<Arc>, loaded: Arc, id: Id)
    requires Closed(p) && IsCall(p) && c.env.Replay?
    requires DoCall(ecd, p, c) == Waiting(q, held, NO_ANSWERS)
    ensures AliveAfterCall(DoCall(ecd, p, c.(env := Answered(c.env, q, loaded, id))), c, held + {AnswerArc(q,
        loaded, id)}, q)
  {
    hide DoCall, AliveAfterCall, Answered;
    match p
    case ReadVar(_, _) => AnswerRead(ecd, p, c, q, held, loaded, id);
    case WriteVar(_, _, _) => AnswerWrite(ecd, p, c, q, held, loaded, id);
    case ModifyVar(_, _, _) => AnswerModify(ecd, p, c, q, held, loaded, id);
    case ExchangeVar(_, _, _) => AnswerExchange(ecd, p, c, q, held, loaded, id);
  }

  lemma {:induction false} SpareAnswersRun(ecd: bool, p: Prog, c: Ctx, q: Query, loaded: Arc, id: Id)
    requires Closed(p) && c.env.Replay? && Exec(ecd, p, c).Done?
    ensures var c1 := Exec(ecd, p, c).ctx;
            && c1.env.Replay?
            && Exec(ecd, p, c.(env := Answered(c.env, q, loaded, id)))
               == Done(Exec(ecd, p, c).out, c1.(env := Answered(c1.env, q, loaded, id)))
    decreases p
  {
    hide DoCall, Combine, Answered;
    var c' := c.(env := Answered(c.env, q, loaded, id));
    if IsCall(p) {
      SpareAnswersCall(ecd, p, c, q, loaded, id);
      match DoCall(ecd, p, c) {
        case Continue(p1, c1) => SpareAnswersRun(ecd, p1, c1, q, loaded, id);
        case _ =>
      }
    } else if p.OrElse? {
      SpareAnswersRun(ecd, p.first, FirstCtx(c), q, loaded, id);
      assert FirstCtx(c') == FirstCtx(c).(env := Answered(c.env, q, loaded, id));
      match Exec(ecd, p.first, FirstCtx(c)) {
        case Done(Ok(v), c1) => SpareAnswersRun(ecd, p.k[v], c1, q, loaded, id);
        case Done(Failed(_), _) =>
        case Done(Retried, c1) =>
          var c1' := c1.(env := Answered(c1.env, q, loaded, id));
          SpareAnswersRun(ecd, p.second, SecondCtx(c, c1), q, loaded, id);
          assert SecondCtx(c', c1') == SecondCtx(c, c1).(env := Answered(c1.env, q, loaded, id));
          match Exec(ecd, p.second, SecondCtx(c, c1)) {
            case Done(Ok(v), c2) =>
              SpareAnswersRun(ecd, p.k[v], MergedCtx(c1, c2), q, loaded, id);
            case _ =>
          }
      }
    }
  }

  /** Answering the query a run waits for gives it hold of the answer and of nothing else; what
      it dropped in between is free. */
  lemma {:induction false} AnswerRun(ecd: bool, p: Prog, c: Ctx, q: Query, held: set<Arc>, loaded: Arc, id: Id)
    requires Closed(p) && c.env.Replay?
    requires Exec(ecd, p, c) == Ask(q, held, NO_ANSWERS)
    ensures var r := Exec(ecd, p, c.(env := Answered(c.env, q, loaded, id)));
            && Held(r) <= held + {AnswerArc(q, loaded, id)} && Unused(r) == NO_ANSWERS
            && (q.AskAlloc? ==> !FailedEarly(r))
    decreases p
  {
    hide DoCall, Combine, Answered, Arcs;
    var c' := c.(env := Answered(c.env, q, loaded, id));
    var alive := held + {AnswerArc(q, loaded, id)};
    if IsCall(p) {
      match DoCall(ecd, p, c) {
        case Continue(p1, c1) =>
          SpareAnswersCall(ecd, p, c, q, loaded, id);
          AnswerRun(ecd, p1, c1, q, held, loaded, id);
        case Waiting(_, _, _) =>
          AnswerCall(ecd, p, c, q, held, loaded, id);
          match DoCall(ecd, p, c') {
            case Continue(p1, c1) => DryRun(ecd, p1, c1);
            case _ =>
          }
      }
    } else if p.OrElse? {
      assert FirstCtx(c') == FirstCtx(c).(env := Answered(c.env, q, loaded, id));
      match Exec(ecd, p.first, FirstCtx(c)) {
        case Ask(_, held1, _) => AnswerFirst(ecd, p, c, q, held, held1, loaded, id);
        case Done(Ok(v), c1) =>
          SpareAnswersRun(ecd, p.first, FirstCtx(c), q, loaded, id);
          AnswerRun(ecd, p.k[v], c1, q, held, loaded, id);
        case Done(Retried, c1) => AnswerSecond(ecd, p, c, c1, q, held, loaded, id);
      }
    }
  }

  lemma {:induction false} AnswerFirst(ecd: bool, p: Prog, c: Ctx, q: Query, held: set<Arc>, held1: set<Arc>,
                                       loaded: Arc, id: Id)
    requires Closed(p) && c.env.Replay? && p.OrElse?
    requires Exec(ecd, p, c) == Ask(q, held, NO_ANSWERS)
    requires Exec(ecd, p.first, FirstCtx(c)) == Ask(q, held1, NO_ANSWERS)
    ensures var r := Exec(ecd, p, c.(env := Answered(c.env, q, loaded, id)));
            && Held(r) <= held + {AnswerArc(q, loaded, id)} && Unused(r) == NO_ANSWERS
            && (q.AskAlloc? ==> !FailedEarly(r))
    decreases p, 0
  {
    hide DoCall, Combine, Answered, Arcs;
    var c' := c.(env := Answered(c.env, q, loaded, id));
    assert FirstCtx(c') == FirstCtx(c).(env := Answered(c.env, q, loaded, id));
    AnswerRun(ecd, p.first, FirstCtx(c), q, held1, loaded, id);
    match Exec(ecd, p.first, FirstCtx(c')) {
      case Done(Ok(v), c1) => DryRun(ecd, p.k[v], c1);
      case Done(Retried, c1) =>
        DryRun(ecd, p.second, SecondCtx(c', c1));
        AfterSecondDry(ecd, p, c', c1, held + {AnswerArc(q, loaded, id)});
      case _ =>
    }
  }

  lemma {:induction false} AnswerSecond(ecd: bool, p: Prog, c: Ctx, c1: Ctx, q: Query, held: set<Arc>,
                                        loaded: Arc, id: Id)
    requires Closed(p) && c.env.Replay? && p.OrElse?
    requires Exec(ecd, p, c) == Ask(q, held, NO_ANSWERS)
    requires Exec(ecd, p.first, FirstCtx(c)) == Done(Retried, c1)
    ensures var r := Exec(ecd, p, c.(env := Answered(c.env, q, loaded, id)));
            && Held(r) <= held + {AnswerArc(q, loaded, id)} && Unused(r) == NO_ANSWERS
            && (q.AskAlloc? ==> !FailedEarly(r))
    decreases p, 0
  {
    hide DoCall, Combine, Answered, Arcs;
    var c' := c.(env := Answered(c.env, q, loaded, id));
    SpareAnswersRun(ecd, p.first, FirstCtx(c), q, loaded, id);
    assert FirstCtx(c') == FirstCtx(c).(env := Answered(c.env, q, loaded, id));
    var c1' := c1.(env := Answered(c1.env, q, loaded, id));
    var cB := SecondCtx(c, c1);
    assert SecondCtx(c', c1') == cB.(env := Answered(c1.env, q, loaded, id));
    match Exec(ecd, p.second, cB) {
      case Ask(_, held2, _) =>
        AnswerRun(ecd, p.second, cB, q, held2, loaded, id);
        AfterSecondDry(ecd, p, c', c1', held + {AnswerArc(q, loaded, id)});
      case Done(Ok(v), c2) =>
        SpareAnswersRun(ecd, p.second, cB, q, loaded, id);
        AnswerRun(ecd, p.k[v], MergedCtx(c1, c2), q, held, loaded, id);
    }
  }

  // ---------------------------------------------------------------- where a log comes from

  /** Every recorded value was loaded from that variable. */
  ghost predicate Recorded(log: Log, loads: seq<Access>) {
    forall x :: x in log && log[x].HasOrig() ==> Access(x, log[x].orig) in loads
  }

  /** Every pending write is one of the allocations `ids`, and no two share one. */
  ghost predicate Boxed(log: Log, ids: seq<Id>) {
    && (forall x :: x in log && log[x].HasPend() ==> log[x].pend.id in ids)
    && (forall x, y :: x in log && y in log && x != y && log[x].HasPend() && log[y].HasPend() ==>
          log[x].pend.id != log[y].pend.id)
  }

  ghost predicate Distinct(ids: seq<Id>) {
    forall i, j :: 0 <= i < j < |ids| ==> ids[i] != ids[j]
  }

  /** `e` is what is left of the answers `loads` and `allocs`. */
  ghost predicate Leftover(e: Env, loads: seq<Access>, allocs: seq<Id>) {
    && e.Replay?
    && |e.loads| <= |loads|
    && e.loads == loads[|loads| - |e.loads|..]
    && |e.allocs| <= |allocs|
    && e.allocs == allocs[|allocs| - |e.allocs|..]
  }

  /** The allocations used up so far. */
  function Used(e: Env, allocs: seq<Id>): seq<Id> {
    if e.Replay? && |e.allocs| <= |allocs| then allocs[..|allocs| - |e.allocs|] else []
  }

  ghost predicate Sound(c: Ctx, loads: seq<Access>, allocs: seq<Id>) {
    && Leftover(c.env, loads, allocs)
    && Recorded(c.log, loads)
    && Boxed(c.log, Used(c.env, allocs))
  }

  /** `e'` is what is left of `e` later on. */
  ghost predicate Later(e: Env, e': Env, loads: seq<Access>, allocs: seq<Id>) {
    Leftover(e', loads, allocs) && Used(e, allocs) <= Used(e', allocs)
  }

  lemma LeftoverAfterLoad(e: Env, x: Addr, loads: seq<Access>, allocs: seq<Id>)
    requires Leftover(e, loads, allocs)
    ensures match Load(e, x)
            case Pending => true
            case Given(a, e') =>
              && Leftover(e', loads, allocs) && Used(e', allocs) == Used(e, allocs)
              && |e'.loads| < |loads| && loads[|loads| - |e'.loads| - 1] == Access(x, a)
  {
  }

  lemma LeftoverAfterAlloc(e: Env, v: Val, loads: seq<Access>, allocs: seq<Id>)
    requires Leftover(e, loads, allocs) && Distinct(allocs)
    ensures match Alloc(e, v)
            case Pending => true
            case Given(b, e') =>
              Leftover(e', loads, allocs) && Used(e', allocs) == Used(e, allocs) + [b.id] && b.id !in Used(e, allocs)
  {
  }

  /** The test early conflict detection fails on: the load made last, before those of `e`, found
      another value in a variable read before. */
  ghost predicate SeenToChange(log: Log, x: Addr, loads: seq<Access>, e: Env) {
    && x in log && log[x].Read?
    && e.Replay? && |e.loads| < |loads|
    && var r := loads[|loads| - |e.loads| - 1];
       r.x == x && !PtrEq(log[x].orig, r.arc)
  }

  lemma LeftoverAfterFetch(ecd: bool, x: Addr, log: Log, e: Env, loads: seq<Access>, allocs: seq<Id>)
    requires Leftover(e, loads, allocs)
    ensures match Fetch(ecd, x, log, e)
            case Stuck => true
            case Conflict(e') => Later(e, e', loads, allocs) && SeenToChange(log, x, loads, e')
            case Got(a, e') =>
              && Leftover(e', loads, allocs) && Used(e', allocs) == Used(e, allocs)
              && (x in log || Access(x, a) in loads)
  {
    hide Leftover, Load;
    LeftoverAfterLoad(e, x, loads, allocs);
  }

  lemma SoundAfterRead(log: Log, x: Addr, a: Arc, loads: seq<Access>, ids: seq<Id>)
    requires Recorded(log, loads) && Boxed(log, ids)
    requires x in log || Access(x, a) in loads
    ensures Recorded(LogRead(log, x, a), loads) && Boxed(LogRead(log, x, a), ids)
  {
  }

  lemma SoundAfterWrite(log: Log, x: Addr, a: Arc, b: Arc, loads: seq<Access>, ids: seq<Id>)
    requires Recorded(log, loads) && Boxed(log, ids) && b.id !in ids
    ensures Recorded(LogWrite(log, x, b), loads) && Boxed(LogWrite(log, x, b), ids + [b.id])
    ensures x in log || Access(x, a) in loads ==>
              Recorded(LogReadWrite(log, x, a, b), loads) && Boxed(LogReadWrite(log, x, a, b), ids + [b.id])
  {
  }

  ghost predicate SoundCallResult(r: Call, c: Ctx, loads: seq<Access>, allocs: seq<Id>) {
    match r
    case Waiting(_, _, _) => true
    case Raised(x, e) => Later(c.env, e, loads, allocs) && SeenToChange(c.log, x, loads, e)
    case Continue(_, c') => Sound(c', loads, allocs) && Later(c.env, c'.env, loads, allocs)
  }

  lemma SoundRead(ecd: bool, p: Prog, c: Ctx, loads: seq<Access>, allocs: seq<Id>)
    requires Closed(p) && p.ReadVar? && Sound(c, loads, allocs) && Distinct(allocs)
    ensures SoundCallResult(DoCall(ecd, p, c), c, loads, allocs)
  {
    hide Recorded, Boxed, Leftover, Fetch, LogRead;
    LeftoverAfterFetch(ecd, p.x, c.log, c.env, loads, allocs);
    match Fetch(ecd, p.x, c.log, c.env) {
      case Got(a, _) => SoundAfterRead(c.log, p.x, a, loads, Used(c.env, allocs));
      case _ =>
    }
  }

  lemma SoundWrite(ecd: bool, p: Prog, c: Ctx, loads: seq<Access>, allocs: seq<Id>)
    requires Closed(p) && p.WriteVar? && Sound(c, loads, allocs) && Distinct(allocs)
    ensures SoundCallResult(DoCall(ecd, p, c), c, loads, allocs)
  {
    hide Recorded, Boxed, Leftover, Alloc, LogWrite;
    LeftoverAfterAlloc(c.env, p.w, loads, allocs);
    match Alloc(c.env, p.w) {
      case Given(b, _) => SoundAfterWrite(c.log, p.x, b, b, loads, Used(c.env, allocs));
      case _ =>
    }
  }

  lemma SoundModify(ecd: bool, p: Prog, c: Ctx, loads: seq<Access>, allocs: seq<Id>)
    requires Closed(p) && p.ModifyVar? && Sound(c, loads, allocs) && Distinct(allocs)
    ensures SoundCallResult(DoCall(ecd, p, c), c, loads, allocs)
  {
    hide Recorded, Boxed, Leftover, Alloc, Fetch, LogReadWrite;
    LeftoverAfterFetch(ecd, p.x, c.log, c.env, loads, allocs);
    match Fetch(ecd, p.x, c.log, c.env) {
      case Got(a, e) =>
        LeftoverAfterAlloc(e, p.f(a.val), loads, allocs);
        match Alloc(e, p.f(a.val)) {
          case Given(b, _) => SoundAfterWrite(c.log, p.x, a, b, loads, Used(c.env, allocs));
          case _ =>
        }
      case _ =>
    }
  }

  lemma SoundExchange(ecd: bool, p: Prog, c: Ctx, loads: seq<Access>, allocs: seq<Id>)
    requires Closed(p) && p.ExchangeVar? && Sound(c, loads, allocs) && Distinct(allocs)
    ensures SoundCallResult(DoCall(ecd, p, c), c, loads, allocs)
  {
    hide Recorded, Boxed, Leftover, Alloc, Fetch, LogReadWrite;
    LeftoverAfterAlloc(c.env, p.w, loads, allocs);
    match Alloc(c.env, p.w) {
      case Given(b, e) =>
        LeftoverAfterFetch(ecd, p.x, c.log, e, loads, allocs);
        match Fetch(ecd, p.x, c.log, e) {
          case Got(a, _) => SoundAfterWrite(c.log, p.x, a, b, loads, Used(c.env, allocs));
          case _ =>
        }
      case _ =>
    }
  }

  lemma SoundCall(ecd: bool, p: Prog, c: Ctx, loads: seq<Access>, allocs: seq<Id>)
    requires Closed(p) && IsCall(p) && Sound(c, loads, allocs) && Distinct(allocs)
    ensures SoundCallResult(DoCall(ecd, p, c), c, loads, allocs)
  {
    hide SoundCallResult, DoCall, Sound;
    match p
    case ReadVar(_, _) => SoundRead(ecd, p, c, loads, allocs);
    case WriteVar(_, _, _) => SoundWrite(ecd, p, c, loads, allocs);
    case ModifyVar(_, _, _) => SoundModify(ecd, p, c, loads, allocs);
    case ExchangeVar(_, _, _) => SoundExchange(ecd, p, c, loads, allocs);
  }

  /** A log stays sound when only answers are used up. */
  lemma SoundStays(c: Ctx, e: Env, loads: seq<Access>, allocs: seq<Id>)
    requires Sound(c, loads, allocs)
    requires Later(c.env, e, loads, allocs)
    ensures forall picks :: Sound(Ctx(c.log, e, picks), loads, allocs)
  {
  }

  lemma SoundMerge(c1: Ctx, c2: Ctx, loads: seq<Access>, allocs: seq<Id>)
    requires Sound(c1, loads, allocs) && Sound(c2, loads, allocs)
    ensures Sound(MergedCtx(c1, c2), loads, allocs)
  {
  }

  /** After any run: recorded values were loaded, pending writes were allocated, one each, and
      a `Failure` raised by the library names a variable that was seen to change. */
  lemma {:induction false} SoundRun(ecd: bool, p: Prog, c: Ctx, loads: seq<Access>, allocs: seq<Id>)
    requires Closed(p) && Sound(c, loads, allocs) && Distinct(allocs)
    ensures var r := Exec(ecd, p, c);
            r.Done? ==>
              && Sound(r.ctx, loads, allocs) && Later(c.env, r.ctx.env, loads, allocs)
              && (r.out.Failed? && r.out.at.Some? ==> SeenToChange(r.ctx.log, r.out.at.value, loads, r.ctx.env))
    decreases p
  {
    hide DoCall, Combine, Recorded, Boxed, SeenToChange;
    if IsCall(p) {
      SoundCall(ecd, p, c, loads, allocs);
      match DoCall(ecd, p, c) {
        case Continue(p', c') => SoundRun(ecd, p', c', loads, allocs);
        case Raised(_, e) => SoundStays(c, e, loads, allocs);
        case _ =>
      }
    } else if p.OrElse? {
      SoundRun(ecd, p.first, FirstCtx(c), loads, allocs);
      match Exec(ecd, p.first, FirstCtx(c)) {
        case Done(Ok(v), c1) => SoundRun(ecd, p.k[v], c1, loads, allocs);
        case Done(Retried, c1) =>
          SoundStays(c, c1.env, loads, allocs);
          SoundRun(ecd, p.second, SecondCtx(c, c1), loads, allocs);
          match Exec(ecd, p.second, SecondCtx(c, c1)) {
            case Done(Ok(v), c2) =>
              SoundMerge(c1, c2, loads, allocs);
              SoundRun(ecd, p.k[v], MergedCtx(c1, c2), loads, allocs);
            case Done(Retried, c2) => SoundMerge(c1, c2, loads, allocs);
            case _ =>
          }
        case _ =>
      }
    }
  }
}
