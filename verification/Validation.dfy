/** What a run makes `commit` compare, and when early conflict detection stops it. */
module Validation {
  import opened Values
  import opened Logs
  import opened Programs
  import opened RunFacts

  // ---------------------------------------------------------------- the entry

  /** Reading makes an entry a real read, unless it is a write made without a read; it changes
      neither the value recorded nor the one to write back. */
  lemma ReadMakesReal(e: LogVar)
    ensures var e' := e.AfterRead();
            && ((e'.Read? || e'.ReadWrite?) <==> !e.Write?)
            && (e'.Write? <==> e.Write?)
            && ((e'.Write? || e'.ReadWrite?) <==> (e.Write? || e.ReadWrite? || e.ReadObsoleteWrite?))
            && e'.Value() == e.Value() && (!e.Write? ==> e'.orig == e.orig)
  {
  }

  /** Writing makes nothing a real read that was none. */
  lemma WriteMakesNothingReal(e: LogVar, w: Arc)
    ensures var e' := e.AfterWrite(w);
            && ((e'.Read? || e'.ReadWrite?) <==> (e.Read? || e.ReadWrite?))
            && (e'.Write? <==> e.Write?)
            && !e'.Read? && !e'.ReadObsolete? && e'.pend == w
            && e'.Value() == w && (!e.Write? ==> e'.orig == e.orig)
  {
  }

  // ---------------------------------------------------------------- which variables are compared

  /** The variables with a real read in the log. */
  function RealReads(log: Log): set<Addr> {
    set x | x in log && (log[x].Read? || log[x].ReadWrite?)
  }

  predicate BlindlyWritten(log: Log, x: Addr) {
    x in log && log[x].Write?
  }

  /** The variables a run depends on: those it reads on the path it takes, but for what it wrote
      without reading before. Branches of `or` that retried do not count. */
  function Needs(ecd: bool, p: Prog, c: Ctx): set<Addr>
    requires Closed(p)
    decreases p
  {
    if IsCall(p) then
      match DoCall(ecd, p, c)
      case Continue(p', c') =>
        (if p.WriteVar? || BlindlyWritten(c.log, p.x) then {} else {p.x}) + Needs(ecd, p', c')
      case _ => {}
    else if p.OrElse? then
      match Exec(ecd, p.first, FirstCtx(c))
      case Done(Retried, c1) =>
        Needs(ecd, p.second, SecondCtx(c, c1)) + NeedsAfter(ecd, p, c1, Exec(ecd, p.second, SecondCtx(c, c1)))
      case Done(Ok(v), c1) => Needs(ecd, p.first, FirstCtx(c)) + Needs(ecd, p.k[v], c1)
      case _ => Needs(ecd, p.first, FirstCtx(c))
    else {}
  }

  /** What comes after the second branch of an `or`. */
  function NeedsAfter(ecd: bool, p: Prog, c1: Ctx, r: Run): set<Addr>
    requires Closed(p) && p.OrElse?
    decreases p, 0
  {
    if r.Done? && r.out.Ok? then Needs(ecd, p.k[r.out.v], MergedCtx(c1, r.ctx)) else {}
  }

  lemma CallNeeds(ecd: bool, p: Prog, c: Ctx)
    requires Closed(p) && IsCall(p) && DoCall(ecd, p, c).Continue?
    ensures RealReads(DoCall(ecd, p, c).c.log) ==
            RealReads(c.log) + if p.WriteVar? || BlindlyWritten(c.log, p.x) then {} else {p.x}
  {
    var log, x := c.log, p.x;
    var log' := DoCall(ecd, p, c).c.log;
    assert log' == log[x := log'[x]];
    if x in log {
      ReadMakesReal(log[x]);
      forall e: LogVar, w ensures (e.AfterWrite(w).Read? || e.AfterWrite(w).ReadWrite?) <==> (e.Read? || e.ReadWrite?) {
        WriteMakesNothingReal(e, w);
      }
    }
  }

  /** Merging the log of a branch that retried adds no real read. */
  lemma MergeNeeds(c1: Ctx, c2: Ctx)
    ensures RealReads(MergedCtx(c1, c2).log) == RealReads(c2.log)
  {
  }

  /** Exactly what `commit` has to compare. When a run is over, its log has a real read of a
      variable if and only if it had one at the start or the path taken depends on the variable. */
  lemma {:induction false} ReadsAreNeeded(ecd: bool, p: Prog, c: Ctx)
    requires Closed(p)
    ensures var r := Exec(ecd, p, c);
            r.Done? ==> RealReads(r.ctx.log) == RealReads(c.log) + Needs(ecd, p, c)
    decreases p
  {
    hide DoCall, Combine, RealReads;
    if IsCall(p) {
      if DoCall(ecd, p, c).Continue? {
        CallNeeds(ecd, p, c);
        ReadsAreNeeded(ecd, DoCall(ecd, p, c).p, DoCall(ecd, p, c).c);
      }
    } else if p.OrElse? {
      ReadsAreNeeded(ecd, p.first, FirstCtx(c));
      match Exec(ecd, p.first, FirstCtx(c)) {
        case Done(Retried, c1) => SecondReadsNeeded(ecd, p, c, c1);
        case Done(Ok(v), c1) => ReadsAreNeeded(ecd, p.k[v], c1);
        case _ =>
      }
    }
  }

  lemma {:induction false} SecondReadsNeeded(ecd: bool, p: Prog, c: Ctx, c1: Ctx)
    requires Closed(p) && p.OrElse? && Exec(ecd, p.first, FirstCtx(c)) == Done(Retried, c1)
    ensures var r := Exec(ecd, p, c);
            r.Done? ==> RealReads(r.ctx.log) == RealReads(c.log) + Needs(ecd, p, c)
    decreases p, 0
  {
    hide DoCall, Combine, RealReads;
    var r := Exec(ecd, p.second, SecondCtx(c, c1));
    ReadsAreNeeded(ecd, p.second, SecondCtx(c, c1));
    if r.Done? {
      MergeNeeds(c1, r.ctx);
      if r.out.Ok? {
        ReadsAreNeeded(ecd, p.k[r.out.v], MergedCtx(c1, r.ctx));
      }
    }
  }

  // ---------------------------------------------------------------- early conflict detection

  /** The call reads a variable read before, and memory's next answer is another allocation than the
      one recorded. */
  predicate AtConflict(ecd: bool, p: Prog, c: Ctx) {
    && ecd && (p.ReadVar? || p.ModifyVar? || p.ExchangeVar?)
    && (p.ExchangeVar? ==> Alloc(c.env, p.w).Given?)
    && p.x in c.log && c.log[p.x].Read?
    && Load(c.env, p.x).Given? && !PtrEq(c.log[p.x].orig, Load(c.env, p.x).arc)
  }

  /** Where memory has not answered yet, the call asks for the variable exactly if it is new to the
      log, or it was only read and early conflict detection looks again. */
  lemma AsksAgain(ecd: bool, p: Prog, c: Ctx)
    requires Closed(p) && (p.ReadVar? || p.ModifyVar? || p.ExchangeVar?)
    requires Load(c.env, p.x).Pending? && (p.ExchangeVar? ==> Alloc(c.env, p.w).Given?)
    ensures (DoCall(ecd, p, c).Waiting? && DoCall(ecd, p, c).q == AskLoad(p.x))
       <==> (p.x !in c.log || (ecd && c.log[p.x].Read?))
  {
  }

  lemma CallConflicts(ecd: bool, p: Prog, c: Ctx)
    requires Closed(p) && IsCall(p)
    ensures DoCall(ecd, p, c).Raised? <==> AtConflict(ecd, p, c)
    ensures DoCall(ecd, p, c).Raised? ==> DoCall(ecd, p, c).x == p.x
  {
  }

  /** The run of `p` from `c` gets to the call `q`, with context `d`. */
  ghost predicate Meets(ecd: bool, p: Prog, c: Ctx, q: Prog, d: Ctx)
    requires Closed(p)
    decreases p
  {
    if IsCall(p) then
      || (q == p && d == c)
      || (DoCall(ecd, p, c).Continue? && Meets(ecd, DoCall(ecd, p, c).p, DoCall(ecd, p, c).c, q, d))
    else
      && p.OrElse?
      && (|| Meets(ecd, p.first, FirstCtx(c), q, d)
          || match Exec(ecd, p.first, FirstCtx(c))
             case Done(Ok(v), c1) => Meets(ecd, p.k[v], c1, q, d)
             case Done(Retried, c1) =>
               || Meets(ecd, p.second, SecondCtx(c, c1), q, d)
               || MeetsAfter(ecd, p, c1, Exec(ecd, p.second, SecondCtx(c, c1)), q, d)
             case _ => false)
  }

  ghost predicate MeetsAfter(ecd: bool, p: Prog, c1: Ctx, r: Run, q: Prog, d: Ctx)
    requires Closed(p) && p.OrElse?
    decreases p, 0
  {
    r.Done? && r.out.Ok? && Meets(ecd, p.k[r.out.v], MergedCtx(c1, r.ctx), q, d)
  }

  /** The run was stopped at the call `q`, and its log is as it was there. */
  ghost predicate StoppedAt(r: Run, q: Prog, d: Ctx) {
    IsCall(q) && FailedEarly(r) && r.out.at.value == q.x && r.ctx.log == d.log && r.ctx.picks == d.picks
  }

  lemma {:induction false} ConflictStops(ecd: bool, p: Prog, c: Ctx, q: Prog, d: Ctx)
    requires Closed(p) && Meets(ecd, p, c, q, d) && AtConflict(ecd, q, d)
    ensures StoppedAt(Exec(ecd, p, c), q, d)
    decreases p
  {
    hide DoCall, Combine, AtConflict;
    if IsCall(p) {
      CallConflicts(ecd, p, c);
      if DoCall(ecd, p, c).Continue? && Meets(ecd, DoCall(ecd, p, c).p, DoCall(ecd, p, c).c, q, d) {
        ConflictStops(ecd, DoCall(ecd, p, c).p, DoCall(ecd, p, c).c, q, d);
      }
    } else if Meets(ecd, p.first, FirstCtx(c), q, d) {
      ConflictStops(ecd, p.first, FirstCtx(c), q, d);
    } else {
      match Exec(ecd, p.first, FirstCtx(c)) {
        case Done(Ok(v), c1) => ConflictStops(ecd, p.k[v], c1, q, d);
        case Done(Retried, c1) =>
          var r := Exec(ecd, p.second, SecondCtx(c, c1));
          if Meets(ecd, p.second, SecondCtx(c, c1), q, d) {
            ConflictStops(ecd, p.second, SecondCtx(c, c1), q, d);
          } else {
            ConflictStops(ecd, p.k[r.out.v], MergedCtx(c1, r.ctx), q, d);
          }
        case _ =>
      }
    }
  }

  lemma {:induction false} StopsAtConflict(ecd: bool, p: Prog, c: Ctx) returns (q: Prog, d: Ctx)
    requires Closed(p) && FailedEarly(Exec(ecd, p, c))
    ensures Meets(ecd, p, c, q, d) && AtConflict(ecd, q, d)
    decreases p
  {
    hide DoCall, Combine, AtConflict;
    if IsCall(p) {
      CallConflicts(ecd, p, c);
      if DoCall(ecd, p, c).Continue? {
        q, d := StopsAtConflict(ecd, DoCall(ecd, p, c).p, DoCall(ecd, p, c).c);
      } else {
        q, d := p, c;
      }
    } else if p.OrElse? {
      match Exec(ecd, p.first, FirstCtx(c)) {
        case Done(Ok(v), c1) => q, d := StopsAtConflict(ecd, p.k[v], c1);
        case Done(Retried, c1) =>
          var r := Exec(ecd, p.second, SecondCtx(c, c1));
          if FailedEarly(r) {
            q, d := StopsAtConflict(ecd, p.second, SecondCtx(c, c1));
          } else {
            q, d := StopsAtConflict(ecd, p.k[r.out.v], MergedCtx(c1, r.ctx));
          }
        case Done(Failed(_), c1) => q, d := StopsAtConflict(ecd, p.first, FirstCtx(c));
        case Ask(_, _, _) =>
      }
    }
  }

  /** Early conflict detection stops a run if and only if the run gets to a call that finds a variable
      it has only read changed; it stops there, and leaves the log as it was. */
  lemma StopsExactlyAtConflicts(ecd: bool, p: Prog, c: Ctx)
    requires Closed(p)
    ensures FailedEarly(Exec(ecd, p, c)) <==> exists q, d :: Meets(ecd, p, c, q, d) && AtConflict(ecd, q, d)
    ensures forall q, d :: Meets(ecd, p, c, q, d) && AtConflict(ecd, q, d) ==> StoppedAt(Exec(ecd, p, c), q, d)
  {
    hide Meets, AtConflict, Exec;
    if FailedEarly(Exec(ecd, p, c)) {
      var q, d := StopsAtConflict(ecd, p, c);
    }
    forall q, d | Meets(ecd, p, c, q, d) && AtConflict(ecd, q, d) ensures StoppedAt(Exec(ecd, p, c), q, d) {
      ConflictStops(ecd, p, c, q, d);
    }
  }
}
