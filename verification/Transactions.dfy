/** The `Transaction` object: a log that the operations update in place (`transaction/mod.rs`). */
module Transactions {
  import opened Values
  import opened Logs
  import opened Programs
  import opened LogLaws
  import Combinators
  import opened ControlBlocks

  datatype Result<+T> = Value(value: T) | Failure

  /** A store that holds `initial`, and anything elsewhere. */
  ghost function Filled(initial: map<Addr, Arc>): (st: Store)
    ensures forall x :: x in initial ==> st[x] == initial[x]
  {
    imap x: Addr :: if x in initial then initial[x] else Arc(Id(x, x), Nothing)
  }

  /** The closure only uses these variables. */
  ghost predicate Within(p: Prog, dom: set<Addr>)
    requires Closed(p)
    decreases p
  {
    match p
    case Return(_) => true
    case Retry => true
    case Fail => true
    case ReadVar(x, k) => x in dom && forall v :: Within(k[v], dom)
    case WriteVar(x, _, next) => x in dom && Within(next, dom)
    case ModifyVar(x, _, next) => x in dom && Within(next, dom)
    case ExchangeVar(x, _, k) => x in dom && forall v :: Within(k[v], dom)
    case OrElse(first, second, k) => Within(first, dom) && Within(second, dom) && forall v :: Within(k[v], dom)
  }

  /** A call adds no entry but for its own variable, and goes on within the same ones. */
  lemma CallWithin(ecd: bool, p: Prog, c: Ctx, dom: set<Addr>)
    requires Closed(p) && IsCall(p) && Within(p, dom)
    ensures p.x in dom
    ensures var r := DoCall(ecd, p, c);
            r.Continue? ==> Closed(r.p) && Within(r.p, dom) && r.c.log.Keys <= c.log.Keys + {p.x}
  {
    hide Fetch, Alloc;
  }

  /** Memory as one thread sees it while nobody else runs: the variables, and an allocator. */
  class Memory {
    const blocks: map<Addr, VarControlBlock>
    var next: nat

    /** A variable for each initial value, as `TVar::new` makes them. */
    constructor (initial: map<Addr, Arc>)
      ensures blocks.Keys == initial.Keys && Holds(Filled(initial))
      ensures forall x :: x in blocks ==> fresh(blocks[x]) && blocks[x].waiting == [] && blocks[x].dead == 0
    {
      var table: map<Addr, VarControlBlock> := map[];
      var todo := initial.Keys;
      while todo != {}
        invariant todo <= initial.Keys && table.Keys == initial.Keys - todo
        invariant forall x :: x in table ==>
                    && fresh(table[x]) && table[x].waiting == [] && table[x].dead == 0
                    && table[x].address == x && table[x].value == initial[x]
        decreases todo
      {
        var x :| x in todo;
        var block := new VarControlBlock(x, initial[x]);
        table := table[x := block];
        todo := todo - {x};
      }
      blocks := table;
      next := 0;
    }

    /** The variables hold `st`. */
    ghost predicate Holds(st: Store)
      reads (set x | x in blocks :: blocks[x])`value
    {
      forall x :: x in blocks ==> blocks[x].address == x && blocks[x].value == st[x]
    }

    /** Who waits for what, and who waits at all. */
    ghost function Lists(): map<Addr, seq<ControlBlock>>
      reads (set x | x in blocks :: blocks[x])`waiting
    {
      map x | x in blocks :: blocks[x].waiting
    }

    ghost function Waiters(): set<ControlBlock>
      reads (set x | x in blocks :: blocks[x])`waiting
    {
      set x, cb | x in blocks && cb in blocks[x].waiting :: cb
    }

    /** `Arc::new`. */
    method Box(v: Val) returns (boxed: Arc)
      modifies this`next
      ensures boxed == Arc(Id(old(next), old(next)), v) && next == old(next) + 1
    {
      boxed := Arc(Id(next, next), v);
      next := next + 1;
    }
  }

  /** What can be seen of a waiter: whether it is to go on sleeping, and how often it was unparked. */
  datatype Flag = Flag(blocked: bool, unparks: nat)

  ghost function FlagsOf(waiters: set<ControlBlock>): map<ControlBlock, Flag>
    reads waiters
  {
    map cb | cb in waiters :: Flag(cb.blocked, cb.unparks)
  }

  /** With these lists, the waiter waits for a variable that `log` writes. */
  ghost predicate Listed(lists: map<Addr, seq<ControlBlock>>, log: Log, cb: ControlBlock) {
    exists x :: x in Writes(log) && x in lists && cb in lists[x]
  }

  /** The lists after a commit: those of the written variables are empty, the others as before. */
  ghost function Emptied(lists: map<Addr, seq<ControlBlock>>, log: Log): map<Addr, seq<ControlBlock>> {
    map x | x in lists :: if x in Writes(log) then [] else lists[x]
  }

  /** The flags after a commit: live waiters of written variables have theirs cleared, and were
      unparked once if it was set; nobody else notices. */
  ghost function Woken(flags: map<ControlBlock, Flag>, lists: map<Addr, seq<ControlBlock>>, log: Log,
      alive: set<ControlBlock>): map<ControlBlock, Flag>
  {
    map cb | cb in flags ::
      if cb in alive && Listed(lists, log, cb) && flags[cb].blocked then Flag(false, flags[cb].unparks + 1)
      else flags[cb]
  }

  /** A list, with `ctrl` at the end if it has entered. */
  function Joined(list: seq<ControlBlock>, ctrl: ControlBlock, entered: bool): seq<ControlBlock> {
    if entered then list + [ctrl] else list
  }

  /** One load from memory is all a call makes. */
  lemma FetchHere(ecd: bool, x: Addr, log: Log, st: Store, next: nat)
    ensures match Fetch(ecd, x, log, Replay([Access(x, st[x])], []))
            case Got(a, _) => Fetch(ecd, x, log, Live(st, next)) == Got(a, Live(st, next))
            case _ => Fetch(ecd, x, log, Live(st, next)) == Conflict(Live(st, next))
  {
  }

  /** What each call does to a log while nobody else runs, with the one load it makes. */
  ghost function Here(ecd: bool, x: Addr, c: Ctx): Fetched
    requires c.env.Live?
  {
    Fetch(ecd, x, c.log, Replay([Access(x, c.env.store[x])], []))
  }

  lemma ReadHere(ecd: bool, p: Prog, c: Ctx)
    requires Closed(p) && p.ReadVar? && c.env.Live?
    ensures DoCall(ecd, p, c) ==
            match Here(ecd, p.x, c)
            case Got(a, _) => Continue(p.k[a.val], c.(log := LogRead(c.log, p.x, a)))
            case _ => Raised(p.x, c.env)
  {
    FetchHere(ecd, p.x, c.log, c.env.store, c.env.next);
    hide Fetch;
  }

  lemma WriteHere(ecd: bool, p: Prog, c: Ctx)
    requires Closed(p) && p.WriteVar? && c.env.Live?
    ensures var n := c.env.next;
            DoCall(ecd, p, c) == Continue(p.next, c.(log := LogWrite(c.log, p.x, Arc(Id(n, n), p.w)),
                env := Live(c.env.store, n + 1)))
  {
    hide LogWrite;
  }

  lemma ModifyHere(ecd: bool, p: Prog, c: Ctx)
    requires Closed(p) && p.ModifyVar? && c.env.Live?
    ensures var n := c.env.next;
            DoCall(ecd, p, c) ==
            match Here(ecd, p.x, c)
            case Got(a, _) => Continue(p.next, c.(log := LogWrite(LogRead(c.log, p.x, a), p.x, Arc(Id(n, n),
                p.f(a.val))),
                                                  env := Live(c.env.store, n + 1)))
            case _ => Raised(p.x, c.env)
  {
    FetchHere(ecd, p.x, c.log, c.env.store, c.env.next);
    forall a, b ensures LogReadWrite(c.log, p.x, a, b) == LogWrite(LogRead(c.log, p.x, a), p.x, b) {
      Combinators.FusedEntry(c.log, p.x, a, b);
    }
    hide Fetch, LogRead, LogWrite, LogReadWrite;
  }

  lemma ExchangeHere(ecd: bool, p: Prog, c: Ctx)
    requires Closed(p) && p.ExchangeVar? && c.env.Live?
    ensures var n := c.env.next;
            DoCall(ecd, p, c) ==
            match Here(ecd, p.x, c)
            case Got(a, _) => Continue(p.k[a.val], c.(log := LogWrite(LogRead(c.log, p.x, a), p.x, Arc(Id(n, n), p.w)),
                                                      env := Live(c.env.store, n + 1)))
            case _ => Raised(p.x, Live(c.env.store, n + 1))
  {
    FetchHere(ecd, p.x, c.log, c.env.store, c.env.next + 1);
    forall a, b ensures LogReadWrite(c.log, p.x, a, b) == LogWrite(LogRead(c.log, p.x, a), p.x, b) {
      Combinators.FusedEntry(c.log, p.x, a, b);
    }
    hide Fetch, LogRead, LogWrite, LogReadWrite;
  }

  /** How `or` ends when it starts from `c`. */
  ghost predicate OrEnds(ecd: bool, first: Prog, second: Prog, c: Ctx, out: Outcome, c': Ctx)
    requires Closed(first) && Closed(second)
  {
    match Exec(ecd, first, FirstCtx(c))
    case Ask(_, _, _) => false
    case Done(Retried, c1) => (
      match Exec(ecd, second, SecondCtx(c, c1))
      case Ask(_, _, _) => false
      case Done(Failed(at), c2) => out == Failed(at) && c' == c2
      case Done(o, c2) => out == o && c' == MergedCtx(c1, c2)
    )
    case Done(o, c1) => out == o && c' == c1
  }

  lemma FirstEnds(ecd: bool, first: Prog, second: Prog, c: Ctx, out: Outcome, c1: Ctx)
    requires Closed(first) && Closed(second) && !out.Retried?
    requires Exec(ecd, first, FirstCtx(c)) == Programs.Done(out, c1)
    ensures OrEnds(ecd, first, second, c, out, c1)
  {
  }

  lemma SecondEnds(ecd: bool, first: Prog, second: Prog, c: Ctx, c1: Ctx, out: Outcome, c2: Ctx)
    requires Closed(first) && Closed(second)
    requires Exec(ecd, first, FirstCtx(c)) == Programs.Done(Retried, c1)
    requires Exec(ecd, second, SecondCtx(c, c1)) == Programs.Done(out, c2)
    ensures OrEnds(ecd, first, second, c, out, if out.Failed? then c2 else MergedCtx(c1, c2))
  {
    hide Combine;
  }

  class Transaction {
    const ecd: bool
    var vars: Log
    /** Which branches were taken; nothing reads it. */
    ghost var picks: seq<bool>

    constructor (ecd: bool)
      ensures vars == map[] && picks == [] && this.ecd == ecd
    {
      this.ecd := ecd;
      vars := map[];
      picks := [];
    }

    ghost function Context(st: Store, mem: Memory): Ctx
      reads this, mem
    {
      Ctx(vars, Live(st, mem.next), picks)
    }

    method Read(block: VarControlBlock) returns (r: Result<Val>)
      modifies this`vars
      ensures r == Failure <==>
                && ecd && block.address in old(vars) && old(vars)[block.address].Read?
                && !PtrEq(old(vars)[block.address].orig, block.value)
      ensures match Fetch(ecd, block.address, old(vars), Replay([Access(block.address, block.value)], []))
              case Got(a, _) => r == Value(a.val) && vars == LogRead(old(vars), block.address, a)
              case _ => r == Failure && vars == old(vars)
    {
      var x := block.address;
      if x in vars {
        var log := vars[x];
        if ecd && log.Read? {
          var current := block.value;
          if !PtrEq(log.orig, current) {
            return Failure;
          }
        }
        vars := vars[x := log.AfterRead()];
        r := Value(log.Value().val);
      } else {
        var value := block.value;
        vars := vars[x := LogVar.Read(value)];
        r := Value(value.val);
      }
    }

    method Write(block: VarControlBlock, value: Val, mem: Memory)
      modifies this`vars, mem`next
      ensures mem.next == old(mem.next) + 1
      ensures vars == LogWrite(old(vars), block.address, Arc(Id(old(mem.next), old(mem.next)), value))
    {
      var boxed := mem.Box(value);
      var x := block.address;
      if x in vars {
        vars := vars[x := vars[x].AfterWrite(boxed)];
      } else {
        vars := vars[x := LogVar.Write(boxed)];
      }
    }

    /** A `read`, then a `write` of what `f` makes of the value. */
    method Modify(block: VarControlBlock, f: Val -> Val, mem: Memory) returns (r: Result<()>)
      modifies this`vars, mem`next
      ensures r == Failure <==>
                && ecd && block.address in old(vars) && old(vars)[block.address].Read?
                && !PtrEq(old(vars)[block.address].orig, block.value)
      ensures match Fetch(ecd, block.address, old(vars), Replay([Access(block.address, block.value)], []))
              case Got(a, _) =>
                && r == Value(()) && mem.next == old(mem.next) + 1
                && vars == LogWrite(LogRead(old(vars), block.address, a), block.address,
                                    Arc(Id(old(mem.next), old(mem.next)), f(a.val)))
              case _ => r == Failure && vars == old(vars) && mem.next == old(mem.next)
    {
      var x := block.address;
      if x in vars {
        var log := vars[x];
        if ecd && log.Read? {
          var current := block.value;
          if !PtrEq(log.orig, current) {
            return Failure;
          }
        }
        var boxed := mem.Box(f(log.Value().val));
        vars := vars[x := log.AfterRead().AfterWrite(boxed)];
      } else {
        var value := block.value;
        var boxed := mem.Box(f(value.val));
        vars := vars[x := LogVar.ReadWrite(value, boxed)];
      }
      r := Value(());
    }

    /** A `read`, then a `write`; the new value is boxed even if the read fails. */
    method Exchange(block: VarControlBlock, value: Val, mem: Memory) returns (r: Result<Val>)
      modifies this`vars, mem`next
      ensures r == Failure <==>
                && ecd && block.address in old(vars) && old(vars)[block.address].Read?
                && !PtrEq(old(vars)[block.address].orig, block.value)
      ensures mem.next == old(mem.next) + 1
      ensures match Fetch(ecd, block.address, old(vars), Replay([Access(block.address, block.value)], []))
              case Got(a, _) =>
                && r == Value(a.val)
                && vars == LogWrite(LogRead(old(vars), block.address, a), block.address,
                                    Arc(Id(old(mem.next), old(mem.next)), value))
              case _ => r == Failure && vars == old(vars)
    {
      var boxed := mem.Box(value);
      var x := block.address;
      if x in vars {
        var log := vars[x];
        if ecd && log.Read? {
          var current := block.value;
          if !PtrEq(log.orig, current) {
            return Failure;
          }
        }
        r := Value(log.Value().val);
        vars := vars[x := log.AfterRead().AfterWrite(boxed)];
      } else {
        r := Value(block.value.val);
        vars := vars[x := LogVar.ReadWrite(block.value, boxed)];
      }
    }

    /** Add the reads of the other log where this one has no entry. */
    method CombineWith(other: Log)
      modifies this`vars
      ensures vars == Combine(old(vars), other)
      ensures vars.Keys <= old(vars).Keys + other.Keys
    {
      var todo := other.Keys;
      while todo != {}
        invariant todo <= other.Keys
        invariant forall x :: x in vars <==> x in old(vars) || (x in other && x !in todo && other[x].Obsolete().Some?)
        invariant forall x :: x in vars ==>
            vars[x] == if x in old(vars) then old(vars)[x] else other[x].Obsolete().value
        decreases todo
      {
        var x :| x in todo;
        match other[x].Obsolete() {
          case Some(value) =>
            if x !in vars {
              vars := vars[x := value];
            }
          case None =>
        }
        todo := todo - {x};
      }
    }

    method Clear()
      modifies this`vars, this`picks
      ensures vars == map[] && picks == []
    {
      vars := map[];
      picks := [];
    }

    /** One call of a closure into the transaction, and what the closure goes on as. */
    method Call(p: Prog, mem: Memory, ghost st: Store) returns (r: Result<Prog>)
      requires mem.Holds(st) && Closed(p) && IsCall(p) && Within(p, mem.blocks.Keys)
      modifies this`vars, mem`next
      ensures old(vars).Keys <= mem.blocks.Keys ==> vars.Keys <= mem.blocks.Keys
      ensures r.Value? ==> Closed(r.value) && Within(r.value, mem.blocks.Keys)
      ensures match DoCall(ecd, p, old(Context(st, mem)))
              case Waiting(_, _, _) => false
              case Raised(x, e) => x == p.x && r == Failure && Context(st, mem) == old(Context(st, mem)).(env := e)
              case Continue(p', c) => r == Value(p') && Context(st, mem) == c
    {
      CallWithin(ecd, p, Context(st, mem), mem.blocks.Keys);
      hide DoCall, Fetch, LogRead, LogWrite, Within, Closed;
      match p
      case ReadVar(x, k) =>
        ReadHere(ecd, p, Context(st, mem));
        var v := this.Read(mem.blocks[x]);
        r := if v.Failure? then Failure else Value(k[v.value]);
      case WriteVar(x, w, next) =>
        WriteHere(ecd, p, Context(st, mem));
        this.Write(mem.blocks[x], w, mem);
        r := Value(next);
      case ModifyVar(x, f, next) =>
        ModifyHere(ecd, p, Context(st, mem));
        var v := Modify(mem.blocks[x], f, mem);
        r := if v.Failure? then Failure else Value(next);
      case ExchangeVar(x, w, k) =>
        ExchangeHere(ecd, p, Context(st, mem));
        var v := Exchange(mem.blocks[x], w, mem);
        r := if v.Failure? then Failure else Value(k[v.value]);
    }

    /** Combine two computations: if the first retries, run the second from a backup of the log, and
        then add what the first one read. */
    method Or(first: Prog, second: Prog, mem: Memory, ghost st: Store, ghost whole: Prog) returns (out: Outcome)
      requires mem.Holds(st) && Closed(first) && Closed(second)
      requires Within(first, mem.blocks.Keys) && Within(second, mem.blocks.Keys) && vars.Keys <= mem.blocks.Keys
      requires first < whole && second < whole
      modifies this`vars, this`picks, mem`next
      ensures vars.Keys <= mem.blocks.Keys
      ensures OrEnds(ecd, first, second, old(Context(st, mem)), out, Context(st, mem))
      decreases whole, 0
    {
      hide Exec, Combine, OrEnds;
      ghost var c := Context(st, mem);
      var copy := vars;
      picks := picks + [true];
      assert Context(st, mem) == FirstCtx(c);
      out := Run(first, mem, st);
      ghost var c1 := Context(st, mem);
      if out.Retried? {
        vars, copy := copy, vars;
        picks := c.picks + [false];
        assert Context(st, mem) == SecondCtx(c, c1);
        out := Run(second, mem, st);
        ghost var c2 := Context(st, mem);
        SecondEnds(ecd, first, second, c, c1, out, c2);
        if !out.Failed? {
          CombineWith(copy);
          assert Context(st, mem) == MergedCtx(c1, c2);
        }
      } else {
        FirstEnds(ecd, first, second, c, out, c1);
      }
    }

    /** Run a closure. What it does to the log, and how it ends, is what `Exec` says. */
    method Run(p: Prog, mem: Memory, ghost st: Store) returns (out: Outcome)
      requires mem.Holds(st) && Closed(p) && Within(p, mem.blocks.Keys) && vars.Keys <= mem.blocks.Keys
      modifies this`vars, this`picks, mem`next
      ensures vars.Keys <= mem.blocks.Keys
      ensures Exec(ecd, p, old(Context(st, mem))) == Programs.Done(out, Context(st, mem))
      decreases p, 1
    {
      hide DoCall, Combine, Context;
      if IsCall(p) {
        var r := Call(p, mem, st);
        match r {
          case Failure => out := Failed(Some(p.x));
          case Value(next) => out := Run(next, mem, st);
        }
      } else {
        match p
        case Return(v) => out := Ok(v);
        case Retry => out := Retried;
        case Fail => out := Failed(None);
        case OrElse(first, second, k) =>
          out := Or(first, second, mem, st, p);
          if out.Ok? {
            out := Run(k[out.v], mem, st);
          }
      }
    }

    /** The write set of this log in the form the loops of `commit` use: the variables, each once,
        and the value for each. */
    ghost predicate Collected(mem: Memory, todo: set<Addr>, written: seq<VarControlBlock>, values: seq<Arc>)
      reads this
    {
      && |written| == |values|
      && (forall i :: 0 <= i < |written| ==>
            && var x := written[i].address;
               x in Writes(vars) && x !in todo && x in mem.blocks && mem.blocks[x] == written[i]
                   && values[i] == Writes(vars)[x])
      && (forall i, j :: 0 <= i < j < |written| ==> written[i] != written[j])
      && (forall x :: x in Writes(vars) && x !in todo && x in mem.blocks ==> mem.blocks[x] in written)
    }

    lemma CollectNext(mem: Memory, todo: set<Addr>, written: seq<VarControlBlock>, values: seq<Arc>, x: Addr)
      requires Collected(mem, todo, written, values) && x in todo && x in mem.blocks && mem.blocks[x].address == x
      ensures x in Writes(vars) ==>
                Collected(mem, todo - {x}, written + [mem.blocks[x]], values + [Writes(vars)[x]])
      ensures x !in Writes(vars) ==> Collected(mem, todo - {x}, written, values)
    {
      hide Writes;
    }

    /** The real reads not in `todo` still hold. */
    ghost predicate Valid(st: Store, todo: set<Addr>)
      reads this
    {
      forall x :: x in vars && x !in todo && (vars[x].Read? || vars[x].ReadWrite?) ==> PtrEq(st[x], vars[x].orig)
    }

    lemma ValidNext(st: Store, todo: set<Addr>, x: Addr)
      requires x in vars && x in todo
      ensures var e := vars[x];
              Valid(st, todo - {x}) <==> Valid(st, todo) && (e.Read? || e.ReadWrite? ==> PtrEq(st[x], e.orig))
    {
    }

    lemma ValidMeans(st: Store, todo: set<Addr>)
      ensures !Valid(st, todo) ==> !Valid(st, {})
      ensures Valid(st, {}) <==> forall x :: x in vars && (vars[x].Read? || vars[x].ReadWrite?) ==>
                                   PtrEq(st[x], vars[x].orig)
    {
    }

    /** In address order, and below all of `todo`. */
    static predicate InOrder(written: seq<VarControlBlock>, todo: set<Addr>) {
      && (forall i, j :: 0 <= i < j < |written| ==> written[i].address < written[j].address)
      && forall i, x :: 0 <= i < |written| && x in todo ==> written[i].address < x
    }

    static lemma OrderNext(written: seq<VarControlBlock>, todo: set<Addr>, block: VarControlBlock)
      requires InOrder(written, todo) && block.address in todo && forall y :: y in todo ==> block.address <= y
      ensures InOrder(written, todo - {block.address}) && InOrder(written + [block], todo - {block.address})
    {
    }

    lemma WriteOf(x: Addr)
      requires x in vars
      ensures x in Writes(vars) <==> vars[x].Write? || vars[x].ReadWrite? || vars[x].ReadObsoleteWrite?
      ensures x in Writes(vars) ==> Writes(vars)[x] == vars[x].pend
    {
    }

    /** First phase of `commit`: visit the records in address order, lock them, and stop at the first
        one whose variable has changed. Only real reads are compared: a variable written without a
        read, or only read in branches that retried, may have changed. */
    method LockAndValidate(mem: Memory, ghost st: Store)
      returns (ok: bool, written: seq<VarControlBlock>, values: seq<Arc>)
      requires mem.Holds(st) && vars.Keys <= mem.blocks.Keys
      ensures ok <==> forall x :: x in vars && (vars[x].Read? || vars[x].ReadWrite?) ==> PtrEq(st[x], vars[x].orig)
      ensures ok ==> Collected(mem, {}, written, values) && InOrder(written, {})
    {
      var records := vars.Keys;
      written, values := [], [];
      assert Collected(mem, records, [], []) && Valid(st, records) && InOrder([], records);
      hide Collected, Valid, InOrder, Writes, Memory.Holds;
      while records != {}
        invariant records <= vars.Keys
        invariant Valid(st, records) && Collected(mem, records, written, values) && InOrder(written, records)
        decreases records
      {
        ghost var least := LeastExists(records);
        var x: Addr :| x in records && forall y :: y in records ==> x <= y;
        HeldAt(mem, st, x);
        CollectNext(mem, records, written, values, x);
        ValidNext(st, records, x);
        ValidMeans(st, records - {x});
        WriteOf(x);
        var block := mem.blocks[x];
        OrderNext(written, records, block);
        match vars[x] {
          case Write(w) =>
            written, values := written + [block], values + [w];
          case ReadObsoleteWrite(_, w) =>
            written, values := written + [block], values + [w];
          case ReadWrite(original, w) =>
            if !PtrEq(block.value, original) {
              return false, [], [];
            }
            written, values := written + [block], values + [w];
          case ReadObsolete(_) =>
          case Read(original) =>
            if !PtrEq(block.value, original) {
              return false, [], [];
            }
        }
        records := records - {x};
      }
      ValidMeans(st, {});
      ok := true;
    }

    lemma WrittenExactly(mem: Memory, written: seq<VarControlBlock>, values: seq<Arc>, st: Store)
      requires mem.Holds(st) && Collected(mem, {}, written, values)
      ensures forall x :: x in mem.blocks ==> (mem.blocks[x] in written <==> x in Writes(vars))
      ensures forall b :: b in written ==>
                b.address in Writes(vars) && b.address in mem.blocks && mem.blocks[b.address] == b
      ensures forall i, j :: 0 <= i < j < |written| ==> written[i] != written[j]
      ensures forall j :: 0 <= j < |written| ==> j < |values| && values[j] == Writes(vars)[written[j].address]
    {
      hide Writes;
    }

    /** The loop that writes back, one variable after the other. */
    static method StoreAll(written: seq<VarControlBlock>, values: seq<Arc>)
      requires |written| == |values| && forall i, j :: 0 <= i < j < |written| ==> written[i] != written[j]
      modifies (set b | b in written)`value
      ensures forall j :: 0 <= j < |written| ==> written[j].value == values[j]
    {
      var i := 0;
      while i < |written|
        invariant 0 <= i <= |written|
        invariant forall j :: 0 <= j < i ==> written[j].value == values[j]
      {
        written[i].value := values[i];
        i := i + 1;
      }
    }

    /** Second phase: every written variable gets its value, and no other one changes. */
    method WriteBack(mem: Memory, written: seq<VarControlBlock>, values: seq<Arc>, ghost st: Store)
      requires mem.Holds(st) && Collected(mem, {}, written, values)
      modifies (set b | b in written)`value
      ensures mem.Holds(AllInstalled(vars, st))
    {
      WrittenExactly(mem, written, values, st);
      InstalledAt(vars, st);
      hide Writes, AllInstalled;
      StoreAll(written, values);
      forall x | x in mem.blocks ensures mem.blocks[x].value == AllInstalled(vars, st)[x] {
        if mem.blocks[x] in written {
          var j :| 0 <= j < |written| && written[j] == mem.blocks[x];
        }
      }
    }

    /** Wake whoever waits for a written variable: each live waiter is signalled and unparked once,
        however many lists it is in. */
    static method WakeWritten(written: seq<VarControlBlock>, alive: set<ControlBlock>)
      requires forall i, j :: 0 <= i < j < |written| ==> written[i] != written[j]
      modifies (set b | b in written)`waiting, WaitersOf(written)
      ensures forall b :: b in written ==> b.waiting == []
      ensures forall cb :: cb in old(WaitersOf(written)) ==>
                && cb.blocked == (old(cb.blocked) && cb !in alive)
                && cb.unparks == old(cb.unparks) + if old(cb.blocked) && cb in alive then 1 else 0
    {
      ghost var signalled: set<ControlBlock> := {};
      var i := 0;
      while i < |written|
        invariant 0 <= i <= |written|
        invariant forall j :: 0 <= j < i ==> written[j].waiting == []
        invariant forall j :: i <= j < |written| ==> written[j].waiting == old(written[j].waiting)
        invariant forall j, cb :: 0 <= j < i && cb in old(written[j].waiting) ==> cb in signalled
        invariant forall j, cb :: 0 <= j < |written| && cb in old(written[j].waiting) ==>
                    && cb.blocked == (old(cb.blocked) && !(cb in alive && cb in signalled))
                    && cb.unparks == old(cb.unparks) + if old(cb.blocked) && cb in alive && cb in signalled then 1 else 0
      {
        signalled := signalled + set cb | cb in written[i].waiting;
        written[i].WakeAll(alive);
        i := i + 1;
      }
    }

    static ghost function WaitersOf(written: seq<VarControlBlock>): set<ControlBlock>
      reads (set b | b in written)`waiting
    {
      set b, cb | b in written && cb in b.waiting :: cb
    }

    lemma WrittenLists(mem: Memory, written: seq<VarControlBlock>)
      requires forall x :: x in mem.blocks ==> (mem.blocks[x] in written <==> x in Writes(vars))
      requires forall b :: b in written ==> b.address in mem.blocks && mem.blocks[b.address] == b
      ensures forall cb :: Listed(mem.Lists(), vars, cb) <==> cb in WaitersOf(written)
    {
      hide Writes;
      forall cb: ControlBlock ensures Listed(mem.Lists(), vars, cb) <==> cb in WaitersOf(written) {
        if cb in WaitersOf(written) {
          var b :| b in written && cb in b.waiting;
          assert mem.Lists()[b.address] == b.waiting;
        }
      }
    }

    /** What `WakeWritten` says of one waiter. */
    static lemma WokenAt(flags: map<ControlBlock, Flag>, lists: map<Addr, seq<ControlBlock>>, log: Log,
        alive: set<ControlBlock>, signalled: set<ControlBlock>, flags': map<ControlBlock, Flag>)
      requires flags'.Keys == flags.Keys && forall cb :: cb in flags ==> (Listed(lists, log, cb) <==> cb in signalled)
      requires forall cb :: cb in flags && cb !in signalled ==> flags'[cb] == flags[cb]
      requires forall cb :: cb in flags && cb in signalled ==>
                 && flags'[cb].blocked == (flags[cb].blocked && cb !in alive)
                 && flags'[cb].unparks == flags[cb].unparks + if flags[cb].blocked && cb in alive then 1 else 0
      ensures flags' == Woken(flags, lists, log, alive)
    {
      hide Listed;
    }

    /** The wake phase, as seen by every waiter. */
    method WakeAndTell(mem: Memory, written: seq<VarControlBlock>, alive: set<ControlBlock>)
      requires forall i, j :: 0 <= i < j < |written| ==> written[i] != written[j]
      requires forall x :: x in mem.blocks ==> (mem.blocks[x] in written <==> x in Writes(vars))
      requires forall cb :: Listed(mem.Lists(), vars, cb) <==> cb in WaitersOf(written)
      modifies (set b | b in written)`waiting, WaitersOf(written)
      ensures mem.Lists() == Emptied(old(mem.Lists()), vars)
      ensures FlagsOf(old(mem.Waiters())) == Woken(old(FlagsOf(mem.Waiters())), old(mem.Lists()), vars, alive)
    {
      ghost var lists, waiters, signalled := mem.Lists(), mem.Waiters(), WaitersOf(written);
      ghost var flags := FlagsOf(waiters);
      assert forall cb :: cb in flags ==> (Listed(lists, vars, cb) <==> cb in signalled);
      hide Writes, Listed;
      WakeWritten(written, alive);
      assert mem.Lists() == Emptied(lists, vars);
      hide Woken, Memory.Lists, Emptied;
      WokenAt(flags, lists, vars, alive, signalled, FlagsOf(waiters));
    }

    /** Second and last phase: write back, then wake. */
    method WriteAndWake(mem: Memory, written: seq<VarControlBlock>, values: seq<Arc>, alive: set<ControlBlock>,
                        ghost st: Store)
      requires mem.Holds(st) && Collected(mem, {}, written, values)
      modifies (set b | b in written)`value, (set b | b in written)`waiting, WaitersOf(written)
      ensures mem.Holds(AllInstalled(vars, st))
      ensures mem.Lists() == Emptied(old(mem.Lists()), vars)
      ensures FlagsOf(old(mem.Waiters())) == Woken(old(FlagsOf(mem.Waiters())), old(mem.Lists()), vars, alive)
    {
      WrittenExactly(mem, written, values, st);
      WrittenLists(mem, written);
      hide Collected, Writes, AllInstalled, Listed;
      WriteBack(mem, written, values, st);
      hide Memory.Holds, Woken;
      WakeAndTell(mem, written, alive);
    }

    /** Write the log back if every value read is still there. Then every variable holds what the log
        says, all at once as far as anybody can tell who respects the locks, and every live waiter
        of a written variable is signalled, and unparked if it was not signalled before. Nothing but
        the written variables and their waiters changes, and if a value is gone not even those. */
    method Commit(mem: Memory, alive: set<ControlBlock>, ghost st: Store) returns (ok: bool)
      requires mem.Holds(st) && vars.Keys <= mem.blocks.Keys
      modifies (set x | x in Writes(vars) && x in mem.blocks :: mem.blocks[x])`value,
               (set x | x in Writes(vars) && x in mem.blocks :: mem.blocks[x])`waiting,
               set x, cb | x in Writes(vars) && x in mem.blocks && cb in mem.blocks[x].waiting :: cb
      ensures ok <==> forall x :: x in vars && (vars[x].Read? || vars[x].ReadWrite?) ==> PtrEq(st[x], vars[x].orig)
      ensures mem.Holds(if ok then AllInstalled(vars, st) else st)
      ensures mem.Lists() == if ok then Emptied(old(mem.Lists()), vars) else old(mem.Lists())
      ensures FlagsOf(old(mem.Waiters())) ==
                if ok then Woken(old(FlagsOf(mem.Waiters())), old(mem.Lists()), vars, alive)
                else old(FlagsOf(mem.Waiters()))
    {
      var written, values;
      ok, written, values := LockAndValidate(mem, st);
      if ok {
        WrittenExactly(mem, written, values, st);
        assert Writes(vars).Keys <= mem.blocks.Keys;
        hide Collected, Writes, AllInstalled, Memory.Lists, Memory.Waiters, FlagsOf, Woken, Emptied, Memory.Holds;
        WriteAndWake(mem, written, values, alive, st);
      }
    }

    /** `wait_for_change` up to the point where it would sleep: take the log, and enter the list of
        each variable whose value was recorded before comparing it, until one has changed.
        `entered` are the variables whose list it is in. */
    method Register(ctrl: ControlBlock, mem: Memory, ghost st: Store)
      returns (blocking: bool, entered: seq<VarControlBlock>)
      requires mem.Holds(st) && vars.Keys <= mem.blocks.Keys
      modifies this`vars, (set x | x in vars && x in mem.blocks :: mem.blocks[x])`waiting
      ensures vars == map[]
      ensures blocking <==> forall x :: x in Waits(old(vars)) ==> PtrEq(Waits(old(vars))[x], st[x])
      ensures forall i, j :: 0 <= i < j < |entered| ==> entered[i] != entered[j]
      ensures forall b :: b in entered ==>
                b.address in Waits(old(vars)) && b.address in mem.blocks && mem.blocks[b.address] == b
      ensures forall x :: x in mem.blocks ==>
                mem.blocks[x].waiting == Joined(old(mem.blocks[x].waiting), ctrl, mem.blocks[x] in entered)
      ensures blocking ==> forall x :: x in Waits(old(vars)) ==> mem.blocks[x] in entered
      ensures StopsAtChange(Waits(old(vars)), st, entered, blocking)
    {
      var waits := Waits(vars);
      assert waits.Keys <= vars.Keys;
      hide Waits;
      vars := map[];
      ghost var left;
      blocking, entered, left := EnterLists(waits, ctrl, mem, st);
      AllEntered(mem, waits, left, entered);
      AllCompared(waits, st, left);
    }

    /** The loop of `wait_for_change`; `left` are the variables it did not get to. */
    static method EnterLists(waits: map<Addr, Arc>, ctrl: ControlBlock, mem: Memory, ghost st: Store)
      returns (blocking: bool, entered: seq<VarControlBlock>, ghost left: set<Addr>)
      requires mem.Holds(st) && waits.Keys <= mem.blocks.Keys
      modifies (set x | x in waits && x in mem.blocks :: mem.blocks[x])`waiting
      ensures Entering(mem, waits, left, entered) && blocking == Unchanged(waits, st, left) && (blocking ==> left == {})
      ensures StopsAtChange(waits, st, entered, blocking)
      ensures forall x :: x in mem.blocks ==>
                mem.blocks[x].waiting == Joined(old(mem.blocks[x].waiting), ctrl, mem.blocks[x] in entered)
    {
      var todo := waits.Keys;
      blocking, entered, left := true, [], todo;
      assert Entering(mem, waits, todo, []) && Unchanged(waits, st, todo);
      assert forall x :: x in mem.blocks ==> mem.blocks[x].address == x by { HeldEverywhere(mem, st); }
      NoneEntered(waits, st);
      hide Entering, Memory.Holds, Unchanged, StopsAtChange;
      while blocking && todo != {}
        invariant todo == left && todo <= waits.Keys && Entering(mem, waits, todo, entered) && mem.Holds(st)
        invariant forall x :: x in mem.blocks ==>
                    mem.blocks[x].waiting == Joined(old(mem.blocks[x].waiting), ctrl, mem.blocks[x] in entered)
        invariant blocking == Unchanged(waits, st, todo) && StopsAtChange(waits, st, entered, blocking)
        decreases todo, blocking
      {
        var x :| x in todo;
        EnterNext(mem, waits, todo, entered, x);
        CompareNext(waits, st, todo, x);
        HeldAt(mem, st, x);
        var block := mem.blocks[x];
        block.Wait(ctrl);
        StopNext(waits, st, entered, block);
        blocking := PtrEq(waits[x], block.value);
        entered := entered + [block];
        todo := todo - {x};
        left := todo;
      }
    }

    /** The first variable found changed is the last one entered: none before it had changed, and none
        was entered after it. */
    static ghost predicate StopsAtChange(waits: map<Addr, Arc>, st: Store, entered: seq<VarControlBlock>,
        blocking: bool) {
      && (forall b :: b in entered ==> b.address in waits)
      && (!blocking ==> entered != [])
      && forall i :: 0 <= i < |entered| ==>
           (PtrEq(waits[entered[i].address], st[entered[i].address]) <==> blocking || i < |entered| - 1)
    }

    static lemma NoneEntered(waits: map<Addr, Arc>, st: Store)
      ensures StopsAtChange(waits, st, [], true)
    {
    }

    static lemma StopNext(waits: map<Addr, Arc>, st: Store, entered: seq<VarControlBlock>, block: VarControlBlock)
      requires StopsAtChange(waits, st, entered, true) && block.address in waits
      ensures StopsAtChange(waits, st, entered + [block], PtrEq(waits[block.address], st[block.address]))
    {
    }

    /** Of the variables to wait for, those not in `todo` have been entered, each once. */
    static ghost predicate Entering(mem: Memory, waits: map<Addr, Arc>, todo: set<Addr>,
        entered: seq<VarControlBlock>) {
      && (forall i, j :: 0 <= i < j < |entered| ==> entered[i] != entered[j])
      && (forall b :: b in entered ==>
            b.address in waits && b.address !in todo && b.address in mem.blocks && mem.blocks[b.address] == b)
      && (forall x :: x in waits && x !in todo && x in mem.blocks ==> mem.blocks[x] in entered)
    }

    static lemma EnterNext(mem: Memory, waits: map<Addr, Arc>, todo: set<Addr>, entered: seq<VarControlBlock>, x: Addr)
      requires Entering(mem, waits, todo, entered) && x in todo && x in waits && x in mem.blocks
          && mem.blocks[x].address == x
      ensures mem.blocks[x] !in entered
      ensures Entering(mem, waits, todo - {x}, entered + [mem.blocks[x]])
    {
    }

    static lemma AllEntered(mem: Memory, waits: map<Addr, Arc>, todo: set<Addr>, entered: seq<VarControlBlock>)
      requires Entering(mem, waits, todo, entered) && waits.Keys <= mem.blocks.Keys
      ensures forall i, j :: 0 <= i < j < |entered| ==> entered[i] != entered[j]
      ensures forall b :: b in entered ==> b.address in waits && b.address in mem.blocks && mem.blocks[b.address] == b
      ensures todo == {} ==> forall x :: x in waits ==> mem.blocks[x] in entered
    {
    }

    /** The end of `wait_for_change`: count the waiter as dead in every list it entered. */
    method MarkDead(entered: seq<VarControlBlock>, alive: set<ControlBlock>)
      requires forall i, j :: 0 <= i < j < |entered| ==> entered[i] != entered[j]
      modifies (set b | b in entered)`waiting, (set b | b in entered)`dead
      ensures forall b :: b in entered ==>
                if old(b.dead) >= 64 then b.dead == 0 && b.waiting == Keep(old(b.waiting), alive)
                else b.dead == old(b.dead) + 1 && b.waiting == old(b.waiting)
    {
      var i := 0;
      while i < |entered|
        invariant 0 <= i <= |entered|
        invariant forall j :: 0 <= j < i ==>
                    if old(entered[j].dead) >= 64 then entered[j].dead == 0
                        && entered[j].waiting == Keep(old(entered[j].waiting), alive)
                    else entered[j].dead == old(entered[j].dead) + 1 && entered[j].waiting == old(entered[j].waiting)
        invariant forall j :: i <= j < |entered| ==>
                    entered[j].dead == old(entered[j].dead) && entered[j].waiting == old(entered[j].waiting)
      {
        entered[i].SetDead(alive);
        i := i + 1;
      }
    }

    /** The first half of a round: the closure, on an empty log. */
    method RunAfresh(p: Prog, mem: Memory, ghost st: Store) returns (out: Outcome)
      requires mem.Holds(st) && Closed(p) && Within(p, mem.blocks.Keys)
      modifies this`vars, this`picks, mem`next
      ensures vars.Keys <= mem.blocks.Keys
      ensures forall x :: x in vars && (vars[x].Read? || vars[x].ReadWrite?) ==> PtrEq(st[x], vars[x].orig)
      ensures match RunDirect(p, Payloads(st))
              case Finished(v, m) => out == Ok(v) && Payloads(AllInstalled(vars, st)) == m
              case Blocked => out == Retried
              case Refused => out == Failed(None)
    {
      hide Exec, RunDirect, AllInstalled, Payloads, Within;
      Clear();
      ghost var c := Context(st, mem);
      out := Run(p, mem, st);
      RunMeans(ecd, p, st, c, out, Context(st, mem));
    }

    /** Nobody who waits takes notice of it. */
    method RunUnnoticed(p: Prog, mem: Memory, ghost st: Store) returns (out: Outcome)
      requires mem.Holds(st) && Closed(p) && Within(p, mem.blocks.Keys)
      modifies this`vars, this`picks, mem`next
      ensures vars.Keys <= mem.blocks.Keys
      ensures forall x :: x in vars && (vars[x].Read? || vars[x].ReadWrite?) ==> PtrEq(st[x], vars[x].orig)
      ensures match RunDirect(p, Payloads(st))
              case Finished(v, m) => out == Ok(v) && Payloads(AllInstalled(vars, st)) == m
              case Blocked => out == Retried
              case Refused => out == Failed(None)
      ensures mem.Lists() == old(mem.Lists()) && mem.Waiters() == old(mem.Waiters())
      ensures FlagsOf(mem.Waiters()) == old(FlagsOf(mem.Waiters()))
    {
      hide RunDirect, AllInstalled, Payloads, Within, Closed, Memory.Holds;
      out := RunAfresh(p, mem, st);
    }

    /** One round of the driver loop while nobody else runs: run the closure on an empty log and
        commit if it succeeds. The commit never fails, and all in all the closure has been executed
        directly on the store, with `or` rolling back and preferring its first branch; a closure
        that blocks or fails leaves the store alone. Who waits for a written variable is signalled,
        and nobody else. */
    method Attempt(p: Prog, mem: Memory, alive: set<ControlBlock>, ghost st: Store)
      returns (out: Outcome, committed: bool)
      requires mem.Holds(st) && Closed(p) && Within(p, mem.blocks.Keys)
      modifies this`vars, this`picks, mem`next,
               (set x | x in mem.blocks :: mem.blocks[x])`value,
               (set x | x in mem.blocks :: mem.blocks[x])`waiting,
               set x, cb | x in mem.blocks && cb in mem.blocks[x].waiting :: cb
      ensures match RunDirect(p, Payloads(st))
              case Finished(v, m) =>
                out == Ok(v) && committed && mem.Holds(AllInstalled(vars, st)) && Payloads(AllInstalled(vars, st)) == m
              case Blocked => out == Retried && !committed && mem.Holds(st)
              case Refused => out == Failed(None) && !committed && mem.Holds(st)
      ensures vars.Keys <= mem.blocks.Keys
      ensures mem.Lists() == if committed then Emptied(old(mem.Lists()), vars) else old(mem.Lists())
      ensures FlagsOf(old(mem.Waiters())) ==
                if committed then Woken(old(FlagsOf(mem.Waiters())), old(mem.Lists()), vars, alive)
                else old(FlagsOf(mem.Waiters()))
    {
      hide RunDirect, AllInstalled, Writes, Payloads, Woken, Emptied, Within, Memory.Lists, FlagsOf, Memory.Holds;
      out := RunUnnoticed(p, mem, st);
      committed := false;
      if out.Ok? {
        committed := Commit(mem, alive, st);
      }
    }
  }

  function OneMore(x: Addr): Prog {
    ModifyVar(x, (v: Val) => if v.Num? then Num(v.n + 1) else v, Return(Nothing))
  }

  lemma OneMoreDirect(x: Addr, n: int, m: Vals)
    requires m[x] == Num(n)
    ensures Closed(OneMore(x)) && Within(OneMore(x), {x})
    ensures RunDirect(OneMore(x), m) == Finished(Nothing, m[x := Num(n + 1)])
  {
    assert Closed(OneMore(x).next) && Within(OneMore(x).next, {x});
    assert CallDirect(OneMore(x), m) == Moved(Return(Nothing), m[x := Num(n + 1)]);
  }

  lemma PayloadsAt(st: Store, x: Addr)
    ensures Payloads(st)[x] == st[x].val
  {
  }

  /** A memory made from one value, one transaction, one increment. */
  method IncrementOnce(ecd: bool, n: int) returns (mem: Memory)
    ensures mem.blocks.Keys == {0} && mem.blocks[0].value.val == Num(n + 1)
  {
    var initial := map[0 := Arc(Id(1, -1), Num(n))];
    ghost var st := Filled(initial);
    PayloadsAt(st, 0);
    hide OneMore, RunDirect, Closed, Within, AllInstalled, Payloads, Filled;
    OneMoreDirect(0, n, Payloads(st));
    mem := new Memory(initial);
    var tx := new Transaction(ecd);
    assert mem.blocks.Keys == {0};
    var out, committed := tx.Attempt(OneMore(0), mem, {}, st);
    PayloadsAt(AllInstalled(tx.vars, st), 0);
  }

  /** A run from an empty log does what the body does directly, and leaves a log that will commit. */
  lemma RunMeans(ecd: bool, p: Prog, st: Store, c: Ctx, out: Outcome, c': Ctx)
    requires Closed(p) && c.log == map[] && c.env.Live? && c.env.store == st
    requires Exec(ecd, p, c) == Programs.Done(out, c')
    ensures RunDirect(p, Payloads(st)) ==
            match out
            case Ok(v) => Finished(v, Payloads(AllInstalled(c'.log, st)))
            case Retried => Blocked
            case Failed(_) => Refused
    ensures out.Failed? ==> out.at.None?
    ensures forall x :: x in c'.log && (c'.log[x].Read? || c'.log[x].ReadWrite?) ==> PtrEq(st[x], c'.log[x].orig)
  {
    assert Quiet(c.env, st) && Current(c.log, st);
    assert View(c.log, Payloads(st)) == Payloads(st);
    ViewIsInstalled(c'.log, st);
    hide Exec, RunDirect, View, Payloads, AllInstalled, Quiet, Reads;
    LogRunMeansDirectRun(ecd, p, c, st);
    CurrentCommits(c'.log, st);
  }

  lemma ViewIsInstalled(log: Log, st: Store)
    ensures View(log, Payloads(st)) == Payloads(AllInstalled(log, st))
  {
    var seen, held := View(log, Payloads(st)), Payloads(AllInstalled(log, st));
    forall x: Addr ensures seen[x] == held[x] {
    }
  }

  /** Of the variables to wait for, those not in `todo` hold the recorded value. */
  ghost predicate Unchanged(waits: map<Addr, Arc>, st: Store, todo: set<Addr>) {
    forall x :: x in waits && x !in todo ==> PtrEq(waits[x], st[x])
  }

  lemma CompareNext(waits: map<Addr, Arc>, st: Store, todo: set<Addr>, x: Addr)
    requires x in todo && x in waits
    ensures Unchanged(waits, st, todo - {x}) <==> Unchanged(waits, st, todo) && PtrEq(waits[x], st[x])
  {
  }

  lemma AllCompared(waits: map<Addr, Arc>, st: Store, todo: set<Addr>)
    ensures !Unchanged(waits, st, todo) ==> exists x :: x in waits && !PtrEq(waits[x], st[x])
    ensures todo == {} && Unchanged(waits, st, todo) ==> forall x :: x in waits ==> PtrEq(waits[x], st[x])
  {
  }

  lemma HeldAt(mem: Memory, st: Store, x: Addr)
    requires mem.Holds(st) && x in mem.blocks
    ensures mem.blocks[x].address == x && mem.blocks[x].value == st[x]
  {
  }

  lemma HeldEverywhere(mem: Memory, st: Store)
    requires mem.Holds(st)
    ensures forall x :: x in mem.blocks ==> mem.blocks[x].address == x
  {
  }

  lemma InstalledAt(log: Log, st: Store)
    ensures forall x: Addr :: AllInstalled(log, st)[x] == if x in Writes(log) then Writes(log)[x] else st[x]
  {
  }

  lemma CurrentCommits(log: Log, st: Store)
    requires Current(log, st)
    ensures forall x :: x in log && (log[x].Read? || log[x].ReadWrite?) ==> PtrEq(st[x], log[x].orig)
  {
  }
}
