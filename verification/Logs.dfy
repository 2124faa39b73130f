/** The five-state log entry and the transaction log (`log_var.rs`). */
module Logs {
  import opened Values

  datatype LogVar =
    | Read(orig: Arc)
    | Write(pend: Arc)
    | ReadWrite(orig: Arc, pend: Arc)
    | ReadObsolete(orig: Arc)
    | ReadObsoleteWrite(orig: Arc, pend: Arc)
  {
    /** The value `LogVar::read` returns: the own write if there is one. */
    function Value(): Arc {
      match this
      case Read(v) => v
      case Write(w) => w
      case ReadWrite(_, w) => w
      case ReadObsolete(v) => v
      case ReadObsoleteWrite(_, w) => w
    }

    /** The entry `LogVar::read` leaves behind: obsolete entries become real reads again. */
    function AfterRead(): LogVar {
      match this
      case ReadObsolete(v) => Read(v)
      case ReadObsoleteWrite(v, w) => ReadWrite(v, w)
      case _ => this
    }

    /** The entry `LogVar::write` leaves behind. */
    function AfterWrite(w: Arc): LogVar {
      match this
      case Write(_) => Write(w)
      case ReadObsolete(r) => ReadObsoleteWrite(r, w)
      case ReadObsoleteWrite(r, _) => ReadObsoleteWrite(r, w)
      case Read(r) => ReadWrite(r, w)
      case ReadWrite(r, _) => ReadWrite(r, w)
    }

    function IntoReadValue(): Option<Arc> {
      if Write? then None else Some(orig)
    }

    function Obsolete(): Option<LogVar> {
      match IntoReadValue()
      case None => None
      case Some(v) => Some(ReadObsolete(v))
    }

    /** The entry records a value found in the variable, so a blocked transaction waits on it. */
    predicate HasOrig() {
      !Write?
    }

    /** The entry carries a value to write back. */
    predicate HasPend() {
      Write? || ReadWrite? || ReadObsoleteWrite?
    }

    /** `commit` compares the recorded value of this entry with the variable. */
    predicate Validated() {
      Read? || ReadWrite?
    }

    /** The allocations the entry keeps alive. */
    function Parts(): set<Arc> {
      (if HasOrig() then {orig} else {}) + (if HasPend() then {pend} else {})
    }
  }

  type Log = map<Addr, LogVar>

  function Arcs(log: Log): set<Arc> {
    set x, a | x in log && a in log[x].Parts() :: a
  }

  /** What a transaction blocked on `log` waits for: each variable with the value it saw. */
  function Waits(log: Log): map<Addr, Arc> {
    map x | x in log && log[x].HasOrig() :: log[x].orig
  }

  /** What committing `log` writes back. */
  function Writes(log: Log): map<Addr, Arc> {
    map x | x in log && log[x].HasPend() :: log[x].pend
  }

  /** The entries `commit` compares with the variables. */
  function Reads(log: Log): map<Addr, Arc> {
    map x | x in log && log[x].Validated() :: log[x].orig
  }

  /** `Transaction::combine`: keep every entry of `log`, add the obsolete reads of `other`. */
  function Combine(log: Log, other: Log): Log {
    map x | x in log.Keys + other.Keys && (x in log || other[x].Obsolete().Some?) ::
      if x in log then log[x] else other[x].Obsolete().value
  }

  /** The payloads a transaction with this log sees: its own writes over the variables. */
  ghost function View(log: Log, m: Vals): (v: Vals)
    ensures forall x: Addr :: v[x] == if x in log && log[x].HasPend() then log[x].pend.val else m[x]
  {
    imap x: Addr :: if x in log && log[x].HasPend() then log[x].pend.val else m[x]
  }

  /** The store after all writes of `log` at once. */
  ghost function AllInstalled(log: Log, st: Store): (r: Store)
    ensures forall x: Addr :: r[x] == if x in log && log[x].HasPend() then log[x].pend else st[x]
  {
    imap x: Addr :: if x in log && log[x].HasPend() then log[x].pend else st[x]
  }

  /** `commit`'s consistency test on one entry. */
  predicate Admits(e: LogVar, current: Arc) {
    e.Validated() ==> PtrEq(current, e.orig)
  }

  /** `later` can be what the entry `earlier` became: the recorded value is the same or still
      absent, a validated entry stays validated, a write stays a write. */
  predicate EntryExtends(earlier: LogVar, later: LogVar) {
    && (earlier.HasOrig() <==> later.HasOrig())
    && (earlier.HasOrig() ==> later.orig == earlier.orig)
    && (earlier.Validated() ==> later.Validated())
    && (earlier.HasPend() ==> later.HasPend())
  }

  /** `later` can be what the log `earlier` became; in particular no entry is lost. */
  ghost predicate Extends(earlier: Log, later: Log) {
    forall x :: x in earlier ==> x in later && EntryExtends(earlier[x], later[x])
  }

  /** `combine` adds nothing to commit: the same writes and the same validated reads. */
  lemma CombineCommitsTheSame(log: Log, other: Log)
    ensures Writes(Combine(log, other)) == Writes(log)
    ensures Reads(Combine(log, other)) == Reads(log)
  {
  }

  lemma CombineWaitsFor(log: Log, other: Log, x: Addr)
    ensures x in Waits(Combine(log, other)) <==> x in Waits(log) || (x in Waits(other) && x !in log)
    ensures x in Waits(log) ==> Waits(Combine(log, other))[x] == Waits(log)[x]
    ensures x in Waits(other) && x !in log ==> Waits(Combine(log, other))[x] == Waits(other)[x]
  {
  }

  /** `combine` only adds variables to wait for, those of `other` that `log` does not mention. */
  lemma CombineMergesWaits(log: Log, other: Log)
    ensures Waits(Combine(log, other)) == (Waits(other) - log.Keys) + Waits(log)
  {
    var waits := (Waits(other) - log.Keys) + Waits(log);
    forall x ensures x in Waits(Combine(log, other)) <==> x in waits
             ensures x in waits ==> Waits(Combine(log, other))[x] == waits[x]
    {
      CombineWaitsFor(log, other, x);
    }
  }

  lemma CombineExtends(log: Log, other: Log)
    ensures Extends(log, Combine(log, other))
  {
  }

  lemma CombineKeepsAlive(log: Log, other: Log)
    ensures Arcs(Combine(log, other)) <= Arcs(log) + Arcs(other)
  {
    var both := Combine(log, other);
    forall a | a in Arcs(both) ensures a in Arcs(log) + Arcs(other) {
      var x :| x in both && a in both[x].Parts();
      if x in log {
        assert a in log[x].Parts();
      } else {
        assert a in other[x].Parts();
      }
    }
  }
}
