/** Addresses, payloads and the reference-counted values a transactional variable holds. */
module Values {

  datatype Option<+T> = None | Some(value: T)

  /** The address of a `VarControlBlock`: it identifies a variable and orders the log. */
  type Addr = nat

  /** The identity of a thread. */
  type Tid = nat

  /** Payloads: a universe closed under `Option`, so that `optionally` can be written in it. */
  datatype Val = Num(n: int) | Nothing | Just(inner: Val)

  /** One allocation. `ptr` is the machine address, which a later allocation may reuse once this
      one is freed; `serial` is never reused and exists only in the model. */
  datatype Id = Id(ptr: nat, serial: int)

  /** An `Arc<dyn Any>`: which allocation it is, and the immutable payload behind it. */
  datatype Arc = Arc(id: Id, val: Val)

  /** `Arc::ptr_eq`: the implementation can only compare machine addresses. */
  predicate PtrEq(a: Arc, b: Arc) {
    a.id.ptr == b.id.ptr
  }

  /** What every variable holds. */
  type Store = m: imap<Addr, Arc> | forall x: Addr :: x in m
    ghost witness imap x: Addr :: Arc(Id(x, x), Nothing)

  /** The payloads alone. */
  type Vals = m: imap<Addr, Val> | forall x: Addr :: x in m
    ghost witness imap x: Addr :: Nothing

  ghost function Payloads(s: Store): (m: Vals)
    ensures forall x: Addr :: m[x] == s[x].val
  {
    imap x: Addr :: s[x].val
  }

  /** The next variable in address order. */
  predicate Least(x: Addr, xs: set<Addr>) {
    x in xs && forall y :: y in xs ==> x <= y
  }

  lemma LeastExists(xs: set<Addr>) returns (x: Addr)
    requires xs != {}
    ensures Least(x, xs)
    decreases xs
  {
    var z :| z in xs;
    x := z;
    if xs != {z} {
      var y := LeastExists(xs - {z});
      x := if y < z then y else z;
    }
    assert forall v :: v in xs ==> v == z || v in xs - {z};
  }

  /** The elements of `list` that are in `live`, in order: what `retain` leaves. */
  function Keep<T(==)>(list: seq<T>, live: set<T>): seq<T> {
    if list == [] then []
    else (if list[0] in live then [list[0]] else []) + Keep(list[1..], live)
  }

  /** It removes the others and nobody else. */
  lemma {:induction false} KeepCounts<T>(list: seq<T>, live: set<T>, e: T)
    ensures multiset(Keep(list, live))[e] == if e in live then multiset(list)[e] else 0
  {
    if list != [] {
      KeepCounts(list[1..], live, e);
      assert list == [list[0]] + list[1..];
    }
  }

  /** The places of the live elements, from left to right, `from` more than where they are. */
  function Places<T(==)>(list: seq<T>, live: set<T>, from: nat): seq<nat> {
    if list == [] then []
    else (if list[0] in live then [from] else []) + Places(list[1..], live, from + 1)
  }

  /** What `retain` keeps is what is at these places. */
  lemma {:induction false} PlaceOf<T>(list: seq<T>, live: set<T>, from: nat, k: nat)
    requires k < |Places(list, live, from)|
    ensures |Keep(list, live)| == |Places(list, live, from)|
    ensures from <= Places(list, live, from)[k] < from + |list|
    ensures Keep(list, live)[k] == list[Places(list, live, from)[k] - from] && Keep(list, live)[k] in live
  {
    KeepAsMany(list[1..], live, from + 1);
    if list[0] in live {
      assert Keep(list, live) == [list[0]] + Keep(list[1..], live);
      assert Places(list, live, from) == [from] + Places(list[1..], live, from + 1);
      if k > 0 {
        PlaceOf(list[1..], live, from + 1, k - 1);
      }
    } else {
      assert Keep(list, live) == Keep(list[1..], live);
      assert Places(list, live, from) == Places(list[1..], live, from + 1);
      PlaceOf(list[1..], live, from + 1, k);
    }
  }

  lemma {:induction false} KeepAsMany<T>(list: seq<T>, live: set<T>, from: nat)
    ensures |Keep(list, live)| == |Places(list, live, from)|
  {
    if list != [] {
      KeepAsMany(list[1..], live, from + 1);
    }
  }

  lemma {:induction false} PlacesRise<T>(list: seq<T>, live: set<T>, from: nat, j: nat, k: nat)
    requires j < k < |Places(list, live, from)|
    ensures Places(list, live, from)[j] < Places(list, live, from)[k]
  {
    var n := if list[0] in live then 1 else 0;
    PlaceOf(list[1..], live, from + 1, k - n);
    if j >= n {
      PlacesRise(list[1..], live, from + 1, j - n, k - n);
    }
  }

  lemma {:induction false} PlacesAreAll<T>(list: seq<T>, live: set<T>, from: nat, i: nat)
    requires i < |list| && list[i] in live
    ensures from + i in Places(list, live, from)
  {
    if i > 0 {
      PlacesAreAll(list[1..], live, from + 1, i - 1);
    }
  }

  /** It keeps the others in their order: `at` are the places of the live elements, from left to
      right, and what is kept are the elements there. */
  lemma KeepsOrder<T>(list: seq<T>, live: set<T>) returns (at: seq<nat>)
    ensures |at| == |Keep(list, live)|
    ensures forall k :: 0 <= k < |at| ==> at[k] < |list| && Keep(list, live)[k] == list[at[k]]
    ensures forall j, k :: 0 <= j < k < |at| ==> at[j] < at[k]
    ensures forall i :: 0 <= i < |list| ==> (list[i] in live <==> i in at)
  {
    at := Places(list, live, 0);
    hide Places, Keep;
    KeepAsMany(list, live, 0);
    forall k | 0 <= k < |at| ensures at[k] < |list| && Keep(list, live)[k] == list[at[k]] && list[at[k]] in live {
      PlaceOf(list, live, 0, k);
    }
    forall j, k | 0 <= j < k < |at| ensures at[j] < at[k] {
      PlacesRise(list, live, 0, j, k);
    }
    forall i | 0 <= i < |list| && list[i] in live ensures i in at {
      PlacesAreAll(list, live, 0, i);
    }
  }

  lemma KeepMember<T>(list: seq<T>, live: set<T>, e: T)
    ensures e in Keep(list, live) <==> e in list && e in live
  {
    KeepCounts(list, live, e);
    assert e in list <==> multiset(list)[e] > 0;
    assert e in Keep(list, live) <==> multiset(Keep(list, live))[e] > 0;
  }

  ghost predicate NoRepeats<T(!new)>(list: seq<T>) {
    forall i, j :: 0 <= i < j < |list| ==> list[i] != list[j]
  }

  lemma {:induction false} KeepNoRepeats<T(!new)>(list: seq<T>, live: set<T>)
    requires NoRepeats(list)
    ensures NoRepeats(Keep(list, live))
  {
    if list != [] {
      KeepNoRepeats(list[1..], live);
      KeepMember(list[1..], live, list[0]);
      assert list[0] !in list[1..];
    }
  }

  /** Without repetitions it leaves as many as there are live elements. */
  lemma {:induction false} KeepSize<T(!new)>(list: seq<T>, live: set<T>)
    requires NoRepeats(list)
    ensures |Keep(list, live)| == |set e | e in list && e in live|
  {
    if list != [] {
      KeepSize(list[1..], live);
      var rest := set e | e in list[1..] && e in live;
      assert list[0] !in list[1..];
      assert list == [list[0]] + list[1..];
      assert (set e | e in list && e in live) == (if list[0] in live then {list[0]} else {}) + rest;
    }
  }

  /** What is kept and what is not add up. */
  lemma {:induction false} KeepSplit<T>(list: seq<T>, live: set<T>, dead: set<T>)
    requires forall e :: e in list ==> (e in live <==> e !in dead)
    ensures |list| == |Keep(list, live)| + |Keep(list, dead)|
  {
    if list != [] {
      KeepSplit(list[1..], live, dead);
    }
  }
}
