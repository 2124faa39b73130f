/** When taking given branches of `or` is the same as preferring the first branch. */
module Branches {
  import opened Values
  import opened Programs

  /** The choice at position `i`, as `RunPath` reads it. */
  predicate Pick(picks: seq<bool>, i: nat) {
    i < |picks| && picks[i]
  }

  /** The choices `RunDirect` makes. */
  function DirectPicks(p: Prog, m: Vals): seq<bool>
    requires Closed(p)
    decreases p
  {
    if IsCall(p) then
      DirectPicks(CallDirect(p, m).p, CallDirect(p, m).m)
    else
      match p
      case Return(_) => []
      case Retry => []
      case Fail => []
      case OrElse(first, second, k) =>
        match RunDirect(first, m)
        case Finished(v, m1) => [true] + DirectPicks(first, m) + DirectPicks(k[v], m1)
        case Refused => [true] + DirectPicks(first, m)
        case Blocked =>
          match RunDirect(second, m)
          case Finished(v, m2) => [false] + DirectPicks(second, m) + DirectPicks(k[v], m2)
          case _ => [false] + DirectPicks(second, m)
  }

  lemma CallPath(p: Prog, m: Vals, picks: seq<bool>, i: nat)
    requires Closed(p) && IsCall(p)
    ensures RunPath(p, m, picks, i) == RunPath(CallDirect(p, m).p, CallDirect(p, m).m, picks, i)
  {
  }

  /** Along the path, every first branch passed over blocks on the store it would have met. */
  ghost predicate SkipsOnlyBlocked(p: Prog, m: Vals, picks: seq<bool>, i: nat)
    requires Closed(p)
    decreases p
  {
    if IsCall(p) then
      SkipsOnlyBlocked(CallDirect(p, m).p, CallDirect(p, m).m, picks, i)
    else
      match p
      case Return(_) => true
      case Retry => true
      case Fail => true
      case OrElse(first, second, k) =>
        var branch := if Pick(picks, i) then first else second;
        && (Pick(picks, i) || RunDirect(first, m).Blocked?)
        && SkipsOnlyBlocked(branch, m, picks, i + 1)
        && match RunPath(branch, m, picks, i + 1)
           case Path(Finished(v, m'), j) => SkipsOnlyBlocked(k[v], m', picks, j)
           case _ => true
  }

  /** From `i` on, `picks` begins with `choices`. */
  ghost predicate Follows(picks: seq<bool>, i: nat, choices: seq<bool>) {
    forall k :: 0 <= k < |choices| ==> Pick(picks, i + k) == choices[k]
  }

  lemma FollowsParts(picks: seq<bool>, i: nat, a: seq<bool>, b: seq<bool>)
    ensures Follows(picks, i, a + b) <==> Follows(picks, i, a) && Follows(picks, i + |a|, b)
  {
    if Follows(picks, i, a + b) {
      assert forall k :: 0 <= k < |a| ==> (a + b)[k] == a[k];
      forall k | 0 <= k < |b| ensures Pick(picks, i + |a| + k) == b[k] {
        assert (a + b)[|a| + k] == b[k];
      }
    }
    if Follows(picks, i, a) && Follows(picks, i + |a|, b) {
      forall k | 0 <= k < |a + b| ensures Pick(picks, i + k) == (a + b)[k] {
        if k >= |a| {
          assert Pick(picks, i + |a| + (k - |a|)) == b[k - |a|];
        }
      }
    }
  }

  lemma FollowsOne(picks: seq<bool>, i: nat, choice: bool)
    ensures Follows(picks, i, [choice]) <==> Pick(picks, i) == choice
  {
    if Follows(picks, i, [choice]) {
      assert Pick(picks, i + 0) == [choice][0];
    }
  }

  /** Making the choices of the direct run is the direct run, and passes over blocked branches only. */
  lemma {:induction false} FollowingIsDirect(p: Prog, m: Vals, picks: seq<bool>, i: nat)
    requires Closed(p) && Follows(picks, i, DirectPicks(p, m))
    ensures RunPath(p, m, picks, i) == Path(RunDirect(p, m), i + |DirectPicks(p, m)|)
    ensures SkipsOnlyBlocked(p, m, picks, i)
    decreases p, 1
  {
    hide Follows, CallDirect;
    if IsCall(p) {
      FollowingIsDirect(CallDirect(p, m).p, CallDirect(p, m).m, picks, i);
    } else if p.OrElse? {
      FollowingInOr(p, m, picks, i);
    }
  }

  /** The branch of an `or` that the direct run goes by, and its choices after that branch. */
  function DirectBranch(p: Prog, m: Vals): (b: Prog)
    requires Closed(p) && p.OrElse?
    ensures b < p && Closed(b)
  {
    if RunDirect(p.first, m).Blocked? then p.second else p.first
  }

  function PicksAfter(p: Prog, m: Vals): seq<bool>
    requires Closed(p) && p.OrElse?
  {
    match RunDirect(DirectBranch(p, m), m)
    case Finished(v, m1) => DirectPicks(p.k[v], m1)
    case _ => []
  }

  lemma DirectOr(p: Prog, m: Vals)
    requires Closed(p) && p.OrElse?
    ensures RunDirect(p, m) == match RunDirect(DirectBranch(p, m), m)
                               case Finished(v, m1) => RunDirect(p.k[v], m1)
                               case Blocked => Blocked
                               case Refused => Refused
    ensures DirectPicks(p, m) ==
            [!RunDirect(p.first, m).Blocked?] + DirectPicks(DirectBranch(p, m), m) + PicksAfter(p, m)
  {
  }

  lemma FollowsThree(picks: seq<bool>, i: nat, choice: bool, inner: seq<bool>, rest: seq<bool>)
    requires Follows(picks, i, [choice] + inner + rest)
    ensures Pick(picks, i) == choice && Follows(picks, i + 1, inner) && Follows(picks, i + 1 + |inner|, rest)
  {
    hide Follows, Pick;
    FollowsParts(picks, i, [choice] + inner, rest);
    FollowsParts(picks, i, [choice], inner);
    FollowsOne(picks, i, choice);
  }

  lemma FollowsOr(p: Prog, m: Vals, picks: seq<bool>, i: nat)
    requires Closed(p) && p.OrElse? && Follows(picks, i, DirectPicks(p, m))
    ensures Pick(picks, i) <==> !RunDirect(p.first, m).Blocked?
    ensures Follows(picks, i + 1, DirectPicks(DirectBranch(p, m), m))
    ensures Follows(picks, i + 1 + |DirectPicks(DirectBranch(p, m), m)|, PicksAfter(p, m))
  {
    hide Follows, RunDirect, DirectPicks, PicksAfter, Pick, CallDirect;
    DirectOr(p, m);
    FollowsThree(picks, i, !RunDirect(p.first, m).Blocked?, DirectPicks(DirectBranch(p, m), m), PicksAfter(p, m));
  }

  /** An `or` that goes by the direct run's branch, given how that branch and the rest come out. */
  lemma PathByBranch(p: Prog, m: Vals, picks: seq<bool>, i: nat, r: Direct, j: nat)
    requires Closed(p) && p.OrElse? && (Pick(picks, i) <==> !RunDirect(p.first, m).Blocked?)
    requires RunPath(DirectBranch(p, m), m, picks, i + 1) == Path(r, j)
    requires SkipsOnlyBlocked(DirectBranch(p, m), m, picks, i + 1)
    requires r.Finished? ==> SkipsOnlyBlocked(p.k[r.v], r.m, picks, j)
    ensures RunPath(p, m, picks, i) == if r.Finished? then RunPath(p.k[r.v], r.m, picks, j) else Path(r, j)
    ensures SkipsOnlyBlocked(p, m, picks, i)
  {
    hide RunDirect, CallDirect;
  }

  lemma {:induction false} FollowingInOr(p: Prog, m: Vals, picks: seq<bool>, i: nat)
    requires Closed(p) && p.OrElse? && Follows(picks, i, DirectPicks(p, m))
    ensures RunPath(p, m, picks, i) == Path(RunDirect(p, m), i + |DirectPicks(p, m)|)
    ensures SkipsOnlyBlocked(p, m, picks, i)
    decreases p, 0
  {
    hide Follows, CallDirect, RunDirect, DirectPicks, RunPath, SkipsOnlyBlocked, PicksAfter, DirectBranch;
    var taken := DirectBranch(p, m);
    var r, inner, rest := RunDirect(taken, m), DirectPicks(taken, m), PicksAfter(p, m);
    DirectOr(p, m);
    FollowsOr(p, m, picks, i);
    FollowingIsDirect(taken, m, picks, i + 1);
    RestPicks(p, m);
    if r.Finished? {
      FollowingIsDirect(p.k[r.v], r.m, picks, i + 1 + |inner|);
    }
    assert |DirectPicks(p, m)| == 1 + |inner| + |rest|;
    PathByBranch(p, m, picks, i, r, i + 1 + |inner|);
  }

  lemma RestPicks(p: Prog, m: Vals)
    requires Closed(p) && p.OrElse?
    ensures var r := RunDirect(DirectBranch(p, m), m);
            PicksAfter(p, m) == if r.Finished? then DirectPicks(p.k[r.v], r.m) else []
  {
    hide RunDirect, DirectPicks, DirectBranch;
  }

  /** And the other way round, if the path ends well: passing over blocked branches only is making the
      choices of the direct run. */
  lemma {:induction false} SkippingIsDirect(p: Prog, m: Vals, picks: seq<bool>, i: nat)
    requires Closed(p) && SkipsOnlyBlocked(p, m, picks, i) && RunPath(p, m, picks, i).res.Finished?
    ensures Follows(picks, i, DirectPicks(p, m)) && RunDirect(p, m).Finished?
    decreases p
  {
    hide Follows, CallDirect;
    if IsCall(p) {
      SkippingIsDirect(CallDirect(p, m).p, CallDirect(p, m).m, picks, i);
    } else if p.OrElse? {
      var taken := if Pick(picks, i) then p.first else p.second;
      var Path(Finished(v, m1), j) := RunPath(taken, m, picks, i + 1);
      SkippingIsDirect(taken, m, picks, i + 1);
      FollowingIsDirect(taken, m, picks, i + 1);
      SkippingIsDirect(p.k[v], m1, picks, j);
      var one, inner, rest := [Pick(picks, i)], DirectPicks(taken, m), DirectPicks(p.k[v], m1);
      FollowsOne(picks, i, one[0]);
      FollowsParts(picks, i, one, inner);
      FollowsParts(picks, i, one + inner, rest);
    } else {
      NothingToFollow(picks, i);
    }
  }

  lemma NothingToFollow(picks: seq<bool>, i: nat)
    ensures Follows(picks, i, [])
  {
  }

  /** A path that ends well makes the choices of the direct run if and only if every first branch it
      passed over blocks; and then it is the direct run. */
  lemma DirectChoices(p: Prog, m: Vals, picks: seq<bool>, i: nat)
    requires Closed(p) && RunPath(p, m, picks, i).res.Finished?
    ensures SkipsOnlyBlocked(p, m, picks, i) <==> Follows(picks, i, DirectPicks(p, m))
    ensures SkipsOnlyBlocked(p, m, picks, i) ==>
              RunPath(p, m, picks, i) == Path(RunDirect(p, m), i + |DirectPicks(p, m)|)
  {
    hide *;
    if SkipsOnlyBlocked(p, m, picks, i) {
      SkippingIsDirect(p, m, picks, i);
    }
    if Follows(picks, i, DirectPicks(p, m)) {
      FollowingIsDirect(p, m, picks, i);
    }
  }

  /** Without `or` there is only one path to take. */
  lemma {:induction false} OrFreePath(p: Prog, m: Vals, picks: seq<bool>, i: nat)
    requires Closed(p) && OrFree(p)
    ensures RunPath(p, m, picks, i).res == RunDirect(p, m)
    decreases p
  {
    if IsCall(p) {
      var r := CallDirect(p, m);
      assert OrFree(r.p);
      OrFreePath(r.p, r.m, picks, i);
    }
  }
}
