/**
 * One health-check pass over the connector list, as values: each connector is
 * tested (and possibly invalidated), and a tested connector that is invalid
 * and has no holders is closed and removed.  The source removes the element
 * at index i and then increments i, so the element that slides into place i
 * is neither tested nor removed in that pass.
 */
module Prune {
  import opened Connectors

  /** What one pass does to the connector at a given position. */
  datatype Fate = Kept | Dropped | Skipped

  /** TestConnection's three reasons to invalidate: usage ceiling, lifetime over, handle closed. */
  predicate Expired(v: ConnView, now: int, exist: int, maxRepeatTimes: int)
  {
    v.useTimes == maxRepeatTimes || v.createTime + exist <= now || v.closed
  }

  /** The connector after TestConnection. */
  function Tested(v: ConnView, now: int, exist: int, maxRepeatTimes: int): ConnView
  {
    if Expired(v, now, exist, maxRepeatTimes) then Failed(v) else v
  }

  /** An invalid connector with no holders, which the pass closes and removes. */
  predicate Removable(v: ConnView)
  {
    !v.enable && v.currentRepeat == 0
  }

  /** The fate of each position in one pass, front to back. */
  function Plan(vs: seq<ConnView>, now: int, exist: int, maxRepeatTimes: int): (p: seq<Fate>)
    ensures |p| == |vs|
    decreases |vs|
  {
    if vs == [] then []
    else if Removable(Tested(vs[0], now, exist, maxRepeatTimes)) then
      if |vs| == 1 then [Dropped] else [Dropped, Skipped] + Plan(vs[2..], now, exist, maxRepeatTimes)
    else [Kept] + Plan(vs[1..], now, exist, maxRepeatTimes)
  }

  /** The state one pass leaves a connector in, given its fate. */
  function AfterPass(v: ConnView, f: Fate, now: int, exist: int, maxRepeatTimes: int): ConnView
  {
    match f
    case Kept => Tested(v, now, exist, maxRepeatTimes)
    case Dropped => Tested(v, now, exist, maxRepeatTimes).(closed := true)
    case Skipped => v
  }

  /** The elements whose fate is not Dropped, in their original order. */
  function Survivors<T>(xs: seq<T>, p: seq<Fate>): seq<T>
    requires |xs| == |p|
  {
    if xs == [] then []
    else Survivors(xs[..|xs| - 1], p[..|p| - 1]) + (if p[|p| - 1] == Dropped then [] else [xs[|xs| - 1]])
  }

  /** A pass drops only connectors that, once tested, are invalid and have no holders. */
  lemma {:induction false} DroppedAreRemovable(vs: seq<ConnView>, now: int, exist: int, m: int, k: int)
    requires 0 <= k < |vs| && Plan(vs, now, exist, m)[k] == Dropped
    ensures Removable(Tested(vs[k], now, exist, m))
    decreases |vs|
  {
    if k > 0 {
      if Removable(Tested(vs[0], now, exist, m)) {
        assert k >= 2;
        DroppedAreRemovable(vs[2..], now, exist, m, k - 2);
      } else {
        DroppedAreRemovable(vs[1..], now, exist, m, k - 1);
      }
    }
  }

  /** Every connector that is tested and found removable is dropped. */
  lemma {:induction false} TestedRemovableAreDropped(vs: seq<ConnView>, now: int, exist: int, m: int, k: int)
    requires 0 <= k < |vs| && Plan(vs, now, exist, m)[k] != Skipped
    requires Removable(Tested(vs[k], now, exist, m))
    ensures Plan(vs, now, exist, m)[k] == Dropped
    decreases |vs|
  {
    if k > 0 {
      if Removable(Tested(vs[0], now, exist, m)) {
        assert k >= 2;
        TestedRemovableAreDropped(vs[2..], now, exist, m, k - 2);
      } else {
        TestedRemovableAreDropped(vs[1..], now, exist, m, k - 1);
      }
    }
  }

  /** The position right after a dropped connector is always skipped, and a skip follows a drop. */
  lemma {:induction false} SkipFollowsDrop(vs: seq<ConnView>, now: int, exist: int, m: int, k: int)
    requires 0 <= k < |vs|
    ensures var p := Plan(vs, now, exist, m);
      (p[k] == Dropped && k + 1 < |vs| ==> p[k + 1] == Skipped)
      && (p[k] == Skipped ==> k > 0 && p[k - 1] == Dropped)
    decreases |vs|
  {
    if k > 0 {
      if Removable(Tested(vs[0], now, exist, m)) {
        if k >= 2 {
          SkipFollowsDrop(vs[2..], now, exist, m, k - 2);
        }
      } else {
        SkipFollowsDrop(vs[1..], now, exist, m, k - 1);
      }
    } else if Removable(Tested(vs[0], now, exist, m)) && |vs| > 1 {
      assert Plan(vs, now, exist, m)[1] == Skipped;
    }
  }

  /** The states after the pass has reached position j: passed positions as AfterPass leaves them, the rest as they were. */
  function PassedPrefix(vs: seq<ConnView>, p: seq<Fate>, j: int, now: int, exist: int, m: int): (us: seq<ConnView>)
    requires |p| == |vs|
    ensures |us| == |vs|
    ensures forall k :: 0 <= k < |vs| ==> us[k] == if k < j then AfterPass(vs[k], p[k], now, exist, m) else vs[k]
  {
    seq(|vs|, k requires 0 <= k < |vs| => if k < j then AfterPass(vs[k], p[k], now, exist, m) else vs[k])
  }

  /** Passing one more position changes only that position; passing a skipped one changes nothing. */
  lemma PassedPrefixStep(vs: seq<ConnView>, p: seq<Fate>, j: int, now: int, exist: int, m: int)
    requires |p| == |vs| && 0 <= j < |vs|
    ensures PassedPrefix(vs, p, j + 1, now, exist, m)
      == PassedPrefix(vs, p, j, now, exist, m)[j := AfterPass(vs[j], p[j], now, exist, m)]
    ensures j + 1 < |vs| && p[j + 1] == Skipped ==>
      PassedPrefix(vs, p, j + 2, now, exist, m) == PassedPrefix(vs, p, j + 1, now, exist, m)
  {
  }

  /** Survivors are drawn from the list, and an element survives exactly when some position of it is not Dropped. */
  lemma {:induction false} SurvivorsMembers<T>(xs: seq<T>, p: seq<Fate>)
    requires |xs| == |p|
    ensures forall y :: y in Survivors(xs, p) ==> exists k :: 0 <= k < |xs| && xs[k] == y && p[k] != Dropped
    ensures forall k :: 0 <= k < |xs| && p[k] != Dropped ==> xs[k] in Survivors(xs, p)
    ensures |Survivors(xs, p)| <= |xs|
  {
    if xs != [] {
      var xs', p' := xs[..|xs| - 1], p[..|p| - 1];
      SurvivorsMembers(xs', p');
      assert forall k :: 0 <= k < |xs'| ==> xs'[k] == xs[k] && p'[k] == p[k];
    }
  }

  /** Survivors of two lists of the same length under the same plan come from the same positions. */
  lemma {:induction false} SurvivorsAligned<A, B>(xs: seq<A>, ys: seq<B>, p: seq<Fate>)
    requires |xs| == |ys| == |p|
    ensures |Survivors(xs, p)| == |Survivors(ys, p)|
    ensures forall i :: 0 <= i < |Survivors(xs, p)| ==>
      exists k :: 0 <= k < |xs| && p[k] != Dropped && Survivors(xs, p)[i] == xs[k] && Survivors(ys, p)[i] == ys[k]
  {
    if xs != [] {
      var n := |xs| - 1;
      var xs', ys', p' := xs[..n], ys[..n], p[..n];
      SurvivorsAligned(xs', ys', p');
      assert forall k :: 0 <= k < n ==> xs'[k] == xs[k] && ys'[k] == ys[k] && p'[k] == p[k];
      var sx, sy := Survivors(xs, p), Survivors(ys, p);
      forall i | 0 <= i < |sx|
        ensures exists k :: 0 <= k < |xs| && p[k] != Dropped && sx[i] == xs[k] && sy[i] == ys[k]
      {
        if i < |Survivors(xs', p')| {
          var k :| 0 <= k < |xs'| && p'[k] != Dropped
            && Survivors(xs', p')[i] == xs'[k] && Survivors(ys', p')[i] == ys'[k];
          assert sx[i] == xs[k] && sy[i] == ys[k];
        } else {
          assert sx[i] == xs[n] && sy[i] == ys[n];
        }
      }
    }
  }

  /** Positions i and j of s hold different elements. */
  predicate Apart<T(==)>(s: seq<T>, i: int, j: int)
    requires 0 <= i < |s| && 0 <= j < |s|
  {
    s[i] != s[j]
  }

  /** No element occurs twice. */
  predicate Distinct<T(==)>(s: seq<T>)
  {
    forall i, j :: 0 <= i < j < |s| ==> Apart(s, i, j)
  }

  /** In a list without repetitions, different positions hold different elements. */
  lemma DistinctAt<T>(s: seq<T>, i: int, j: int)
    requires Distinct(s) && 0 <= i < |s| && 0 <= j < |s| && i != j
    ensures s[i] != s[j]
  {
    if i < j {
      assert Apart(s, i, j);
    } else {
      assert Apart(s, j, i);
    }
  }

  /** The survivors of a list without repetitions have no repetitions either. */
  lemma {:induction false} SurvivorsDistinct<T>(xs: seq<T>, p: seq<Fate>)
    requires |xs| == |p| && Distinct(xs)
    ensures Distinct(Survivors(xs, p))
  {
    if xs != [] {
      var xs', p' := xs[..|xs| - 1], p[..|p| - 1];
      assert Distinct(xs') by {
        forall a, b | 0 <= a < b < |xs'|
          ensures Apart(xs', a, b)
        {
          DistinctAt(xs, a, b);
        }
      }
      SurvivorsDistinct(xs', p');
      SurvivorsMembers(xs', p');
      var last := xs[|xs| - 1];
      forall k | 0 <= k < |xs'|
        ensures xs'[k] != last
      {
        DistinctAt(xs, k, |xs| - 1);
      }
      var s := Survivors(xs, p);
      var s' := Survivors(xs', p');
      forall a, b | 0 <= a < b < |s|
        ensures Apart(s, a, b)
      {
        if b < |s'| {
          assert Apart(s', a, b);
        } else {
          assert s[a] in s';
        }
      }
    }
  }

  /** One pass keeps each connector's reference-count invariant, its shareability and its counters. */
  lemma AfterPassKeeps(v: ConnView, f: Fate, now: int, exist: int, m: int)
    requires Counted(v) && (v.canAllocation ==> v.isRepeat)
    ensures var u := AfterPass(v, f, now, exist, m);
      Counted(u) && (u.canAllocation ==> u.isRepeat)
      && u.currentRepeat == v.currentRepeat && u.useTimes == v.useTimes
      && (u.enable ==> v.enable)
  {
  }

  /** How the plan continues from a position that the pass tests. */
  lemma PlanStep(vs: seq<ConnView>, p: seq<Fate>, j: int, now: int, exist: int, m: int)
    requires |p| == |vs| && 0 <= j < |vs| && p[j..] == Plan(vs[j..], now, exist, m)
    ensures Removable(Tested(vs[j], now, exist, m)) && j + 1 < |vs| ==>
      p[j] == Dropped && p[j + 1] == Skipped && p[j + 2..] == Plan(vs[j + 2..], now, exist, m)
    ensures Removable(Tested(vs[j], now, exist, m)) && j + 1 == |vs| ==> p[j] == Dropped
    ensures !Removable(Tested(vs[j], now, exist, m)) ==>
      p[j] == Kept && p[j + 1..] == Plan(vs[j + 1..], now, exist, m)
  {
    var w := vs[j..];
    assert w[0] == vs[j];
    assert p[j..][0] == p[j];
    if j + 1 < |vs| {
      assert w[2..] == vs[j + 2..] && w[1..] == vs[j + 1..];
      assert p[j..][1] == p[j + 1];
      assert p[j..][2..] == p[j + 2..] && p[j..][1..] == p[j + 1..];
    } else {
      assert w[1..] == [] && p[j + 1..] == [];
    }
  }

  /** Moving one element from the unprocessed tail to the processed front. */
  lemma ShiftOne<T>(front: seq<T>, s: seq<T>, j: int)
    requires 0 <= j < |s|
    ensures front + s[j..] == (front + [s[j]]) + s[j + 1..]
  {
    assert s[j..] == [s[j]] + s[j + 1..];
  }

  /** Removing the element just after the processed front. */
  lemma RemoveAfter<T>(front: seq<T>, s: seq<T>, j: int)
    requires 0 <= j < |s|
    ensures var l := front + s[j..]; |front| < |l| && l[..|front|] + l[|front| + 1..] == front + s[j + 1..]
  {
    var l := front + s[j..];
    assert l[..|front|] == front;
    assert l[|front| + 1..] == s[j + 1..];
  }

  /** The position the pass moves to from a tested position j. */
  function NextPosition(j: int, dropped: bool, n: int): int
  {
    if dropped && j + 1 < n then j + 2 else j + 1
  }

  /**
   * One step of the pass on the plan: the fate of the tested position j, the plan from the
   * next position on, and the states once that position has been passed.
   */
  lemma PlanAdvance(vs: seq<ConnView>, p: seq<Fate>, j: int, dropped: bool, now: int, exist: int, m: int)
    requires |p| == |vs| && 0 <= j < |vs| && p[j..] == Plan(vs[j..], now, exist, m)
    requires dropped == Removable(Tested(vs[j], now, exist, m))
    ensures var j' := NextPosition(j, dropped, |vs|);
      && p[j] == (if dropped then Dropped else Kept)
      && (dropped && j + 1 < |vs| ==> p[j + 1] == Skipped)
      && p[j'..] == Plan(vs[j'..], now, exist, m)
      && PassedPrefix(vs, p, j', now, exist, m)
         == PassedPrefix(vs, p, j, now, exist, m)[j := AfterPass(vs[j], p[j], now, exist, m)]
  {
    PlanStep(vs, p, j, now, exist, m);
    PassedPrefixStep(vs, p, j, now, exist, m);
    if dropped && j + 1 < |vs| {
      PassedPrefixStep(vs, p, j + 1, now, exist, m);
    }
  }

  /**
   * One step of the pass on the list.  With l the list as it stands at position j (the
   * survivors so far, then the untouched rest) and i the number of survivors so far, the step
   * removes l[i] when it is dropped, and the list then stands at the next position.
   */
  lemma ListAdvance<T>(xs: seq<T>, p: seq<Fate>, j: int, l: seq<T>, dropped: bool)
    requires |xs| == |p| && 0 <= j < |xs|
    requires l == Survivors(xs[..j], p[..j]) + xs[j..]
    requires p[j] == (if dropped then Dropped else Kept)
    requires dropped && j + 1 < |xs| ==> p[j + 1] == Skipped
    ensures var i := |Survivors(xs[..j], p[..j])|;
      var j' := NextPosition(j, dropped, |xs|);
      && i < |l| && l[i] == xs[j]
      && (if dropped then l[..i] + l[i + 1..] else l) == Survivors(xs[..j'], p[..j']) + xs[j'..]
      && (j' < |xs| ==> i + 1 == |Survivors(xs[..j'], p[..j'])|)
      && (j' == |xs| ==> i + 1 >= |if dropped then l[..i] + l[i + 1..] else l|)
  {
    var front := Survivors(xs[..j], p[..j]);
    SurvivorsSnoc(xs, p, j);
    ShiftOne(front, xs, j);
    RemoveAfter(front, xs, j);
    if dropped && j + 1 < |xs| {
      SurvivorsSnoc(xs, p, j + 1);
      ShiftOne(front, xs, j + 1);
    }
  }

  /** At the end of the pass the list is the survivors of the whole plan, and every view has passed. */
  lemma PassComplete<T>(xs: seq<T>, vs: seq<ConnView>, p: seq<Fate>, l: seq<T>, now: int, exist: int, m: int)
    requires |xs| == |vs| == |p| && l == Survivors(xs[..|xs|], p[..|xs|]) + xs[|xs|..]
    ensures l == Survivors(xs, p)
    ensures forall k :: 0 <= k < |vs| ==>
      PassedPrefix(vs, p, |xs|, now, exist, m)[k] == AfterPass(vs[k], p[k], now, exist, m)
  {
    assert xs[..|xs|] == xs && p[..|xs|] == p && xs[|xs|..] == [];
  }

  /** Survivors of a list extended by one element. */
  lemma SurvivorsSnoc<T>(xs: seq<T>, p: seq<Fate>, n: nat)
    requires |xs| == |p| && n < |xs|
    ensures Survivors(xs[..n + 1], p[..n + 1])
      == Survivors(xs[..n], p[..n]) + (if p[n] == Dropped then [] else [xs[n]])
  {
    assert xs[..n + 1][..n] == xs[..n];
    assert p[..n + 1][..n] == p[..n];
  }

  /**
   * The skip in action: two consecutive connectors that are both invalid and unheld; the
   * pass drops the first and leaves the second in the list, untested.
   */
  lemma SecondOfTwoExpiredSurvives(v: ConnView, now: int, exist: int, m: int)
    requires Removable(v)
    ensures Plan([v, v], now, exist, m) == [Dropped, Skipped]
    ensures Survivors([1, 2], Plan([v, v], now, exist, m)) == [2]
  {
    assert [v, v][2..] == [];
    var p := [Dropped, Skipped];
    assert [1, 2][..1] == [1] && p[..1] == [Dropped];
    assert [1, 2][..1][..0] == [] && p[..1][..0] == [];
  }
}
