/**
 * The four allocation rules, stated on the sequence of connector states in
 * list order.  An index of -1 stands for "no connector" (the source's null).
 */
module Selection {
  import opened PoolTypes
  import opened Connectors

  /** A connector any level may be given: valid, allocatable and below its usage ceiling. */
  predicate Eligible(v: ConnView, maxRepeatTimes: int)
  {
    v.enable && v.canAllocation && v.useTimes != maxRepeatTimes
  }

  /** A connector the exclusive (ReadOnly) level may be given: eligible and not held by anyone. */
  predicate ExclusiveEligible(v: ConnView, maxRepeatTimes: int)
  {
    Eligible(v, maxRepeatTimes) && !v.use
  }

  /** ReadOnly: the first exclusively eligible connector, or -1 when there is none. */
  ghost predicate FirstFree(vs: seq<ConnView>, m: int, idx: int)
  {
    if idx == -1 then forall j :: 0 <= j < |vs| ==> !ExclusiveEligible(vs[j], m)
    else 0 <= idx < |vs| && ExclusiveEligible(vs[idx], m)
         && forall j :: 0 <= j < idx ==> !ExclusiveEligible(vs[j], m)
  }

  /** High: among the first n connectors, the first eligible one of least usage, or -1. */
  ghost predicate FirstLeastUsed(vs: seq<ConnView>, m: int, n: int, idx: int)
    requires 0 <= n <= |vs|
  {
    if idx == -1 then forall j :: 0 <= j < n ==> !Eligible(vs[j], m)
    else 0 <= idx < n && Eligible(vs[idx], m)
         && (forall j :: 0 <= j < n && Eligible(vs[j], m) ==> vs[idx].useTimes <= vs[j].useTimes)
         && (forall j :: 0 <= j < idx && Eligible(vs[j], m) ==> vs[idx].useTimes < vs[j].useTimes)
  }

  /** Base: among the first n connectors, the first eligible one of greatest usage, or -1. */
  ghost predicate FirstMostUsed(vs: seq<ConnView>, m: int, n: int, idx: int)
    requires 0 <= n <= |vs|
  {
    if idx == -1 then forall j :: 0 <= j < n ==> !Eligible(vs[j], m)
    else 0 <= idx < n && Eligible(vs[idx], m)
         && (forall j :: 0 <= j < n && Eligible(vs[j], m) ==> vs[idx].useTimes >= vs[j].useTimes)
         && (forall j :: 0 <= j < idx && Eligible(vs[j], m) ==> vs[idx].useTimes > vs[j].useTimes)
  }

  /** The positions of the eligible connectors, in list order (the source's allotList). */
  function EligibleIndices(vs: seq<ConnView>, m: int): seq<int>
  {
    if vs == [] then []
    else EligibleIndices(vs[..|vs| - 1], m) + (if Eligible(vs[|vs| - 1], m) then [|vs| - 1] else [])
  }

  /** None: the middle element of the eligible list, or -1 when that list is empty. */
  ghost predicate Middle(vs: seq<ConnView>, m: int, idx: int)
  {
    var e := EligibleIndices(vs, m);
    if |e| == 0 then idx == -1 else idx == e[|e| / 2]
  }

  /** The connector each level's selector picks.  Base is the default branch of the source's switch. */
  ghost predicate Selected(level: ConnectionLevel, vs: seq<ConnView>, m: int, idx: int)
  {
    match level
    case ReadOnly => FirstFree(vs, m, idx)
    case High => FirstLeastUsed(vs, m, |vs|, idx)
    case None => Middle(vs, m, idx)
    case Base => FirstMostUsed(vs, m, |vs|, idx)
  }

  /** EligibleIndices lists exactly the eligible positions, strictly increasing. */
  lemma {:induction false} EligibleIndicesExact(vs: seq<ConnView>, m: int)
    ensures forall i :: i in EligibleIndices(vs, m) <==> 0 <= i < |vs| && Eligible(vs[i], m)
    ensures forall a, b :: 0 <= a < b < |EligibleIndices(vs, m)| ==>
      EligibleIndices(vs, m)[a] < EligibleIndices(vs, m)[b]
    ensures forall a :: 0 <= a < |EligibleIndices(vs, m)| ==> 0 <= EligibleIndices(vs, m)[a] < |vs|
    decreases |vs|
  {
    if vs != [] {
      var p := vs[..|vs| - 1];
      EligibleIndicesExact(p, m);
      assert forall i :: 0 <= i < |p| ==> p[i] == vs[i];
    }
  }

  /** Every selector picks an eligible connector, and ReadOnly one that nobody holds. */
  lemma SelectedIsEligible(level: ConnectionLevel, vs: seq<ConnView>, m: int, idx: int)
    requires Selected(level, vs, m, idx) && idx != -1
    ensures 0 <= idx < |vs| && Eligible(vs[idx], m)
    ensures level == ReadOnly ==> !vs[idx].use
  {
    if level == ConnectionLevel.None {
      EligibleIndicesExact(vs, m);
      var e := EligibleIndices(vs, m);
      assert e[|e| / 2] in e;
    }
  }

  /** A selector finds nothing exactly when no connector qualifies for its level. */
  lemma SelectedNothingIff(level: ConnectionLevel, vs: seq<ConnView>, m: int, idx: int)
    requires Selected(level, vs, m, idx)
    ensures idx == -1 <==>
      if level == ReadOnly then forall j :: 0 <= j < |vs| ==> !ExclusiveEligible(vs[j], m)
      else forall j :: 0 <= j < |vs| ==> !Eligible(vs[j], m)
  {
    if level == ConnectionLevel.None {
      EligibleIndicesExact(vs, m);
      var e := EligibleIndices(vs, m);
      if |e| != 0 {
        assert e[0] in e;
      }
    }
  }

  /** Each level's rule determines at most one connector. */
  lemma SelectedUnique(level: ConnectionLevel, vs: seq<ConnView>, m: int, i: int, j: int)
    requires Selected(level, vs, m, i) && Selected(level, vs, m, j)
    ensures i == j
  {
  }

  /** High's short cut: when some eligible connector has never been used, High picks the first such. */
  lemma HighPrefersUnused(vs: seq<ConnView>, m: int, idx: int, z: int)
    requires Selected(High, vs, m, idx)
    requires 0 <= z < |vs| && Eligible(vs[z], m) && vs[z].useTimes == 0
    requires forall j :: 0 <= j < z ==> !(Eligible(vs[j], m) && vs[j].useTimes == 0)
    ensures idx == z
  {
  }
}
