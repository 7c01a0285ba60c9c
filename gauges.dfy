/**
 * The pool's derived gauges as UpdatePoolState recomputes them: counters over
 * the connector list and the "remaining capacity" accumulator, exactly as the
 * source's loop computes it.
 */
module Gauges {
  import opened Connectors

  /** The seven gauge fields of the pool. */
  datatype Gauges = Gauges(
    readOnlyFromPool: int,    // connectors held exclusively
    potentRealFromPool: int,  // valid connectors
    spareRealFromPool: int,   // valid connectors nobody holds
    useRealFromPool: int,     // connectors somebody holds
    realFromPool: int,        // all connectors, valid or not
    useFromPool: int,         // keys in the in-use map
    spareFromPool: int)       // remaining capacity, as the source's accumulator leaves it

  /** The four per-connector tallies of the recomputation loop. */
  datatype Tally = HeldExclusively | Valid | Idle | InUse

  predicate Tallied(v: ConnView, t: Tally)
  {
    match t
    case HeldExclusively => !v.canAllocation && v.use && !v.isRepeat
    case Valid => v.enable
    case Idle => v.enable && !v.use
    case InUse => v.use
  }

  /** How many connectors fall under tally t. */
  function CountOf(vs: seq<ConnView>, t: Tally): nat
  {
    if vs == [] then 0
    else CountOf(vs[..|vs| - 1], t) + (if Tallied(vs[|vs| - 1], t) then 1 else 0)
  }

  /**
   * The remaining-capacity accumulator: it starts at the pool's maximum, an
   * allocatable connector subtracts its usage count, and a connector that is
   * not allocatable resets it to (idle connectors seen so far) - maxRepeatTimes.
   */
  function SpareAccumulator(vs: seq<ConnView>, maxFromPool: int, maxRepeatTimes: int): int
  {
    if vs == [] then maxFromPool
    else if vs[|vs| - 1].canAllocation then
      SpareAccumulator(vs[..|vs| - 1], maxFromPool, maxRepeatTimes) - vs[|vs| - 1].useTimes
    else CountOf(vs, Idle) - maxRepeatTimes
  }

  /** Total usage count of the connectors. */
  function SumUseTimes(vs: seq<ConnView>): nat
  {
    if vs == [] then 0 else SumUseTimes(vs[..|vs| - 1]) + vs[|vs| - 1].useTimes
  }

  /** The gauges for a connector list, a number of keys in use and the pool's limits. */
  function GaugesOf(vs: seq<ConnView>, keys: nat, maxFromPool: int, maxRepeatTimes: int): Gauges
  {
    Gauges(CountOf(vs, HeldExclusively), CountOf(vs, Valid), CountOf(vs, Idle), CountOf(vs, InUse),
           |vs|, keys, SpareAccumulator(vs, maxFromPool, maxRepeatTimes))
  }

  /** No tally exceeds the list length, and idle connectors are among the valid ones. */
  lemma {:induction false} CountBounds(vs: seq<ConnView>)
    ensures CountOf(vs, Idle) <= CountOf(vs, Valid) <= |vs|
    ensures CountOf(vs, HeldExclusively) <= CountOf(vs, InUse) <= |vs|
  {
    if vs != [] {
      CountBounds(vs[..|vs| - 1]);
    }
  }

  /** Under the reference-count invariant, the in-use tally counts exactly the connectors with holders. */
  lemma {:induction false} InUseMeansHeld(vs: seq<ConnView>)
    requires forall i :: 0 <= i < |vs| ==> Counted(vs[i])
    ensures CountOf(vs, InUse) == |set i | 0 <= i < |vs| && vs[i].currentRepeat > 0|
  {
    if vs != [] {
      var p := vs[..|vs| - 1];
      InUseMeansHeld(p);
      var sp := set i | 0 <= i < |p| && p[i].currentRepeat > 0;
      var sv := set i | 0 <= i < |vs| && vs[i].currentRepeat > 0;
      if vs[|vs| - 1].currentRepeat > 0 {
        assert sv == sp + {|vs| - 1};
      } else {
        assert sv == sp;
      }
    }
  }

  /** While every connector is allocatable, the accumulator is the maximum minus the total usage. */
  lemma {:induction false} SpareWhenAllAllocatable(vs: seq<ConnView>, maxFromPool: int, maxRepeatTimes: int)
    requires forall i :: 0 <= i < |vs| ==> vs[i].canAllocation
    ensures SpareAccumulator(vs, maxFromPool, maxRepeatTimes) == maxFromPool - SumUseTimes(vs)
  {
    if vs != [] {
      SpareWhenAllAllocatable(vs[..|vs| - 1], maxFromPool, maxRepeatTimes);
    }
  }

  /**
   * After a connector that is not allocatable, the accumulator no longer depends on the
   * pool's maximum: it is the idle count up to that connector minus maxRepeatTimes, minus
   * the usage of the allocatable connectors that follow it.
   */
  lemma {:induction false} SpareAfterUnallocatable(vs: seq<ConnView>, k: nat, maxFromPool: int, maxRepeatTimes: int)
    requires k < |vs| && !vs[k].canAllocation
    requires forall i :: k < i < |vs| ==> vs[i].canAllocation
    ensures SpareAccumulator(vs, maxFromPool, maxRepeatTimes)
      == CountOf(vs[..k + 1], Idle) - maxRepeatTimes - SumUseTimes(vs[k + 1..])
    decreases |vs|
  {
    if |vs| == k + 1 {
      assert vs[..k + 1] == vs;
      assert vs[k + 1..] == [];
    } else {
      var p := vs[..|vs| - 1];
      SpareAfterUnallocatable(p, k, maxFromPool, maxRepeatTimes);
      assert p[..k + 1] == vs[..k + 1];
      var q := vs[k + 1..];
      assert q[..|q| - 1] == p[k + 1..] by {
        assert forall t :: 0 <= t < |q| - 1 ==> q[t] == p[k + 1..][t];
      }
      assert SumUseTimes(q) == SumUseTimes(p[k + 1..]) + vs[|vs| - 1].useTimes;
    }
  }

  /**
   * The accumulator does not follow "maximum minus usage": in a pool of maximum 25 whose one
   * connector is held exclusively after a single grant, it reads 0 - 5 = -5 rather than 24.
   */
  lemma SpareCanGoNegative()
    ensures var v := ConnView(true, true, false, false, 1, 1, 0, true);
      SpareAccumulator([v], 25, 5) == -5 && 25 - SumUseTimes([v]) == 24
  {
    var v := ConnView(true, true, false, false, 1, 1, 0, true);
    assert [v][..0] == [];
    assert CountOf([v], Idle) == 0;
  }
}
