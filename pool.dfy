/**
 * The pool orchestrator: an ordered list of connectors, a map from client key
 * to the connector it holds, the configuration, the creation worker's demand
 * fields and the recomputed gauges.  Threads, locks and timers are replaced by
 * sequential methods: one call is one step of the source's state machine.
 */
module Pools {
  import opened PoolTypes
  import opened Connectors
  import opened Selection
  import opened Gauges
  import opened Prune

  /** A caller-supplied key; the source accepts any hashable object. */
  type Key = string

  /** The pool's configuration. `exist` is the connector lifetime in minutes. */
  datatype Config = Config(
    connType: ConnectionType,
    minConnection: int,
    maxConnection: int,
    seepConnection: int,
    keepRealConnection: int,
    exist: int,
    maxRepeatTimes: int)

  /** The keys that hold connector c. */
  function KeysTo(m: map<Key, Connector>, c: Connector): set<Key>
  {
    set k | k in m && m[k] == c
  }

  /** Recording a new key for c adds exactly that key to c's holders and nobody else's. */
  lemma KeysToAdd(m: map<Key, Connector>, key: Key, c: Connector, d: Connector)
    requires key !in m
    ensures KeysTo(m[key := c], d) == if d == c then KeysTo(m, d) + {key} else KeysTo(m, d)
    ensures |KeysTo(m[key := c], d)| == |KeysTo(m, d)| + (if d == c then 1 else 0)
  {
    if d == c {
      assert KeysTo(m[key := c], d) == KeysTo(m, d) + {key};
    } else {
      assert KeysTo(m[key := c], d) == KeysTo(m, d);
    }
  }

  /** Forgetting a key takes exactly that key from its connector's holders. */
  lemma KeysToRemove(m: map<Key, Connector>, key: Key, d: Connector)
    requires key in m
    ensures KeysTo(m - {key}, d) == if m[key] == d then KeysTo(m, d) - {key} else KeysTo(m, d)
    ensures |KeysTo(m - {key}, d)| == |KeysTo(m, d)| - (if m[key] == d then 1 else 0)
  {
    if m[key] == d {
      assert KeysTo(m - {key}, d) == KeysTo(m, d) - {key};
    } else {
      assert KeysTo(m - {key}, d) == KeysTo(m, d);
    }
  }

  /**
   * How many connectors a top-up asks for: the step, cut down so that the count
   * does not pass the maximum.
   */
  function GetNumOf(nowNum: int, seepNum: int, maxNum: int): (r: int)
    ensures r <= seepNum && nowNum + r <= maxNum
    ensures r == seepNum || nowNum + r == maxNum
  {
    if maxNum >= nowNum + seepNum then seepNum else maxNum - nowNum
  }

  /** The states of a list of connectors. */
  ghost function ViewsOf(cs: seq<Connector>): (vs: seq<ConnView>)
    reads cs
    ensures |vs| == |cs| && forall i {:trigger vs[i]} :: 0 <= i < |cs| ==> vs[i] == cs[i].View()
  {
    seq(|cs|, i requires 0 <= i < |cs| reads cs => cs[i].View())
  }

  /** The pool never holds a connector that may be allocated but not shared. */
  predicate Shareable(v: ConnView)
  {
    v.canAllocation ==> v.isRepeat
  }

  /** The connector after a successful grant step at the given level. */
  function Granted(level: ConnectionLevel, v: ConnView): ConnView
  {
    if level == ReadOnly then Repeated(v).(canAllocation := false, isRepeat := false) else Repeated(v)
  }

  /** The level each selector hands to the grant step; Base passes High. */
  function GrantLevel(level: ConnectionLevel): ConnectionLevel
  {
    if level == Base then High else level
  }

  /**
   * The grant step on a non-null connector: before/after are its states, m0/m1 the
   * in-use map, r the result.  A handle that is not Closed yields null with no change;
   * a failing Repeat yields OccasionExecption with no change; a key already in the map
   * yields OccasionExecption after Repeat has counted the grant.
   */
  ghost predicate GrantEffect(key: Key, level: ConnectionLevel, conn: Connector,
                              before: ConnView, after: ConnView,
                              m0: map<Key, Connector>, m1: map<Key, Connector>, r: Result<Connector?>)
  {
    if !before.closed then r == Ok(null) && m1 == m0 && after == before
    else if RepeatCheck(before).Fail? then r == Err(OccasionExecption) && m1 == m0 && after == before
    else if key in m0 then r == Err(OccasionExecption) && m1 == m0 && after == Repeated(before)
    else r == Ok(conn) && m1 == m0[key := conn] && after == Granted(level, before)
  }

  /**
   * One allocation by a selector over the connectors cs with states vs0 (after: vs1):
   * idx is the connector the level's rule picks; with none, ReadOnly fails with
   * OccasionExecption and the other levels return null, and nothing changes.
   */
  ghost predicate AllocationEffect(level: ConnectionLevel, key: Key, cs: seq<Connector>,
                                   vs0: seq<ConnView>, vs1: seq<ConnView>, maxRepeatTimes: int,
                                   m0: map<Key, Connector>, m1: map<Key, Connector>,
                                   idx: int, r: Result<Connector?>)
    requires |vs0| == |cs| == |vs1|
  {
    && Selected(level, vs0, maxRepeatTimes, idx)
    && if idx == -1 then
         vs1 == vs0 && m1 == m0 && r == (if level == ReadOnly then Err(OccasionExecption) else Ok(null))
       else
         0 <= idx < |cs|
         && (forall j :: 0 <= j < |vs0| && j != idx ==> vs1[j] == vs0[j])
         && GrantEffect(key, GrantLevel(level), cs[idx], vs0[idx], vs1[idx], m0, m1, r)
  }

  /** A grant on the connector the level's rule picks, changing nothing else, is an allocation. */
  lemma AllocationFromGrant(level: ConnectionLevel, key: Key, cs: seq<Connector>,
                            vs0: seq<ConnView>, after: ConnView, maxRepeatTimes: int,
                            m0: map<Key, Connector>, m1: map<Key, Connector>,
                            idx: int, r: Result<Connector?>)
    requires |vs0| == |cs| && 0 <= idx < |cs|
    requires Selected(level, vs0, maxRepeatTimes, idx)
    requires GrantEffect(key, GrantLevel(level), cs[idx], vs0[idx], after, m0, m1, r)
    ensures AllocationEffect(level, key, cs, vs0, vs0[idx := after], maxRepeatTimes, m0, m1, idx, r)
  {
  }

  /** The flag updates DisposeConnection makes before calling Remove. */
  function Reopened(v: ConnView): ConnView
  {
    v.(isRepeat := true, canAllocation := if !v.canAllocation && v.enable then true else v.canAllocation)
  }

  /**
   * Release of a key that is present: the flags are reset, then Remove runs; when Remove
   * fails the flag updates stay and the key stays in the map.
   */
  ghost predicate ReleaseEffect(key: Key, before: ConnView, after: ConnView,
                                m0: map<Key, Connector>, m1: map<Key, Connector>, r: Outcome)
  {
    var u := Reopened(before);
    r == RemoveCheck(u)
    && if r.Pass? then after == Removed(u) && m1 == m0 - {key} else after == u && m1 == m0
  }

  /** An allocation that returns a connector returned one its level's rule allows, and recorded the key. */
  lemma AllocationGrantsEligible(level: ConnectionLevel, key: Key, cs: seq<Connector>,
                                 vs0: seq<ConnView>, vs1: seq<ConnView>, m: int,
                                 m0: map<Key, Connector>, m1: map<Key, Connector>,
                                 idx: int, r: Result<Connector?>)
    requires |vs0| == |cs| == |vs1|
    requires AllocationEffect(level, key, cs, vs0, vs1, m, m0, m1, idx, r)
    requires r.Ok? && r.value != null
    ensures 0 <= idx < |cs| && r.value == cs[idx]
    ensures Eligible(vs0[idx], m) && vs0[idx].useTimes != m
    ensures level == ReadOnly ==> !vs0[idx].use && !vs1[idx].canAllocation && !vs1[idx].isRepeat
    ensures key !in m0 && m1 == m0[key := cs[idx]]
    ensures vs1[idx].currentRepeat == vs0[idx].currentRepeat + 1 && vs1[idx].useTimes == vs0[idx].useTimes + 1
  {
    SelectedIsEligible(level, vs0, m, idx);
  }

  /** After an exclusive grant no level's selector can pick that connector again. */
  lemma ExclusiveGrantBlocksOthers(key: Key, cs: seq<Connector>,
                                   vs0: seq<ConnView>, vs1: seq<ConnView>, m: int,
                                   m0: map<Key, Connector>, m1: map<Key, Connector>,
                                   idx: int, r: Result<Connector?>,
                                   other: ConnectionLevel, idx': int)
    requires |vs0| == |cs| == |vs1|
    requires AllocationEffect(ReadOnly, key, cs, vs0, vs1, m, m0, m1, idx, r)
    requires r.Ok? && r.value != null
    requires Selected(other, vs1, m, idx')
    ensures idx' != idx
  {
    SelectedIsEligible(ReadOnly, vs0, m, idx);
    if idx' != -1 {
      SelectedIsEligible(other, vs1, m, idx');
    }
  }

  /**
   * Under the pool's invariant no selector picks a connector that may not be shared:
   * a pick must be allocatable, and the invariant makes an allocatable connector shareable.
   */
  lemma UnsharedNeverSelected(level: ConnectionLevel, vs: seq<ConnView>, m: int, idx: int)
    requires forall i :: 0 <= i < |vs| ==> Shareable(vs[i])
    requires Selected(level, vs, m, idx) && idx != -1
    ensures 0 <= idx < |vs| && vs[idx].isRepeat
  {
    SelectedIsEligible(level, vs, m, idx);
  }

  /** Any later allocation, at any level, leaves a connector that may not be shared exactly as it was. */
  lemma AllocationSparesExclusive(level: ConnectionLevel, key: Key, cs: seq<Connector>,
                                  vs0: seq<ConnView>, vs1: seq<ConnView>, m: int,
                                  m0: map<Key, Connector>, m1: map<Key, Connector>,
                                  idx: int, r: Result<Connector?>, k: int)
    requires |vs0| == |cs| == |vs1|
    requires forall i :: 0 <= i < |vs0| ==> Shareable(vs0[i])
    requires AllocationEffect(level, key, cs, vs0, vs1, m, m0, m1, idx, r)
    requires 0 <= k < |vs0| && !vs0[k].isRepeat
    ensures idx != k && vs1[k] == vs0[k]
  {
    if idx != -1 {
      UnsharedNeverSelected(level, vs0, m, idx);
    }
  }

  /**
   * Only the release's flag reset makes a connector shareable again: a grant, a release,
   * an invalidation and the health check all keep isRepeat as it was.
   */
  lemma OnlyReopenedShares(v: ConnView, f: Fate, now: int, exist: int, m: int)
    ensures Repeated(v).isRepeat == v.isRepeat && Failed(v).isRepeat == v.isRepeat
    ensures v.currentRepeat > 0 ==> Removed(v).isRepeat == v.isRepeat
    ensures AfterPass(v, f, now, exist, m).isRepeat == v.isRepeat
    ensures Reopened(v).isRepeat
  {
  }

  /** A High request with a fresh key is handed the first connector when that one is unused, eligible and Closed. */
  lemma HighGrantsFirstClosed(key: Key, cs: seq<Connector>, vs0: seq<ConnView>, vs1: seq<ConnView>, m: int,
                              m0: map<Key, Connector>, m1: map<Key, Connector>, idx: int, r: Result<Connector?>)
    requires |vs0| == |cs| == |vs1| && |vs0| > 0
    requires Eligible(vs0[0], m) && vs0[0].useTimes == 0 && !vs0[0].use && vs0[0].closed && key !in m0
    requires AllocationEffect(High, key, cs, vs0, vs1, m, m0, m1, idx, r)
    ensures idx == 0 && r == Ok(cs[0]) && m1 == m0[key := cs[0]]
  {
    HighPrefersUnused(vs0, m, idx, 0);
  }

  /** Under the pool's invariant the connector a selector picks always passes Repeat's checks. */
  lemma SelectedPassesRepeat(level: ConnectionLevel, vs: seq<ConnView>, m: int, idx: int)
    requires forall i :: 0 <= i < |vs| ==> Shareable(vs[i])
    requires Selected(level, vs, m, idx) && idx != -1
    ensures 0 <= idx < |vs| && RepeatCheck(vs[idx]) == Pass
  {
    SelectedIsEligible(level, vs, m, idx);
  }

  /**
   * Acquire then release on a shareable, counted connector gives the key set back and
   * restores the connector's whole state except its usage count, which is one higher.
   */
  lemma AcquireReleaseRoundTrip(key: Key, level: ConnectionLevel, conn: Connector,
                                v0: ConnView, v1: ConnView, v2: ConnView,
                                m0: map<Key, Connector>, m1: map<Key, Connector>, m2: map<Key, Connector>,
                                r1: Result<Connector?>, r2: Outcome)
    requires Counted(v0) && Shareable(v0)
    requires GrantEffect(key, level, conn, v0, v1, m0, m1, r1) && r1 == Ok(conn)
    requires ReleaseEffect(key, v1, v2, m1, m2, r2)
    ensures r2 == Pass && m2 == m0
    ensures v2 == v0.(useTimes := v0.useTimes + 1)
  {
    assert key !in m0;
    assert m0[key := conn] - {key} == m0;
  }

  /**
   * A listed connector keeps its reference-count invariant, is shareable whenever it is
   * allocatable, and has at least as many outstanding references as keys that hold it.
   */
  ghost predicate Holds(c: Connector, m: map<Key, Connector>)
    reads c
  {
    c.Valid() && Shareable(c.View()) && |KeysTo(m, c)| <= c.currentRepeat
  }

  /** The checks GetConnection(key, level) makes before dispatching, in the source's order. */
  function Admission(ps: PoolState, inUse: int, maxFromPool: int, held: bool): Outcome
  {
    if ps != Run then Fail(StateException)
    else if inUse == maxFromPool then Fail(PoolFullException)
    else if held then Fail(KeyExecption)
    else Pass
  }

  /** Whether an allocation at this level ran the grant step (and so recomputed the gauges). */
  predicate GrantRan(level: ConnectionLevel, idx: int)
  {
    idx != -1 || level == High || level == Base
  }

  /** An allocation for a key not yet in the map adds at most that key. */
  lemma AllocationAddsOnlyKey(level: ConnectionLevel, key: Key, cs: seq<Connector>,
                              vs0: seq<ConnView>, vs1: seq<ConnView>, m: int,
                              m0: map<Key, Connector>, m1: map<Key, Connector>,
                              idx: int, r: Result<Connector?>)
    requires |vs0| == |cs| == |vs1|
    requires AllocationEffect(level, key, cs, vs0, vs1, m, m0, m1, idx, r) && key !in m0
    ensures m1 == m0 || (0 <= idx < |cs| && m1 == m0[key := cs[idx]])
    ensures m0.Keys <= m1.Keys <= m0.Keys + {key}
    ensures |m1| <= |m0| + 1
  {
  }

  /**
   * Starting within capacity, an admitted request leaves the in-use map within capacity:
   * the full test refuses a map of exactly MaxConnectionFromPool keys.
   */
  lemma AdmittedStaysWithinCapacity(ps: PoolState, level: ConnectionLevel, key: Key, cs: seq<Connector>,
                                    vs0: seq<ConnView>, vs1: seq<ConnView>, m: int,
                                    m0: map<Key, Connector>, m1: map<Key, Connector>,
                                    idx: int, r: Result<Connector?>, maxFromPool: int)
    requires |vs0| == |cs| == |vs1|
    requires Admission(ps, |m0|, maxFromPool, key in m0) == Pass && |m0| <= maxFromPool
    requires AllocationEffect(level, key, cs, vs0, vs1, m, m0, m1, idx, r)
    ensures |m1| <= maxFromPool
  {
    AllocationAddsOnlyKey(level, key, cs, vs0, vs1, m, m0, m1, idx, r);
  }

  /** The full test is an equality: a map already past the maximum is not refused. */
  lemma FullTestIsEquality(maxFromPool: int)
    ensures Admission(Run, maxFromPool, maxFromPool, false) == Fail(PoolFullException)
    ensures Admission(Run, maxFromPool + 1, maxFromPool, false) == Pass
  {
  }

  /**
   * Releasing a held key fails exactly when its connector has been invalidated; the key then
   * stays in the map and the connector keeps its holder count.
   */
  lemma ReleaseFailsIffInvalidated(key: Key, before: ConnView, after: ConnView,
                                   m0: map<Key, Connector>, m1: map<Key, Connector>, r: Outcome)
    requires Counted(before) && before.currentRepeat >= 1
    requires ReleaseEffect(key, before, after, m0, m1, r)
    ensures r.Fail? <==> !before.enable
    ensures r.Fail? ==> r == Fail(InvalidResourceExecption) && m1 == m0 && after.currentRepeat == before.currentRepeat
    ensures r.Pass? ==> after.currentRepeat == before.currentRepeat - 1 && after.isRepeat && after.canAllocation
  {
  }

  /** The state CreateConnection leaves a new connector in: as constructed, with its handle opened. */
  function Created(now: int): ConnView
  {
    Initial(now).(closed := false)
  }

  /** The states of n connectors created at time now. */
  function CreatedViews(n: nat, now: int): (vs: seq<ConnView>)
    ensures |vs| == n && forall i :: 0 <= i < n ==> vs[i] == Created(now)
  {
    seq(n, _ => Created(now))
  }

  /** One more created connector. */
  lemma CreatedViewsSnoc(n: nat, now: int)
    ensures CreatedViews(n + 1, now) == CreatedViews(n, now) + [Created(now)]
  {
  }

  /** The grant step never succeeds on a connector as CreateConnection leaves it: its handle is open. */
  lemma CreatedIsNeverGranted(key: Key, level: ConnectionLevel, conn: Connector, now: int,
                              after: ConnView, m0: map<Key, Connector>, m1: map<Key, Connector>,
                              r: Result<Connector?>)
    requires GrantEffect(key, level, conn, Created(now), after, m0, m1, r)
    ensures r == Ok(null) && m1 == m0 && after == Created(now)
  {
  }

  /**
   * The top-up demand the timer sets: when fewer idle valid connectors remain than
   * keepRealConnection, GetNumOf of the exclusive-hold count, the step and the maximum.
   */
  function TopUpDemand(g: Gauges, cfg: Config): int
  {
    if g.spareRealFromPool < cfg.keepRealConnection
    then GetNumOf(g.readOnlyFromPool, cfg.seepConnection, cfg.maxConnection)
    else 0
  }

  /**
   * The demand is bounded by the step and by the maximum minus the exclusive-hold count,
   * not by the maximum minus the list length.
   */
  lemma TopUpDemandBounds(g: Gauges, cfg: Config)
    ensures TopUpDemand(g, cfg) <= cfg.seepConnection || g.spareRealFromPool >= cfg.keepRealConnection
    ensures g.spareRealFromPool >= cfg.keepRealConnection ==> TopUpDemand(g, cfg) == 0
    ensures g.spareRealFromPool < cfg.keepRealConnection ==>
      g.readOnlyFromPool + TopUpDemand(g, cfg) <= cfg.maxConnection
      && (TopUpDemand(g, cfg) == cfg.seepConnection
          || g.readOnlyFromPool + TopUpDemand(g, cfg) == cfg.maxConnection)
  {
  }

  /**
   * A pool already at MaxConnection connectors, none held exclusively and too few idle, still
   * asks for a full step: the list grows past MaxConnection.
   */
  lemma TopUpCanPassMaximum(g: Gauges, cfg: Config)
    requires g.readOnlyFromPool == 0 && g.realFromPool == cfg.maxConnection
    requires g.spareRealFromPool < cfg.keepRealConnection
    requires 0 < cfg.seepConnection < cfg.maxConnection
    ensures TopUpDemand(g, cfg) == cfg.seepConnection
    ensures g.realFromPool + TopUpDemand(g, cfg) > cfg.maxConnection
  {
  }

  /** A readOnly count above the maximum makes the demand negative. */
  lemma TopUpCanBeNegative(g: Gauges, cfg: Config)
    requires g.readOnlyFromPool > cfg.maxConnection && g.spareRealFromPool < cfg.keepRealConnection
    ensures TopUpDemand(g, cfg) < 0
  {
  }

  /** The gauges of an empty pool: every count zero, the accumulator at the maximum. */
  lemma GaugesOfEmpty(maxFromPool: int, maxRepeatTimes: int)
    ensures GaugesOf([], 0, maxFromPool, maxRepeatTimes) == Gauges(0, 0, 0, 0, 0, 0, maxFromPool)
  {
  }

  /** The bounds the setters' guards aim at, all at once. */
  predicate Bounded(c: Config)
  {
    && 0 < c.minConnection < c.maxConnection
    && 0 < c.seepConnection < c.maxConnection
    && 0 <= c.keepRealConnection <= c.minConnection
  }

  /** The MinConnection setter's guard. */
  predicate MinAccepts(c: Config, value: int)
  {
    value < c.maxConnection && value > 0 && value >= c.keepRealConnection
  }

  /** The MaxConnection setter's guard. */
  predicate MaxAccepts(c: Config, value: int)
  {
    value >= c.minConnection && value > 0
  }

  /** The SeepConnection setter's guard. */
  predicate SeepAccepts(c: Config, value: int)
  {
    value > 0 && value < c.maxConnection
  }

  /** The KeepRealConnection setter's guard. */
  predicate KeepRealAccepts(c: Config, value: int)
  {
    value >= 0 && value < c.maxConnection
  }

  /** The MinConnection and SeepConnection guards keep a bounded configuration bounded. */
  lemma MinAndSeepKeepBounded(c: Config, value: int)
    requires Bounded(c)
    ensures MinAccepts(c, value) ==> Bounded(c.(minConnection := value))
    ensures SeepAccepts(c, value) ==> Bounded(c.(seepConnection := value))
  {
  }

  /** A bounded configuration stays bounded under any accepted change exactly when these hold. */
  lemma MaxAndKeepRealBoundedIff(c: Config, value: int)
    requires Bounded(c)
    ensures MaxAccepts(c, value) ==>
      (Bounded(c.(maxConnection := value)) <==> value > c.minConnection && value > c.seepConnection)
    ensures KeepRealAccepts(c, value) ==>
      (Bounded(c.(keepRealConnection := value)) <==> value <= c.minConnection)
  {
  }

  /** The MaxConnection guard accepts a maximum equal to the minimum, which the MinConnection guard forbids. */
  lemma MaxAcceptsMinimum(c: Config)
    requires Bounded(c)
    ensures MaxAccepts(c, c.minConnection) && !Bounded(c.(maxConnection := c.minConnection))
    ensures !MinAccepts(c.(maxConnection := c.minConnection), c.minConnection)
  {
  }

  /** Every connector of the list satisfies Holds. */
  ghost predicate AllHold(cs: seq<Connector>, m: map<Key, Connector>)
    reads cs
  {
    forall i :: 0 <= i < |cs| ==> Holds(cs[i], m)
  }

  /** Every key holds a connector of the list. */
  predicate KeysListed(m: map<Key, Connector>, cs: seq<Connector>)
  {
    forall k :: k in m ==> m[k] in cs
  }

  /** AllHold stated on the connectors' views. */
  ghost predicate ViewsHold(vs: seq<ConnView>, cs: seq<Connector>, m: map<Key, Connector>)
  {
    |vs| == |cs| && forall i :: 0 <= i < |vs| ==>
      Counted(vs[i]) && Shareable(vs[i]) && |KeysTo(m, cs[i])| <= vs[i].currentRepeat
  }

  lemma AllHoldViews(cs: seq<Connector>, m: map<Key, Connector>)
    ensures AllHold(cs, m) <==> ViewsHold(ViewsOf(cs), cs, m)
  {
  }

  /** The views of the survivors are the survivors of the views. */
  lemma {:induction false} SurvivorsOfViews(cs: seq<Connector>, p: seq<Fate>)
    requires |cs| == |p|
    ensures ViewsOf(Survivors(cs, p)) == Survivors(ViewsOf(cs), p)
  {
    if cs != [] {
      var n := |cs| - 1;
      SurvivorsOfViews(cs[..n], p[..n]);
      assert ViewsOf(cs[..n]) == ViewsOf(cs)[..n];
    }
  }

  /**
   * A health-check pass keeps every survivor's invariant and drops no held connector:
   * a connector somebody holds has a positive count, and the pass only drops unheld ones.
   */
  lemma PruneKeepsHold(oc: seq<Connector>, ov: seq<ConnView>, nv: seq<ConnView>, plan: seq<Fate>,
                       m: map<Key, Connector>, now: int, exist: int, maxRepeatTimes: int)
    requires |nv| == |oc| && plan == Plan(ov, now, exist, maxRepeatTimes)
    requires ViewsHold(ov, oc, m) && KeysListed(m, oc)
    requires forall k :: 0 <= k < |nv| ==> nv[k] == AfterPass(ov[k], plan[k], now, exist, maxRepeatTimes)
    ensures ViewsHold(Survivors(nv, plan), Survivors(oc, plan), m)
    ensures KeysListed(m, Survivors(oc, plan))
  {
    SurvivorsAligned(nv, oc, plan);
    var sv, sc := Survivors(nv, plan), Survivors(oc, plan);
    forall i | 0 <= i < |sv|
      ensures Counted(sv[i]) && Shareable(sv[i]) && |KeysTo(m, sc[i])| <= sv[i].currentRepeat
    {
      var k :| 0 <= k < |nv| && plan[k] != Dropped && sv[i] == nv[k] && sc[i] == oc[k];
      AfterPassKeeps(ov[k], plan[k], now, exist, maxRepeatTimes);
    }
    SurvivorsMembers(oc, plan);
    forall key | key in m
      ensures m[key] in sc
    {
      var k :| 0 <= k < |oc| && oc[k] == m[key];
      assert key in KeysTo(m, oc[k]);
      if plan[k] == Dropped {
        DroppedAreRemovable(ov, now, exist, maxRepeatTimes, k);
        assert false;
      }
    }
  }

  class Pool {
    var ps: PoolState
    var connList: seq<Connector>
    var useConns: map<Key, Connector>
    var cfg: Config
    var mode: CreateThreadMode   // _createThreadMode
    var createNum: int           // _createThreadProcessNum: the creation demand
    var createRun: bool          // _createThreadProcessRun: the worker is told to keep working
    var gauges: Gauges

    /** The connector states in list order. */
    ghost function Views(): seq<ConnView>
      reads this`connList, connList
    {
      ViewsOf(connList)
    }

    /** The most keys the pool may hand out at once. */
    function MaxConnectionFromPool(): int
      reads this`cfg
    {
      cfg.maxConnection * cfg.maxRepeatTimes
    }

    /**
     * The pool invariant: the family is set, every listed connector satisfies Holds, the
     * list has no repetitions, every key points into the list, and a pool that is not
     * started or is stopped is empty.
     */
    ghost predicate Valid()
      reads this`cfg, this`connList, this`useConns, this`ps, connList
    {
      && cfg.connType != ConnectionType.None
      && AllHold(connList, useConns)
      && Distinct(connList)
      && KeysListed(useConns, connList)
      && (ps == UnInitialize || ps == Stop ==> connList == [] && useConns == map[])
    }

    /** The gauges agree with the current list and map. */
    ghost predicate GaugesCurrent()
      reads this`gauges, this`cfg, this`connList, this`useConns, connList
    {
      gauges == GaugesOf(Views(), |useConns|, MaxConnectionFromPool(), cfg.maxRepeatTimes)
    }

    /** Every key holds a listed connector that counts it among its references. */
    lemma HeldAreCounted(k: Key)
      requires Valid() && k in useConns
      ensures useConns[k] in connList && useConns[k].currentRepeat >= 1 && useConns[k].use
      ensures useConns[k].enable ==> RemoveCheck(useConns[k].View()) == Pass
    {
      var c := useConns[k];
      var i :| 0 <= i < |connList| && connList[i] == c;
      assert k in KeysTo(useConns, c);
    }

    /** Under the invariant every listed connector that may be allocated may also be shared. */
    lemma ViewsShareable()
      requires Valid()
      ensures forall i :: 0 <= i < |Views()| ==> Shareable(Views()[i])
    {
      forall i | 0 <= i < |Views()|
        ensures Shareable(Views()[i])
      {
        assert Holds(connList[i], useConns);
      }
    }

    /** The private constructor together with InitConnectionPool, for a family other than None. */
    constructor Init(cte: ConnectionType, maxConnection: int, minConnection: int,
                     seepConnection: int, keepRealConnection: int)
      requires cte != ConnectionType.None
      ensures Valid() && ps == UnInitialize
      ensures connList == [] && useConns == map[]
      ensures cfg == Config(cte, minConnection, maxConnection, seepConnection, keepRealConnection, 20, 5)
      ensures mode == StaticCreateMode && createNum == 0 && !createRun
      ensures gauges == Gauges(0, 0, 0, 0, 0, 0, 0)
    {
      connList := [];
      useConns := map[];
      ps := UnInitialize;
      cfg := Config(cte, minConnection, maxConnection, seepConnection, keepRealConnection, 20, 5);
      mode := StaticCreateMode;
      createNum := 0;
      createRun := false;
      gauges := Gauges(0, 0, 0, 0, 0, 0, 0);
    }

    /**
     * Builds a pool; the None family is refused with ConnTypeExecption.  The source's
     * keepConnection parameter is accepted and ignored, as in the source.
     */
    static method Create(cte: ConnectionType, maxConnection: int, minConnection: int,
                         seepConnection: int, keepConnection: int, keepRealConnection: int)
      returns (r: Result<Pool>)
      ensures r.Err? <==> cte == ConnectionType.None
      ensures r.Err? ==> r.error == ConnTypeExecption
      ensures r.Ok? ==> fresh(r.value) && r.value.Valid() && r.value.ps == UnInitialize
      ensures r.Ok? ==> r.value.connList == [] && r.value.useConns == map[]
      ensures r.Ok? ==> r.value.cfg == Config(cte, minConnection, maxConnection, seepConnection, keepRealConnection, 20, 5)
      ensures r.Ok? ==> && r.value.mode == StaticCreateMode && r.value.createNum == 0 && !r.value.createRun
                        && r.value.gauges == Gauges(0, 0, 0, 0, 0, 0, 0)
    {
      if cte == ConnectionType.None {
        return Err(ConnTypeExecption);
      }
      var p := new Pool.Init(cte, maxConnection, minConnection, seepConnection, keepRealConnection);
      r := Ok(p);
    }

    /** The recomputation loop of UpdatePoolState, which only reads the pool. */
    method ComputeGauges() returns (g: Gauges)
      ensures g == GaugesOf(Views(), |useConns|, MaxConnectionFromPool(), cfg.maxRepeatTimes)
    {
      ghost var vs := Views();
      var readOnly, potentReal, spareReal, useReal := 0, 0, 0, 0;
      var spare := MaxConnectionFromPool();
      var i := 0;
      while i < |connList|
        invariant 0 <= i <= |connList|
        invariant readOnly == CountOf(vs[..i], HeldExclusively)
        invariant potentReal == CountOf(vs[..i], Tally.Valid)
        invariant spareReal == CountOf(vs[..i], Idle)
        invariant useReal == CountOf(vs[..i], InUse)
        invariant spare == SpareAccumulator(vs[..i], MaxConnectionFromPool(), cfg.maxRepeatTimes)
      {
        var conn := connList[i];
        assert vs[..i + 1][..i] == vs[..i];
        assert conn.View() == vs[i];
        if !conn.canAllocation && conn.use && !conn.isRepeat {
          readOnly := readOnly + 1;
        }
        if conn.enable {
          potentReal := potentReal + 1;
        }
        if conn.enable && !conn.use {
          spareReal := spareReal + 1;
        }
        if conn.use {
          useReal := useReal + 1;
        }
        if conn.canAllocation {
          spare := spare - conn.useTimes;
        } else {
          spare := spareReal - cfg.maxRepeatTimes;
        }
        i := i + 1;
      }
      assert vs[..i] == vs;
      g := Gauges(readOnly, potentReal, spareReal, useReal, |connList|, |useConns|, spare);
    }

    /** Recomputes the gauges from the list and the map. */
    method UpdatePoolState()
      modifies this`gauges
      ensures GaugesCurrent()
      ensures old(Valid()) ==> Valid()
      ensures connList == old(connList) && Views() == old(Views())
    {
      gauges := ComputeGauges();
    }

    /** The scan of GetConnectionByReadOnly: the first eligible connector nobody holds. */
    method ScanReadOnly() returns (idx: int)
      ensures Selected(ReadOnly, Views(), cfg.maxRepeatTimes, idx)
    {
      ghost var vs := Views();
      var i := 0;
      while i < |connList|
        invariant 0 <= i <= |connList|
        invariant forall j :: 0 <= j < i ==> !ExclusiveEligible(vs[j], cfg.maxRepeatTimes)
      {
        var conn := connList[i];
        assert conn.View() == vs[i];
        if !conn.enable || !conn.canAllocation || conn.useTimes == cfg.maxRepeatTimes || conn.use {
          i := i + 1;
          continue;
        }
        return i;
      }
      return -1;
    }

    /** The scan of GetConnectionByHigh: a never-used eligible connector, else the first least used. */
    method ScanHigh() returns (idx: int)
      ensures Selected(High, Views(), cfg.maxRepeatTimes, idx)
    {
      ghost var vs := Views();
      var m := cfg.maxRepeatTimes;
      idx := -1;
      var i := 0;
      while i < |connList|
        invariant 0 <= i <= |connList|
        invariant FirstLeastUsed(vs, m, i, idx)
        invariant forall j :: 0 <= j < i && Eligible(vs[j], m) ==> vs[j].useTimes > 0
      {
        var cur := connList[i];
        assert cur.View() == vs[i];
        if !cur.enable || !cur.canAllocation || cur.useTimes == m {
          i := i + 1;
          continue;
        }
        if cur.useTimes == 0 {
          idx := i;
          return;
        }
        if idx != -1 {
          if cur.useTimes < connList[idx].useTimes {
            idx := i;
          }
        } else {
          idx := i;
        }
        i := i + 1;
      }
    }

    /** The scan of GetConnectionByNone: the middle of the list of eligible connectors. */
    method ScanNone() returns (idx: int)
      ensures Selected(ConnectionLevel.None, Views(), cfg.maxRepeatTimes, idx)
    {
      ghost var vs := Views();
      var m := cfg.maxRepeatTimes;
      var allotList: seq<int> := [];   // positions of the collected connectors
      var i := 0;
      while i < |connList|
        invariant 0 <= i <= |connList|
        invariant allotList == EligibleIndices(vs[..i], m)
      {
        var conn := connList[i];
        assert vs[..i + 1][..i] == vs[..i];
        assert conn.View() == vs[i];
        if !conn.enable || !conn.canAllocation || conn.useTimes == m {
          i := i + 1;
          continue;
        }
        if conn.canAllocation {
          allotList := allotList + [i];
        }
        i := i + 1;
      }
      assert vs[..i] == vs;
      idx := if |allotList| == 0 then -1 else allotList[|allotList| / 2];
    }

    /** The scan of GetConnectionByBase: the first most used eligible connector. */
    method ScanBase() returns (idx: int)
      ensures Selected(Base, Views(), cfg.maxRepeatTimes, idx)
    {
      ghost var vs := Views();
      var m := cfg.maxRepeatTimes;
      idx := -1;
      var i := 0;
      while i < |connList|
        invariant 0 <= i <= |connList|
        invariant FirstMostUsed(vs, m, i, idx)
      {
        var cur := connList[i];
        assert cur.View() == vs[i];
        if !cur.enable || !cur.canAllocation || cur.useTimes == m {
          i := i + 1;
          continue;
        }
        if idx != -1 {
          if cur.useTimes > connList[idx].useTimes {
            idx := i;
          }
        } else {
          idx := i;
        }
        i := i + 1;
      }
    }

    /**
     * The grant step GetConnection(key, level, conn): null for a missing connector or a
     * handle that is not Closed; otherwise Repeat, record the key, and for ReadOnly make
     * the connector unallocatable and unshareable.  Failures become OccasionExecption.
     * The gauges are recomputed on every path.
     */
    method GrantConnection(key: Key, level: ConnectionLevel, conn: Connector?) returns (r: Result<Connector?>)
      requires Valid()
      requires conn != null ==> conn in connList
      modifies this`useConns, this`gauges, conn
      ensures Valid() && GaugesCurrent()
      ensures conn == null ==> r == Ok(null) && useConns == old(useConns)
      ensures conn != null ==>
        GrantEffect(key, level, conn, old(conn.View()), conn.View(), old(useConns), useConns, r)
    {
      if conn == null || !conn.closed {
        r := Ok(null);
      } else {
        r := GrantClosed(key, level, conn);
      }
      UpdatePoolState();
    }

    /** The grant step past its null checks: Repeat, then record the key. */
    method GrantClosed(key: Key, level: ConnectionLevel, conn: Connector) returns (r: Result<Connector?>)
      requires Valid() && conn in connList && conn.closed
      modifies this`useConns, conn
      ensures Valid()
      ensures GrantEffect(key, level, conn, old(conn.View()), conn.View(), old(useConns), useConns, r)
    {
      ghost var before := conn.View();
      var rep := conn.Repeat();
      if rep.Fail? {
        return Err(OccasionExecption);
      }
      RepeatKeepsCounted(before);
      forall i | 0 <= i < |connList|
        ensures Holds(connList[i], useConns)
      {
        if connList[i] != conn {
          assert old(Holds(connList[i], useConns));
        }
      }
      if key in useConns {
        return Err(OccasionExecption);
      }
      RecordGrant(key, level, conn);
      r := Ok(conn);
    }

    /** Records a fresh key for a connector that has just counted one more reference. */
    method RecordGrant(key: Key, level: ConnectionLevel, conn: Connector)
      requires Valid() && conn in connList && key !in useConns
      requires |KeysTo(useConns, conn)| < conn.currentRepeat
      modifies this`useConns, conn
      ensures Valid() && useConns == old(useConns)[key := conn]
      ensures conn.View() == if level == ReadOnly then old(conn.View()).(canAllocation := false, isRepeat := false)
                             else old(conn.View())
    {
      RecordKey(key, conn);
      if level == ReadOnly {
        MakeExclusive(conn);
      }
    }

    /** Adds key -> conn to the in-use map. */
    method RecordKey(key: Key, conn: Connector)
      requires Valid() && conn in connList && key !in useConns
      requires |KeysTo(useConns, conn)| < conn.currentRepeat
      modifies this`useConns
      ensures Valid() && useConns == old(useConns)[key := conn]
    {
      ghost var m0 := useConns;
      useConns := useConns[key := conn];
      forall i | 0 <= i < |connList|
        ensures Holds(connList[i], useConns)
      {
        KeysToAdd(m0, key, conn, connList[i]);
      }
    }

    /** Makes a listed connector neither allocatable nor shareable. */
    method MakeExclusive(conn: Connector)
      requires Valid() && conn in connList
      modifies conn
      ensures Valid() && conn.View() == old(conn.View()).(canAllocation := false, isRepeat := false)
    {
      conn.canAllocation := false;
      conn.isRepeat := false;
      forall i | 0 <= i < |connList|
        ensures Holds(connList[i], useConns)
      {
        if connList[i] != conn {
          assert old(Holds(connList[i], useConns));
        }
      }
    }

    /** The grant step on the listed connector at position i, stated on the whole list. */
    method GrantAt(key: Key, level: ConnectionLevel, i: int) returns (r: Result<Connector?>)
      requires Valid() && 0 <= i < |connList|
      modifies this`useConns, this`gauges, connList
      ensures Valid() && connList == old(connList) && GaugesCurrent()
      ensures Views() == old(Views())[i := connList[i].View()]
      ensures GrantEffect(key, level, connList[i], old(Views())[i], connList[i].View(), old(useConns), useConns, r)
    {
      var conn := connList[i];
      r := GrantConnection(key, level, conn);
      forall j | 0 <= j < |connList| && j != i
        ensures unchanged(connList[j])
      {
        DistinctAt(connList, i, j);
      }
    }

    /** GetConnectionByReadOnly: exclusive grant of the first free connector, OccasionExecption if none. */
    method GetConnectionByReadOnly(key: Key) returns (r: Result<Connector?>, ghost idx: int)
      requires Valid()
      modifies this`useConns, this`gauges, connList
      ensures Valid() && connList == old(connList)
      ensures AllocationEffect(ReadOnly, key, connList, old(Views()), Views(), cfg.maxRepeatTimes,
                               old(useConns), useConns, idx, r)
      ensures idx == -1 ==> gauges == old(gauges)
      ensures idx != -1 ==> GaugesCurrent()
    {
      ghost var vs0 := Views();
      var i := ScanReadOnly();
      idx := i;
      if i == -1 {
        return Err(OccasionExecption), i;
      }
      SelectedIsEligible(ReadOnly, vs0, cfg.maxRepeatTimes, idx);
      r := GrantAt(key, ReadOnly, i);
      AllocationFromGrant(ReadOnly, key, connList, vs0, connList[i].View(), cfg.maxRepeatTimes,
                          old(useConns), useConns, idx, r);
    }

    /** GetConnectionByHigh: grant of the first least used eligible connector, null if none. */
    method GetConnectionByHigh(key: Key) returns (r: Result<Connector?>, ghost idx: int)
      requires Valid()
      modifies this`useConns, this`gauges, connList
      ensures Valid() && connList == old(connList) && GaugesCurrent()
      ensures AllocationEffect(High, key, connList, old(Views()), Views(), cfg.maxRepeatTimes,
                               old(useConns), useConns, idx, r)
    {
      ghost var vs0 := Views();
      var i := ScanHigh();
      idx := i;
      if i == -1 {
        r := GrantConnection(key, High, null);
      } else {
        SelectedIsEligible(High, vs0, cfg.maxRepeatTimes, idx);
        r := GrantAt(key, High, i);
        AllocationFromGrant(High, key, connList, vs0, connList[i].View(), cfg.maxRepeatTimes,
                            old(useConns), useConns, idx, r);
      }
    }

    /** GetConnectionByNone: grant of the middle eligible connector, null if none. */
    method GetConnectionByNone(key: Key) returns (r: Result<Connector?>, ghost idx: int)
      requires Valid()
      modifies this`useConns, this`gauges, connList
      ensures Valid() && connList == old(connList)
      ensures AllocationEffect(ConnectionLevel.None, key, connList, old(Views()), Views(), cfg.maxRepeatTimes,
                               old(useConns), useConns, idx, r)
      ensures idx == -1 ==> gauges == old(gauges)
      ensures idx != -1 ==> GaugesCurrent()
    {
      ghost var vs0 := Views();
      var i := ScanNone();
      idx := i;
      if i == -1 {
        return Ok(null), i;
      }
      SelectedIsEligible(ConnectionLevel.None, vs0, cfg.maxRepeatTimes, idx);
      r := GrantAt(key, ConnectionLevel.None, i);
      AllocationFromGrant(ConnectionLevel.None, key, connList, vs0, connList[i].View(), cfg.maxRepeatTimes,
                          old(useConns), useConns, idx, r);
    }

    /** GetConnectionByBase: grant of the first most used eligible connector (at level High), null if none. */
    method GetConnectionByBase(key: Key) returns (r: Result<Connector?>, ghost idx: int)
      requires Valid()
      modifies this`useConns, this`gauges, connList
      ensures Valid() && connList == old(connList) && GaugesCurrent()
      ensures AllocationEffect(Base, key, connList, old(Views()), Views(), cfg.maxRepeatTimes,
                               old(useConns), useConns, idx, r)
    {
      ghost var vs0 := Views();
      var i := ScanBase();
      idx := i;
      if i == -1 {
        r := GrantConnection(key, High, null);
      } else {
        SelectedIsEligible(Base, vs0, cfg.maxRepeatTimes, idx);
        r := GrantAt(key, High, i);
        AllocationFromGrant(Base, key, connList, vs0, connList[i].View(), cfg.maxRepeatTimes,
                            old(useConns), useConns, idx, r);
      }
    }

    /**
     * GetConnection(key, level): the state, capacity and key checks, then the level's selector
     * (Base for any other level).  GetConnection(key) is this at level None.
     */
    method GetConnection(key: Key, level: ConnectionLevel) returns (r: Result<Connector?>, ghost idx: int)
      requires Valid()
      modifies this`useConns, this`gauges, connList
      ensures Valid() && connList == old(connList)
      ensures var a := Admission(ps, |old(useConns)|, MaxConnectionFromPool(), key in old(useConns));
        if a.Fail? then
          r == Err(a.error) && useConns == old(useConns) && gauges == old(gauges) && Views() == old(Views())
        else
          && AllocationEffect(level, key, connList, old(Views()), Views(), cfg.maxRepeatTimes,
                              old(useConns), useConns, idx, r)
          && (if GrantRan(level, idx) then GaugesCurrent() else gauges == old(gauges))
      ensures |old(useConns)| <= MaxConnectionFromPool() ==> |useConns| <= MaxConnectionFromPool()
      ensures forall k :: 0 <= k < |connList| && !old(Views())[k].isRepeat ==> Views()[k] == old(Views())[k]
    {
      idx := -1;
      if ps != Run {
        return Err(StateException), idx;
      }
      if |useConns| == MaxConnectionFromPool() {
        return Err(PoolFullException), idx;
      }
      if key in useConns {
        return Err(KeyExecption), idx;
      }
      r, idx := Allocate(key, level);
      if |old(useConns)| <= MaxConnectionFromPool() {
        AdmittedStaysWithinCapacity(ps, level, key, connList, old(Views()), Views(), cfg.maxRepeatTimes,
                                    old(useConns), useConns, idx, r, MaxConnectionFromPool());
      }
    }

    /** An admitted request: the requested level's selector allocates. */
    method Allocate(key: Key, level: ConnectionLevel) returns (r: Result<Connector?>, ghost idx: int)
      requires Valid() && ps == Run && |useConns| != MaxConnectionFromPool() && key !in useConns
      modifies this`useConns, this`gauges, connList
      ensures Valid() && connList == old(connList)
      ensures AllocationEffect(level, key, connList, old(Views()), Views(), cfg.maxRepeatTimes,
                               old(useConns), useConns, idx, r)
      ensures if GrantRan(level, idx) then GaugesCurrent() else gauges == old(gauges)
      ensures forall k :: 0 <= k < |connList| && !old(Views())[k].isRepeat ==> Views()[k] == old(Views())[k]
    {
      ghost var vs0 := Views();
      ViewsShareable();
      match level {
        case ReadOnly =>
          r, idx := GetConnectionByReadOnly(key);
        case High =>
          r, idx := GetConnectionByHigh(key);
        case None =>
          r, idx := GetConnectionByNone(key);
        case Base =>
          r, idx := GetConnectionByBase(key);
      }
      forall k | 0 <= k < |connList| && !vs0[k].isRepeat
        ensures Views()[k] == vs0[k]
      {
        AllocationSparesExclusive(level, key, connList, vs0, Views(), cfg.maxRepeatTimes,
                                  old(useConns), useConns, idx, r, k);
      }
    }

    /** DisposeConnection's flag updates: shareable again, and allocatable again if still valid. */
    method Reopen(conn: Connector)
      requires Valid() && conn in connList
      modifies conn
      ensures Valid() && conn.View() == Reopened(old(conn.View()))
    {
      conn.isRepeat := true;
      if !conn.canAllocation && conn.enable {
        conn.canAllocation := true;
      }
      forall i | 0 <= i < |connList|
        ensures Holds(connList[i], useConns)
      {
        if connList[i] != conn {
          assert old(Holds(connList[i], useConns));
        }
      }
    }

    /** Remove on the key's connector; when it succeeds the key leaves the map. */
    method ReleaseKey(key: Key, conn: Connector) returns (r: Outcome)
      requires Valid() && key in useConns && useConns[key] == conn
      modifies this`useConns, conn
      ensures Valid() && r == RemoveCheck(old(conn.View()))
      ensures if r.Pass? then conn.View() == Removed(old(conn.View())) && useConns == old(useConns) - {key}
              else conn.View() == old(conn.View()) && useConns == old(useConns)
    {
      HeldAreCounted(key);
      ghost var m0 := useConns;
      ghost var before := conn.View();
      r := conn.Remove();
      if r.Pass? {
        RemoveKeepsCounted(before);
        useConns := useConns - {key};
        forall i | 0 <= i < |connList|
          ensures Holds(connList[i], useConns)
        {
          KeysToRemove(m0, key, connList[i]);
          if connList[i] != conn {
            assert old(Holds(connList[i], useConns));
          }
        }
      }
    }

    /**
     * The release step on the key's connector: the flag updates, then Remove, then (when
     * Remove succeeded) the recomputation of the gauges.
     */
    method ReleaseConnection(key: Key, conn: Connector) returns (r: Outcome)
      requires Valid() && key in useConns && useConns[key] == conn
      modifies this`useConns, this`gauges, conn
      ensures Valid()
      ensures ReleaseEffect(key, old(conn.View()), conn.View(), old(useConns), useConns, r)
      ensures if r.Pass? then GaugesCurrent() else gauges == old(gauges)
    {
      HeldAreCounted(key);
      Reopen(conn);
      r := ReleaseKey(key, conn);
      if r.Pass? {
        UpdatePoolState();
      }
    }

    /**
     * DisposeConnection: outside Run, PoolNotRunException; an unknown key, NotKeyExecption;
     * otherwise the release.  A failing Remove leaves the key in the map and skips the
     * recomputation of the gauges.
     */
    method DisposeConnection(key: Key) returns (r: Outcome, ghost idx: int)
      requires Valid()
      modifies this`useConns, this`gauges, connList
      ensures Valid() && connList == old(connList)
      ensures ps != Run ==> r == Fail(PoolNotRunException)
      ensures ps == Run && key !in old(useConns) ==> r == Fail(NotKeyExecption)
      ensures ps != Run || key !in old(useConns) ==>
        useConns == old(useConns) && gauges == old(gauges) && Views() == old(Views())
      ensures ps == Run && key in old(useConns) ==>
        && 0 <= idx < |connList| && connList[idx] == old(useConns)[key]
        && Views() == old(Views())[idx := connList[idx].View()]
        && ReleaseEffect(key, old(Views())[idx], connList[idx].View(), old(useConns), useConns, r)
        && (if r.Pass? then GaugesCurrent() else gauges == old(gauges))
    {
      idx := -1;
      if ps != Run {
        return Fail(PoolNotRunException), idx;
      }
      if key !in useConns {
        return Fail(NotKeyExecption), idx;
      }
      idx := HeldPosition(key);
      r := ReleaseAt(key, idx);
    }

    /** The position in the list of the connector a key holds. */
    lemma HeldPosition(key: Key) returns (i: int)
      requires Valid() && key in useConns
      ensures 0 <= i < |connList| && connList[i] == useConns[key]
    {
      HeldAreCounted(key);
      i :| 0 <= i < |connList| && connList[i] == useConns[key];
    }

    /** The release step on the listed connector at position i, stated on the whole list. */
    method ReleaseAt(key: Key, ghost i: int) returns (r: Outcome)
      requires Valid() && key in useConns && 0 <= i < |connList| && connList[i] == useConns[key]
      modifies this`useConns, this`gauges, connList
      ensures Valid() && connList == old(connList)
      ensures Views() == old(Views())[i := connList[i].View()]
      ensures ReleaseEffect(key, old(Views())[i], connList[i].View(), old(useConns), useConns, r)
      ensures if r.Pass? then GaugesCurrent() else gauges == old(gauges)
    {
      var conn := useConns[key];
      r := ReleaseConnection(key, conn);
      forall j | 0 <= j < |connList| && j != i
        ensures unchanged(connList[j])
      {
        DistinctAt(connList, i, j);
      }
    }

    /**
     * Not an operation of the pool but of the database underneath it: the backing handle of
     * the listed connector at position i is closed (a dropped session, say).  The grant step
     * hands out only connectors whose handle is Closed, and the pool opens every handle it
     * creates, so this is the step on which a grant can succeed.
     */
    method HandleClosed(i: int)
      requires Valid() && 0 <= i < |connList|
      modifies connList[i]
      ensures Valid() && Views() == old(Views())[i := old(Views())[i].(closed := true)]
    {
      connList[i].Close();
      forall j | 0 <= j < |connList| && j != i
        ensures unchanged(connList[j])
      {
        DistinctAt(connList, i, j);
      }
      forall j | 0 <= j < |connList|
        ensures Holds(connList[j], useConns)
      {
        if j != i {
          assert old(Holds(connList[j], useConns));
        }
      }
    }

    /** TestConnection: invalidates a connector at its usage ceiling, past its lifetime, or with a closed handle. */
    method TestConnection(conn: Connector, now: int)
      modifies conn
      ensures conn.View() == Tested(old(conn.View()), now, cfg.exist, cfg.maxRepeatTimes)
      ensures conn.connType == old(conn.connType) && conn.disposed == old(conn.disposed)
    {
      if conn.useTimes == cfg.maxRepeatTimes {
        conn.SetConnectionFailure();
      }
      if conn.createTime + cfg.exist <= now {
        conn.SetConnectionFailure();
      }
      if conn.closed {
        conn.SetConnectionFailure();
      }
    }

    /**
     * The health-check pass of the timer: each connector is tested, and one that is invalid
     * and unheld is closed and removed; the index then moves on, so the connector that slid
     * into its place is skipped.
     */
    method PruneConnectors(now: int) returns (ghost plan: seq<Fate>)
      requires Valid()
      modifies this`connList, connList
      ensures Valid()
      ensures plan == Plan(old(Views()), now, cfg.exist, cfg.maxRepeatTimes)
      ensures connList == Survivors(old(connList), plan)
      ensures (forall k :: 0 <= k < |old(connList)| ==>
        ViewsOf(old(connList))[k] == AfterPass(old(Views())[k], plan[k], now, cfg.exist, cfg.maxRepeatTimes))
    {
      ghost var oc, ov := connList, Views();
      AllHoldViews(oc, useConns);
      plan := Plan(ov, now, cfg.exist, cfg.maxRepeatTimes);
      PruneLoop(now, plan);
      PrunedValid(oc, ov, plan, now);
    }

    /** Nothing a health-check pass changes breaks the invariant, and nothing it drops is held. */
    lemma PrunedValid(oc: seq<Connector>, ov: seq<ConnView>, plan: seq<Fate>, now: int)
      requires cfg.connType != ConnectionType.None
      requires ViewsHold(ov, oc, useConns) && Distinct(oc) && KeysListed(useConns, oc)
      requires ps == UnInitialize || ps == Stop ==> oc == [] && useConns == map[]
      requires plan == Plan(ov, now, cfg.exist, cfg.maxRepeatTimes)
      requires connList == Survivors(oc, plan)
      requires forall k :: 0 <= k < |oc| ==>
        ViewsOf(oc)[k] == AfterPass(ov[k], plan[k], now, cfg.exist, cfg.maxRepeatTimes)
      ensures Valid()
    {
      PruneKeepsHold(oc, ov, ViewsOf(oc), plan, useConns, now, cfg.exist, cfg.maxRepeatTimes);
      SurvivorsOfViews(oc, plan);
      AllHoldViews(connList, useConns);
      SurvivorsDistinct(oc, plan);
    }

    /** The loop of the health-check pass, against the plan. */
    method PruneLoop(now: int, ghost plan: seq<Fate>)
      requires Distinct(connList) && plan == Plan(Views(), now, cfg.exist, cfg.maxRepeatTimes)
      modifies this`connList, connList
      ensures connList == Survivors(old(connList), plan)
      ensures (forall k :: 0 <= k < |old(connList)| ==>
        ViewsOf(old(connList))[k] == AfterPass(old(Views())[k], plan[k], now, cfg.exist, cfg.maxRepeatTimes))
    {
      ghost var oc, ov := connList, Views();
      var i := 0;
      ghost var j := 0;
      while i < |connList|
        invariant Pruning(oc, ov, plan, now, i, j)
        decreases |oc| - j
      {
        i, j := PruneIteration(now, plan, oc, ov, i, j);
      }
      PassComplete(oc, ov, plan, connList, now, cfg.exist, cfg.maxRepeatTimes);
    }

    /**
     * Where the pass stands: positions before j of the original list oc have been handled,
     * the list is their survivors followed by the untouched rest, and i is the list position
     * of original position j.
     */
    ghost predicate Pruning(oc: seq<Connector>, ov: seq<ConnView>, plan: seq<Fate>, now: int, i: int, j: int)
      reads this`connList, this`cfg, oc
    {
      && 0 <= j <= |oc| && |plan| == |oc| == |ov|
      && connList == Survivors(oc[..j], plan[..j]) + oc[j..]
      && (j < |oc| ==> i == |Survivors(oc[..j], plan[..j])|)
      && (j == |oc| ==> i >= |connList|)
      && plan[j..] == Plan(ov[j..], now, cfg.exist, cfg.maxRepeatTimes)
      && ViewsOf(oc) == PassedPrefix(ov, plan, j, now, cfg.exist, cfg.maxRepeatTimes)
    }

    /** One iteration of the pass's loop: it handles original position j, and j moves past the skipped one. */
    method PruneIteration(now: int, ghost plan: seq<Fate>, ghost oc: seq<Connector>, ghost ov: seq<ConnView>,
                          i: int, ghost j: int) returns (i': int, ghost j': int)
      requires Pruning(oc, ov, plan, now, i, j) && i < |connList| && Distinct(oc)
      modifies this`connList, oc
      ensures Pruning(oc, ov, plan, now, i', j') && j < j'
    {
      assert ViewsOf(oc)[j] == ov[j];
      ghost var removable := Removable(Tested(ov[j], now, cfg.exist, cfg.maxRepeatTimes));
      PlanAdvance(ov, plan, j, removable, now, cfg.exist, cfg.maxRepeatTimes);
      ListAdvance(oc, plan, j, connList, removable);
      ghost var before := ViewsOf(oc);
      var dropped := PruneStep(i, now, oc, j, ov[j]);
      assert ViewsOf(oc) == before[j := AfterPass(ov[j], plan[j], now, cfg.exist, cfg.maxRepeatTimes)];
      i' := i + 1;
      j' := NextPosition(j, dropped, |oc|);
    }

    /**
     * One step of the pass: test the connector at position i, whose view is v; if it is removable, close and
     * remove it.  That connector sits at position j of the distinct list oc, whose views
     * change at j only.
     */
    method PruneStep(i: int, now: int, ghost oc: seq<Connector>, ghost j: int, ghost v: ConnView)
      returns (dropped: bool)
      requires 0 <= i < |connList| && 0 <= j < |oc| && oc[j] == connList[i] && Distinct(oc)
      requires v == connList[i].View()
      modifies this`connList, connList[i]
      ensures dropped == Removable(Tested(v, now, cfg.exist, cfg.maxRepeatTimes))
      ensures ViewsOf(oc) == old(ViewsOf(oc))[j := AfterPass(v, if dropped then Dropped else Kept,
                                                             now, cfg.exist, cfg.maxRepeatTimes)]
      ensures connList == if dropped then old(connList[..i] + connList[i + 1..]) else old(connList)
    {
      forall k | 0 <= k < |oc| && k != j
        ensures oc[k] != oc[j]
      {
        DistinctAt(oc, k, j);
      }
      var conn := connList[i];
      TestConnection(conn, now);
      dropped := !conn.enable && conn.currentRepeat == 0;
      if dropped {
        conn.Close();
        connList := connList[..i] + connList[i + 1..];
      }
    }

    /**
     * One tick of the timer.  While the worker is busy creating, the tick does nothing;
     * otherwise it runs the health-check pass, recomputes the gauges and sets the top-up
     * demand, switching the worker to dynamic mode when that demand is not zero.
     */
    method TimerElapsed(now: int, workerParked: bool) returns (ghost plan: seq<Fate>)
      requires Valid()
      modifies this`connList, connList, this`gauges, this`createNum, this`mode
      ensures Valid() && plan == Plan(old(Views()), now, cfg.exist, cfg.maxRepeatTimes)
      ensures !workerParked ==>
        && connList == old(connList) && Views() == old(Views()) && gauges == old(gauges)
        && createNum == old(createNum) && mode == old(mode)
      ensures workerParked ==>
        && connList == Survivors(old(connList), plan)
        && (forall k :: 0 <= k < |old(connList)| ==>
        ViewsOf(old(connList))[k] == AfterPass(old(Views())[k], plan[k], now, cfg.exist, cfg.maxRepeatTimes))
        && GaugesCurrent()
        && createNum == TopUpDemand(gauges, cfg)
        && mode == (if createNum != 0 then DynamicCreateMode else old(mode))
    {
      if !workerParked {
        return Plan(Views(), now, cfg.exist, cfg.maxRepeatTimes);
      }
      ghost var oc := connList;
      plan := HealthCheck(now);
      SetTopUp(oc);
    }

    /** The parked worker's part of the tick: the health-check pass, then the gauges recomputed. */
    method HealthCheck(now: int) returns (ghost plan: seq<Fate>)
      requires Valid()
      modifies this`connList, connList, this`gauges
      ensures Valid() && GaugesCurrent()
      ensures plan == Plan(old(Views()), now, cfg.exist, cfg.maxRepeatTimes)
      ensures connList == Survivors(old(connList), plan)
      ensures (forall k :: 0 <= k < |old(connList)| ==>
        ViewsOf(old(connList))[k] == AfterPass(old(Views())[k], plan[k], now, cfg.exist, cfg.maxRepeatTimes))
    {
      plan := PruneConnectors(now);
      UpdatePoolState();
    }

    /** The tail of the timer tick: the top-up demand from the gauges, and dynamic mode when it is not zero. */
    method SetTopUp(ghost cs: seq<Connector>)
      modifies this`createNum, this`mode
      ensures connList == old(connList) && ViewsOf(cs) == old(ViewsOf(cs))
      ensures createNum == TopUpDemand(gauges, cfg)
      ensures mode == if createNum != 0 then DynamicCreateMode else old(mode)
      ensures old(Valid()) ==> Valid()
      ensures old(GaugesCurrent()) ==> GaugesCurrent()
    {
      createNum := if gauges.spareRealFromPool < cfg.keepRealConnection
        then GetNumOf(gauges.readOnlyFromPool, cfg.seepConnection, cfg.maxConnection)
        else 0;
      if createNum != 0 {
        mode := DynamicCreateMode;
      }
    }

    /** Creates a connector of one of the three families and opens it; any other family is refused. */
    static method CreateConnection(connType: ConnectionType, now: int) returns (r: Result<Connector>)
      ensures r.Ok? <==> connType != ConnectionType.None
      ensures r.Err? ==> r.error == ArgumentException
      ensures r.Ok? ==> && fresh(r.value) && r.value.Valid() && r.value.View() == Created(now)
                        && r.value.connType == connType && !r.value.disposed
    {
      match connType {
        case Odbc =>
        case OleDb =>
        case SqlClient =>
        case None => return Err(ArgumentException);
      }
      var conn := new Connector(connType, now);
      conn.Open();
      r := Ok(conn);
    }

    /** One creation step of the worker: a new, opened connector is appended to the list. */
    method AddConnector(now: int) returns (c: Connector)
      requires Valid() && ps == Run
      modifies this`connList
      ensures Valid() && fresh(c) && connList == old(connList) + [c]
      ensures Views() == old(Views()) + [Created(now)]
    {
      var r := CreateConnection(cfg.connType, now);
      c := r.value;
      assert forall key :: key in useConns ==> useConns[key] in connList;
      assert KeysTo(useConns, c) == {};
      ghost var oc := connList;
      connList := connList + [c];
      forall a, b | 0 <= a < b < |connList|
        ensures Apart(connList, a, b)
      {
        if b < |oc| {
          DistinctAt(oc, a, b);
        }
      }
    }

    /**
     * The worker in static mode: it marks the pool running, appends connectors while the
     * list is shorter than the demand, then recomputes the gauges, clears the demand and parks.
     */
    method WorkerStaticPass(now: int)
      requires Valid()
      modifies this`ps, this`connList, this`gauges, this`createNum
      ensures Valid() && ps == Run && createNum == 0 && GaugesCurrent()
      ensures |old(connList)| <= |connList| && connList[..|old(connList)|] == old(connList)
      ensures |connList| == if |old(connList)| < old(createNum) then old(createNum) else |old(connList)|
      ensures Views() == old(Views()) + CreatedViews(|connList| - |old(connList)|, now)
      ensures forall k :: |old(connList)| <= k < |connList| ==> fresh(connList[k])
    {
      ps := Run;
      FillTo(createNum, now);
      Park();
    }

    /** The end of a static pass: the gauges are recomputed and the demand cleared. */
    method Park()
      modifies this`gauges, this`createNum
      ensures GaugesCurrent() && createNum == 0
      ensures old(Valid()) ==> Valid()
      ensures connList == old(connList) && Views() == old(Views())
    {
      createNum := 0;
      UpdatePoolState();
    }

    /** The static creation loop: connectors are appended while the list is shorter than target. */
    method FillTo(target: int, now: int)
      requires Valid() && ps == Run
      modifies this`connList
      ensures Valid()
      ensures |old(connList)| <= |connList| && connList[..|old(connList)|] == old(connList)
      ensures |connList| == if |old(connList)| < target then target else |old(connList)|
      ensures Views() == old(Views()) + CreatedViews(|connList| - |old(connList)|, now)
      ensures forall k :: |old(connList)| <= k < |connList| ==> fresh(connList[k])
    {
      ghost var oc, ov := connList, Views();
      while |connList| < target
        invariant Valid()
        invariant |oc| <= |connList| && connList[..|oc|] == oc
        invariant |connList| <= if |oc| < target then target else |oc|
        invariant Views() == ov + CreatedViews(|connList| - |oc|, now)
        invariant forall k :: |oc| <= k < |connList| ==> fresh(connList[k])
        decreases target - |connList|
      {
        ghost var before := connList;
        var c := AddConnector(now);
        assert connList[..|before|] == before;
        CreatedViewsSnoc(|before| - |oc|, now);
      }
    }

    /**
     * The worker in dynamic mode after the timer's signal: it marks the pool running and
     * appends as many connectors as the demand says.  The demand field itself is left as it is.
     */
    method WorkerDynamicPass(now: int)
      requires Valid() && ps == Run && mode == DynamicCreateMode && createNum >= 0
      modifies this`ps, this`connList
      ensures Valid() && ps == Run
      ensures |connList| == |old(connList)| + createNum && connList[..|old(connList)|] == old(connList)
      ensures Views() == old(Views()) + CreatedViews(createNum, now)
      ensures forall k :: |old(connList)| <= k < |connList| ==> fresh(connList[k])
    {
      ghost var oc, ov := connList, Views();
      ps := Run;
      var remaining := createNum;
      while remaining != 0
        invariant 0 <= remaining <= createNum
        invariant Valid() && ps == Run
        invariant |connList| == |oc| + createNum - remaining && connList[..|oc|] == oc
        invariant Views() == ov + CreatedViews(createNum - remaining, now)
        invariant forall k :: |oc| <= k < |connList| ==> fresh(connList[k])
      {
        ghost var before := connList;
        remaining := remaining - 1;
        var c := AddConnector(now);
        assert connList[..|before|] == before;
        CreatedViewsSnoc(|before| - |oc|, now);
      }
    }

    /**
     * Starts the service: the worker is set to static mode with the minimum as its demand;
     * from UnInitialize or Stop the worker then fills the list up to that minimum, anything
     * else is refused after those three assignments.
     */
    method StartServices(now: int) returns (r: Outcome)
      requires Valid()
      modifies this`mode, this`createRun, this`createNum, this`ps, this`connList, this`gauges
      ensures Valid() && mode == StaticCreateMode && createRun
      ensures r == if old(ps) == UnInitialize || old(ps) == Stop then Pass else Fail(PoolNotStopException)
      ensures r.Fail? ==> && ps == old(ps) && connList == old(connList) && gauges == old(gauges)
                          && createNum == cfg.minConnection
      ensures r.Pass? ==> && ps == Run && createNum == 0 && GaugesCurrent() && useConns == map[]
                          && Views() == CreatedViews(if cfg.minConnection > 0 then cfg.minConnection else 0, now)
                          && forall k :: 0 <= k < |connList| ==> fresh(connList[k])
    {
      mode, createRun, createNum := StaticCreateMode, true, cfg.minConnection;
      if ps != UnInitialize && ps != Stop {
        return Fail(PoolNotStopException);
      }
      WorkerStaticPass(now);
      r := Pass;
    }

    /** The stop's loop: every listed connector releases its handle and becomes invalid. */
    method DisposeAll()
      requires Distinct(connList)
      modifies connList
      ensures forall k :: 0 <= k < |connList| ==> connList[k].disposed
      ensures forall k :: 0 <= k < |connList| ==> Views()[k] == old(Views())[k].(enable := false)
    {
      ghost var ov := Views();
      for i := 0 to |connList|
        invariant forall k :: 0 <= k < i ==> connList[k].disposed
        invariant forall k :: 0 <= k < |connList| ==>
          Views()[k] == if k < i then ov[k].(enable := false) else ov[k]
      {
        forall k | 0 <= k < |connList| && k != i
          ensures connList[k] != connList[i]
        {
          DistinctAt(connList, k, i);
        }
        connList[i].Dispose();
      }
    }

    /**
     * Stops the service.  Outside Run it fails; with keys outstanding it fails unless needs
     * is set, in which case the keys are dropped.  Otherwise every connector is disposed, the
     * list is emptied and the pool ends in Stop with the gauges of an empty pool.
     */
    method StopServices(needs: bool) returns (r: Outcome)
      requires Valid()
      modifies this`useConns, this`createRun, this`connList, connList, this`ps, this`gauges
      ensures Valid()
      ensures r == if old(ps) != Run then Fail(PoolNotRunException)
                   else if !needs && |old(useConns)| != 0 then Fail(ResCallBackException)
                   else Pass
      ensures r.Fail? ==> && ps == old(ps) && connList == old(connList) && useConns == old(useConns)
                          && createRun == old(createRun) && gauges == old(gauges) && Views() == old(Views())
      ensures r.Pass? ==> && ps == Stop && !createRun && connList == [] && useConns == map[]
                          && gauges == Gauges(0, 0, 0, 0, 0, 0, MaxConnectionFromPool())
      ensures r.Pass? ==> forall k :: 0 <= k < |old(connList)| ==>
        old(connList)[k].disposed && ViewsOf(old(connList))[k] == old(Views())[k].(enable := false)
    {
      if ps != Run {
        return Fail(PoolNotRunException);
      }
      if needs {
        useConns := map[];
      } else if |useConns| != 0 {
        return Fail(ResCallBackException);
      }
      Shutdown();
      r := Pass;
    }

    /** The stop proper, once no key is outstanding: the worker is told to stop and every connector is disposed. */
    method Shutdown()
      requires Valid() && useConns == map[]
      modifies this`createRun, this`connList, connList, this`ps, this`gauges
      ensures Valid() && ps == Stop && !createRun && connList == []
      ensures gauges == Gauges(0, 0, 0, 0, 0, 0, MaxConnectionFromPool())
      ensures forall k :: 0 <= k < |old(connList)| ==>
        old(connList)[k].disposed && ViewsOf(old(connList))[k] == old(Views())[k].(enable := false)
    {
      createRun := false;
      ghost var oc := connList;
      DisposeAll();
      assert forall k :: 0 <= k < |oc| ==> ViewsOf(oc)[k] == Views()[k];
      ClearList(oc);
    }

    /** The end of the stop: the list is emptied, the pool is in Stop and the gauges are those of an empty pool. */
    method ClearList(ghost cs: seq<Connector>)
      requires cfg.connType != ConnectionType.None && useConns == map[]
      modifies this`connList, this`ps, this`gauges
      ensures Valid() && ps == Stop && connList == []
      ensures gauges == Gauges(0, 0, 0, 0, 0, 0, MaxConnectionFromPool())
      ensures ViewsOf(cs) == old(ViewsOf(cs))
    {
      connList := [];
      ps := Stop;
      UpdatePoolState();
      GaugesOfEmpty(MaxConnectionFromPool(), cfg.maxRepeatTimes);
    }

    /**
     * The Enable setter: in Run or Stop, true starts the service and false stops it without
     * dropping outstanding keys; in any other state the assignment is refused.
     */
    method SetEnable(value: bool, now: int) returns (r: Outcome)
      requires Valid()
      modifies this`mode, this`createRun, this`createNum, this`ps, this`connList, connList,
               this`gauges, this`useConns
      ensures Valid()
      ensures old(ps) != Run && old(ps) != Stop ==>
        && r == Fail(SetValueExecption) && ps == old(ps) && connList == old(connList)
        && useConns == old(useConns) && gauges == old(gauges) && createNum == old(createNum)
        && mode == old(mode) && createRun == old(createRun) && Views() == old(Views())
      ensures (old(ps) == Run || old(ps) == Stop) && value ==>
        && r == (if old(ps) == Stop then Pass else Fail(PoolNotStopException))
        && mode == StaticCreateMode && createRun
        && (r.Pass? ==> && ps == Run && createNum == 0 && GaugesCurrent() && useConns == map[]
                        && Views() == CreatedViews(if cfg.minConnection > 0 then cfg.minConnection else 0, now)
                        && forall k :: 0 <= k < |connList| ==> fresh(connList[k]))
        && (r.Fail? ==> && ps == old(ps) && connList == old(connList) && useConns == old(useConns)
                        && Views() == old(Views()) && gauges == old(gauges) && createNum == cfg.minConnection)
      ensures (old(ps) == Run || old(ps) == Stop) && !value ==>
        && r == (if old(ps) != Run then Fail(PoolNotRunException)
                 else if |old(useConns)| != 0 then Fail(ResCallBackException) else Pass)
        && (r.Pass? ==> && ps == Stop && !createRun && connList == [] && useConns == map[]
                        && gauges == Gauges(0, 0, 0, 0, 0, 0, MaxConnectionFromPool())
                        && forall k :: 0 <= k < |old(connList)| ==>
                             old(connList)[k].disposed && ViewsOf(old(connList))[k] == old(Views())[k].(enable := false))
        && (r.Fail? ==> && ps == old(ps) && connList == old(connList) && useConns == old(useConns)
                        && createRun == old(createRun) && gauges == old(gauges) && Views() == old(Views()))
        && mode == old(mode) && createNum == old(createNum)
    {
      if ps != Run && ps != Stop {
        return Fail(SetValueExecption);
      }
      if value {
        r := StartServices(now);
      } else {
        r := StopServices(false);
      }
    }

    /**
     * Disposes the pool: a stop that keeps outstanding keys, whose failure is swallowed.
     * A running pool without outstanding keys ends stopped and empty; any other pool is unchanged.
     */
    method Dispose()
      requires Valid()
      modifies this`useConns, this`createRun, this`connList, connList, this`ps, this`gauges
      ensures Valid()
      ensures old(ps) == Run && |old(useConns)| == 0 ==>
        && ps == Stop && !createRun && connList == [] && useConns == map[]
        && gauges == Gauges(0, 0, 0, 0, 0, 0, MaxConnectionFromPool())
        && forall k :: 0 <= k < |old(connList)| ==>
             old(connList)[k].disposed && ViewsOf(old(connList))[k] == old(Views())[k].(enable := false)
      ensures !(old(ps) == Run && |old(useConns)| == 0) ==>
        && ps == old(ps) && connList == old(connList) && useConns == old(useConns)
        && Views() == old(Views()) && gauges == old(gauges) && createRun == old(createRun)
    {
      var _ := StopServices(false);
    }

    /** The MinConnection setter. */
    method SetMinConnection(value: int) returns (r: Outcome)
      requires Valid()
      modifies this`cfg
      ensures Valid()
      ensures r == if MinAccepts(old(cfg), value) then Pass else Fail(ParameterBoundExecption)
      ensures cfg == if r.Pass? then old(cfg).(minConnection := value) else old(cfg)
    {
      if !MinAccepts(cfg, value) {
        return Fail(ParameterBoundExecption);
      }
      cfg := cfg.(minConnection := value);
      r := Pass;
    }

    /** The MaxConnection setter. */
    method SetMaxConnection(value: int) returns (r: Outcome)
      requires Valid()
      modifies this`cfg
      ensures Valid()
      ensures r == if MaxAccepts(old(cfg), value) then Pass else Fail(ParameterBoundExecption)
      ensures cfg == if r.Pass? then old(cfg).(maxConnection := value) else old(cfg)
    {
      if !MaxAccepts(cfg, value) {
        return Fail(ParameterBoundExecption);
      }
      cfg := cfg.(maxConnection := value);
      r := Pass;
    }

    /** The SeepConnection setter. */
    method SetSeepConnection(value: int) returns (r: Outcome)
      requires Valid()
      modifies this`cfg
      ensures Valid()
      ensures r == if SeepAccepts(old(cfg), value) then Pass else Fail(ParameterBoundExecption)
      ensures cfg == if r.Pass? then old(cfg).(seepConnection := value) else old(cfg)
    {
      if !SeepAccepts(cfg, value) {
        return Fail(ParameterBoundExecption);
      }
      cfg := cfg.(seepConnection := value);
      r := Pass;
    }

    /** The KeepRealConnection setter. */
    method SetKeepRealConnection(value: int) returns (r: Outcome)
      requires Valid()
      modifies this`cfg
      ensures Valid()
      ensures r == if KeepRealAccepts(old(cfg), value) then Pass else Fail(ParameterBoundExecption)
      ensures cfg == if r.Pass? then old(cfg).(keepRealConnection := value) else old(cfg)
    {
      if !KeepRealAccepts(cfg, value) {
        return Fail(ParameterBoundExecption);
      }
      cfg := cfg.(keepRealConnection := value);
      r := Pass;
    }

    /** The Exist setter: the lifetime may change only while the pool is stopped. */
    method SetExist(value: int) returns (r: Outcome)
      requires Valid()
      modifies this`cfg
      ensures Valid()
      ensures r == if old(ps) == Stop then Pass else Fail(PoolNotStopException)
      ensures cfg == if r.Pass? then old(cfg).(exist := value) else old(cfg)
    {
      if ps != Stop {
        return Fail(PoolNotStopException);
      }
      cfg := cfg.(exist := value);
      r := Pass;
    }

    /** The MaxRepeatTimes setter: any non-negative ceiling, in any state. */
    method SetMaxRepeatTimes(value: int) returns (r: Outcome)
      requires Valid()
      modifies this`cfg
      ensures Valid()
      ensures r == if value >= 0 then Pass else Fail(ParameterBoundExecption)
      ensures cfg == if r.Pass? then old(cfg).(maxRepeatTimes := value) else old(cfg)
    {
      if value < 0 {
        return Fail(ParameterBoundExecption);
      }
      cfg := cfg.(maxRepeatTimes := value);
      r := Pass;
    }

    /**
     * The ConnectionType setter: the family may change only while the pool is stopped.  Setting
     * the None family there is accepted and leaves the pool outside its invariant, since no
     * connector of that family can be created.
     */
    method SetConnectionType(value: ConnectionType) returns (r: Outcome)
      requires Valid()
      modifies this`cfg
      ensures r == if old(ps) == Stop then Pass else Fail(SetValueExecption)
      ensures cfg == if r.Pass? then old(cfg).(connType := value) else old(cfg)
      ensures Valid() <==> r.Fail? || value != ConnectionType.None
    {
      if ps != Stop {
        return Fail(SetValueExecption);
      }
      cfg := cfg.(connType := value);
      r := Pass;
    }

    /** The seven gauge getters: each value is readable only while the pool runs. */
    function ReadGauges(): (r: Result<Gauges>)
      reads this`ps, this`gauges
      ensures r.Ok? <==> ps == Run
      ensures r.Ok? ==> r.value == gauges
      ensures r.Err? ==> r.error == PoolNotRunException
    {
      if ps == Run then Ok(gauges) else Err(PoolNotRunException)
    }

    /**
     * What the getters report in a running pool with current gauges: the list length, the key
     * count, idle among valid among all connectors, exclusive holds among held ones, and the
     * held count equal to the number of connectors with outstanding holders.
     */
    lemma RunningReadings()
      requires Valid() && GaugesCurrent() && ps == Run
      ensures ReadGauges().Ok?
      ensures var g := ReadGauges().value;
        && g.realFromPool == |connList| && g.useFromPool == |useConns|
        && g.spareRealFromPool <= g.potentRealFromPool <= g.realFromPool
        && g.readOnlyFromPool <= g.useRealFromPool <= g.realFromPool
        && g.useRealFromPool == |set i | 0 <= i < |connList| && connList[i].currentRepeat > 0|
    {
      var vs := Views();
      CountBounds(vs);
      InUseMeansHeld(vs);
      assert (set i | 0 <= i < |vs| && vs[i].currentRepeat > 0)
          == (set i | 0 <= i < |connList| && connList[i].currentRepeat > 0);
    }
  }

  /** A new SqlClient pool (maximum 10, minimum 2), started at time now. */
  method StartedPool(now: int) returns (pool: Pool)
    ensures fresh(pool) && pool.Valid() && pool.ps == Run && pool.useConns == map[]
    ensures forall k :: 0 <= k < |pool.connList| ==> fresh(pool.connList[k])
    ensures pool.Views() == CreatedViews(2, now)
    ensures pool.cfg.maxRepeatTimes == 5 && pool.MaxConnectionFromPool() == 50
  {
    var made := Pool.Create(ConnectionType.SqlClient, 10, 2, 1, 0, 1);
    pool := made.value;
    var started := pool.StartServices(now);
  }

  /**
   * A call sequence on which GetConnection grants: a new pool is started, the database
   * closes the first connector's handle, and a High request is handed that connector.
   */
  method GrantAfterHandleClosed(key: Key, now: int) returns (r: Result<Connector?>)
    ensures r.Ok? && r.value != null
  {
    var pool := StartedPool(now);
    pool.HandleClosed(0);
    ghost var vs, m0 := pool.Views(), pool.useConns;
    assert vs[0] == Created(now).(closed := true);
    ghost var idx;
    r, idx := pool.GetConnection(key, High);
    HighGrantsFirstClosed(key, pool.connList, vs, pool.Views(), pool.cfg.maxRepeatTimes, m0, pool.useConns, idx, r);
  }
}
