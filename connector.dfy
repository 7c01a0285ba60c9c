/**
 * One pooled connector: a wrapper around a backing connection that tracks
 * validity, allocatability, its multiplex (reference) count and its lifetime
 * usage count.  The backing handle is abstracted to its Open/Closed state.
 */
module Connectors {
  import opened PoolTypes

  /** The observable state of one connector, as a value. */
  datatype ConnView = ConnView(
    enable: bool,          // false once the connector has been invalidated
    use: bool,             // someone currently holds it
    canAllocation: bool,   // it may be handed out
    isRepeat: bool,        // it may be shared by several holders
    currentRepeat: nat,    // number of outstanding holders
    useTimes: nat,         // number of grants over its lifetime
    createTime: int,       // creation time, in minutes
    closed: bool)          // the backing handle reports Closed

  /** The reference-count invariant every connector keeps. */
  predicate Counted(v: ConnView)
  {
    v.use == (v.currentRepeat != 0) && v.currentRepeat <= v.useTimes
  }

  /** A connector as its constructor leaves it; the new handle is still Closed. */
  function Initial(createTime: int): ConnView
  {
    ConnView(true, false, true, true, 0, 0, createTime, true)
  }

  /** The error Repeat raises, checked in the source's order; Pass if it grants. */
  function RepeatCheck(v: ConnView): Outcome
  {
    if !v.enable then Fail(InvalidResourceExecption)
    else if !v.canAllocation then Fail(AllocationExecption)
    else if v.use && !v.isRepeat then Fail(AllocationAndRepeatExecption)
    else Pass
  }

  /** The state after a successful Repeat. */
  function Repeated(v: ConnView): ConnView
  {
    v.(currentRepeat := v.currentRepeat + 1, useTimes := v.useTimes + 1, use := true)
  }

  /** The error Remove raises, checked in the source's order; Pass if it releases. */
  function RemoveCheck(v: ConnView): Outcome
  {
    if !v.enable then Fail(InvalidResourceExecption)
    else if v.currentRepeat == 0 then Fail(RepeatIsZeroExecption)
    else Pass
  }

  /** The state after a successful Remove. */
  function Removed(v: ConnView): ConnView
    requires v.currentRepeat > 0
  {
    v.(currentRepeat := v.currentRepeat - 1, use := v.currentRepeat - 1 != 0)
  }

  /** The state after SetConnectionFailure. */
  function Failed(v: ConnView): ConnView
  {
    v.(enable := false, canAllocation := false)
  }

  /** A new connector starts valid, allocatable, shareable, unused and with zero counters. */
  lemma InitialState(t: int)
    ensures var v := Initial(t);
      v.enable && v.canAllocation && v.isRepeat && !v.use
      && v.useTimes == 0 && v.currentRepeat == 0 && v.closed && Counted(v)
  {
  }

  /** Repeat grants exactly when the connector is valid, allocatable and not held exclusively. */
  lemma RepeatGrantsIff(v: ConnView)
    ensures RepeatCheck(v) == Pass <==> v.enable && v.canAllocation && !(v.use && !v.isRepeat)
  {
  }

  /** A successful Repeat keeps the invariant, adds one holder and one use, and marks the connector used. */
  lemma RepeatKeepsCounted(v: ConnView)
    requires Counted(v)
    ensures Counted(Repeated(v))
    ensures Repeated(v).currentRepeat == v.currentRepeat + 1
    ensures Repeated(v).useTimes == v.useTimes + 1 && Repeated(v).use
  {
  }

  /** A successful Remove keeps the invariant and never lowers the usage count. */
  lemma RemoveKeepsCounted(v: ConnView)
    requires Counted(v) && RemoveCheck(v) == Pass
    ensures Counted(Removed(v))
    ensures Removed(v).currentRepeat == v.currentRepeat - 1
    ensures Removed(v).useTimes == v.useTimes
    ensures Removed(v).use <==> Removed(v).currentRepeat > 0
  {
  }

  /** Repeat then Remove restores the whole state except the usage count, which stays one higher. */
  lemma RepeatRemoveRoundTrip(v: ConnView)
    requires Counted(v) && RepeatCheck(v) == Pass
    ensures RemoveCheck(Repeated(v)) == Pass
    ensures Removed(Repeated(v)) == v.(useTimes := v.useTimes + 1)
  {
  }

  /** Invalidation is idempotent, one-way, and leaves the counters alone. */
  lemma FailedIdempotent(v: ConnView)
    ensures Failed(Failed(v)) == Failed(v)
    ensures !Failed(v).enable && !Failed(v).canAllocation
    ensures Failed(v).currentRepeat == v.currentRepeat && Failed(v).useTimes == v.useTimes
    ensures Counted(v) ==> Counted(Failed(v))
    ensures RepeatCheck(Failed(v)) == Fail(InvalidResourceExecption)
    ensures RemoveCheck(Failed(v)) == Fail(InvalidResourceExecption)
  {
  }

  class Connector {
    var enable: bool
    var use: bool
    var canAllocation: bool
    var createTime: int
    var useTimes: nat
    var currentRepeat: nat
    var isRepeat: bool
    var connType: ConnectionType
    var closed: bool       // abstract state of the backing handle
    var disposed: bool     // the backing handle has been released

    function View(): ConnView
      reads this
    {
      ConnView(enable, use, canAllocation, isRepeat, currentRepeat, useTimes, createTime, closed)
    }

    ghost predicate Valid()
      reads this
    {
      Counted(View())
    }

    /** Both source constructors: the creation time is given by the caller. */
    constructor (connType: ConnectionType, createTime: int)
      ensures Valid() && View() == Initial(createTime)
      ensures this.connType == connType && !disposed
    {
      enable, use, canAllocation := true, false, true;
      useTimes, currentRepeat, isRepeat := 0, 0, true;
      this.createTime, this.connType := createTime, connType;
      closed, disposed := true, false;
    }

    /** Opens the backing handle. */
    method Open()
      modifies this
      ensures View() == old(View()).(closed := false)
      ensures old(Valid()) ==> Valid()
      ensures connType == old(connType) && disposed == old(disposed)
    {
      closed := false;
    }

    /** Closes the backing handle. */
    method Close()
      modifies this
      ensures View() == old(View()).(closed := true)
      ensures old(Valid()) ==> Valid()
      ensures connType == old(connType) && disposed == old(disposed)
    {
      closed := true;
    }

    /** Invalidates the connector. */
    method SetConnectionFailure()
      modifies this
      ensures View() == Failed(old(View()))
      ensures old(Valid()) ==> Valid()
      ensures connType == old(connType) && disposed == old(disposed)
    {
      enable := false;
      canAllocation := false;
    }

    /** Grants the connector to one more holder, or fails without change. */
    method Repeat() returns (r: Outcome)
      modifies this
      ensures r == RepeatCheck(old(View()))
      ensures View() == if r.Pass? then Repeated(old(View())) else old(View())
      ensures old(Valid()) ==> Valid()
      ensures connType == old(connType) && disposed == old(disposed)
    {
      if !enable {
        return Fail(InvalidResourceExecption);
      }
      if !canAllocation {
        return Fail(AllocationExecption);
      }
      if use && !isRepeat {
        return Fail(AllocationAndRepeatExecption);
      }
      currentRepeat := currentRepeat + 1;
      useTimes := useTimes + 1;
      use := true;
      r := Pass;
    }

    /** Takes one holder back, or fails without change. */
    method Remove() returns (r: Outcome)
      modifies this
      ensures r == RemoveCheck(old(View()))
      ensures View() == if r.Pass? then Removed(old(View())) else old(View())
      ensures old(Valid()) ==> Valid()
      ensures connType == old(connType) && disposed == old(disposed)
    {
      if !enable {
        return Fail(InvalidResourceExecption);
      }
      if currentRepeat == 0 {
        return Fail(RepeatIsZeroExecption);
      }
      currentRepeat := currentRepeat - 1;
      use := currentRepeat != 0;
      r := Pass;
    }

    /** Releases the backing handle and invalidates the connector. */
    method Dispose()
      modifies this
      ensures View() == old(View()).(enable := false)
      ensures old(Valid()) ==> Valid()
      ensures disposed && connType == old(connType)
    {
      enable := false;
      disposed := true;
    }
  }
}
