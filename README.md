# ConnectionPool, modelled in Dafny

A model of a database connection pool written in C#. The pool keeps an ordered list of
connectors (`connList`) and a map from client key to the connector that key holds
(`useConns`). Clients ask for a connection at one of four levels; the pool picks a
connector by the level's rule, grants it (reference counting lets a connector be shared),
and takes it back on release. A timer tests every connector, drops the dead ones and asks
the creation worker for more; the worker fills the list up to the minimum when the service
starts. Gauges summarise the list and the map.

The model is sequential: each method is one step of the source's state machine, and the
pool's threads, locks and timer are replaced by calls made in order.

Modules:

- `PoolTypes` (`types.dfy`): the enumerations, every exception the source raises (under its
  own spelling, e.g. `OccasionExecption`), and the `Outcome`/`Result` wrappers that stand
  for "returns" or "throws".
- `Connectors` (`connector.dfy`): the `Connector` class and its state as a value
  (`ConnView`), with the reference-count invariant `Counted` (`use` exactly when there is a
  holder, holders never exceed grants) and the guard/effect functions of `Repeat` and
  `Remove`.
- `Selection` (`selection.dfy`): the four allocation rules stated on the sequence of
  connector states.
- `Gauges` (`gauges.dfy`): the seven gauges as functions of the list.
- `Prune` (`prune.dfy`): one health-check pass as values. `Plan` gives every position a
  fate (`Kept`, `Dropped`, `Skipped`) and `Survivors` gives the list that is left.
- `Pools` (`pool.dfy`): the `Pool` class. Its invariant `Valid()` says:
  - the family is not `None`;
  - every listed connector is `Counted`, shareable whenever it is allocatable, and has at
    least as many holders as keys pointing to it;
  - the list has no repetitions;
  - every key points into the list;
  - a pool that is not started, or is stopped, is empty.

  Every pool method that requires `Valid()` keeps it, except `SetConnectionType` when it
  sets the None family. Each states how its new list, map, connector states and gauges
  follow from the old ones and the functions above. `GaugesCurrent()` (the gauges agree
  with the list and the map) holds after the steps that recompute the gauges, not after all
  steps; see "## Left out".

Behaviour of the source that the model keeps as written:

- The full test is `==`, so a map already past `MaxConnectionFromPool` is never refused
  (`FullTestIsEquality`).
- The grant step returns null, with no change, when the handle is not Closed. A connector
  the pool has just created is open, so it is never granted (`CreatedIsNeverGranted`). Only
  the pool's own health check closes handles, and it removes the connectors it closes. A
  grant therefore succeeds only after the database closes a handle underneath the pool.
  The model has that environment step, `HandleClosed`, and `GrantAfterHandleClosed` is a
  call sequence (create, start, one handle closed, a High request) that ends in a grant.
- A ReadOnly grant makes its connector unshareable and unallocatable, and keeps it so until
  the key is released. `ExclusiveGrantBlocksOthers` covers the state just after the grant,
  `UnsharedNeverSelected` any later state under the invariant, and
  `AllocationSparesExclusive` and the last clause of `GetConnection` any later request.
  `OnlyReopenedShares` shows that grants, releases, invalidation and the health check keep
  the flag, and only the release's reset (`Reopened`) sets it again. `DisposeConnection`
  changes only the key's own connector, and the creation steps keep the existing list.
- Only the ReadOnly level throws when nothing is eligible; the others return null. Base
  hands level High to the grant step.
- When the key is already in the map, `Repeat` has already counted the grant before the
  failure. The model only ever reaches the grant step with a fresh key, because of the
  admission checks.
- Releasing a key whose connector was invalidated while held updates the flags, fails in
  `Remove`, and leaves the key in the map and the gauges as they were
  (`ReleaseFailsIffInvalidated`).
- The prune loop removes at index `i` and then increments `i`, so the connector that slides
  into place `i` is neither tested nor removed in that pass
  (`SecondOfTwoExpiredSurvives`).
- The spare-capacity accumulator resets to (idle count so far) − `maxRepeatTimes` at every
  connector that is not allocatable, so it can be negative (`SpareCanGoNegative`).
- The top-up demand counts exclusive holds, not the list length. It can therefore push the
  list past `MaxConnection` (`TopUpCanPassMaximum`), and it is negative when the exclusive
  count exceeds the maximum (`TopUpCanBeNegative`).
- The MaxConnection setter accepts a maximum equal to the minimum, which the MinConnection
  setter's own guard would refuse (`MaxAcceptsMinimum`).
- Assigning `Enable := true` while running sets the worker's mode, run flag and demand
  before it throws `PoolNotStopException`.
- Only the guard of `InitConnectionPool` refuses the None family; the ConnectionType setter
  accepts it while stopped. The pool then leaves its invariant (`SetConnectionType`).

## Model

| member | source | states |
|---|---|---|
| `Connectors.InitialState` | ConnectionPool/Connector.cs:16-72 | a new connector is valid, allocatable, shareable, unused, with both counters zero, and keeps the reference-count invariant |
| `Connectors.RepeatGrantsIff` | ConnectionPool/Connector.cs:171-176 | Repeat grants exactly when the connector is valid, allocatable and not held exclusively |
| `Connectors.RepeatKeepsCounted` | ConnectionPool/Connector.cs:177-179 | a grant keeps the invariant, adds exactly one holder and one use, and marks the connector used |
| `Connectors.RemoveKeepsCounted` | ConnectionPool/Connector.cs:187-198 | a release keeps the invariant, takes exactly one holder, leaves the usage count, and sets `use` to "holders remain" |
| `Connectors.RepeatRemoveRoundTrip` | ConnectionPool/Connector.cs:167-198 | Repeat then Remove succeeds and restores the whole state except the usage count, which is one higher |
| `Connectors.FailedIdempotent` | ConnectionPool/Connector.cs:158-162 | invalidation is idempotent, clears both flags, keeps the counters and the invariant, and makes both Repeat and Remove fail with InvalidResourceExecption |
| `Connectors.Connector.constructor` | ConnectionPool/Connector.cs:122-133 | the fields start at their declared defaults with the given creation time and family; the handle starts Closed |
| `Connectors.Connector.Open` | ConnectionPool/Connector.cs:142-145 | only the handle state changes, to open; the connector keeps its reference-count invariant |
| `Connectors.Connector.Close` | ConnectionPool/Connector.cs:150-153 | only the handle state changes, to Closed; the connector keeps its reference-count invariant |
| `Connectors.Connector.SetConnectionFailure` | ConnectionPool/Connector.cs:158-162 | the new state is the old with valid and allocatable cleared; the connector keeps its reference-count invariant |
| `Connectors.Connector.Repeat` | ConnectionPool/Connector.cs:167-182 | the three errors in the source's order with no change on failure; on success one more holder and use, and marked used; the connector keeps its reference-count invariant |
| `Connectors.Connector.Remove` | ConnectionPool/Connector.cs:187-198 | InvalidResourceExecption, then RepeatIsZeroExecption, with no change on failure; on success one holder fewer and `use` recomputed; the connector keeps its reference-count invariant |
| `Connectors.Connector.Dispose` | ConnectionPool/Connector.cs:203-208 | the connector becomes invalid and its handle is released; nothing else changes, and it keeps its reference-count invariant |
| `Selection.EligibleIndicesExact` | ConnectionPool/ConnectionPool.cs:661-677 | the list the None selector builds holds exactly the eligible positions, in increasing order |
| `Selection.SelectedIsEligible` | ConnectionPool/ConnectionPool.cs:615-702 | every selector picks an eligible connector (valid, allocatable, below the usage ceiling), and ReadOnly one that nobody holds |
| `Selection.SelectedNothingIff` | ConnectionPool/ConnectionPool.cs:615-702 | a selector finds nothing exactly when no connector qualifies for its level |
| `Selection.SelectedUnique` | ConnectionPool/ConnectionPool.cs:615-702 | each level's rule determines at most one connector |
| `Selection.HighPrefersUnused` | ConnectionPool/ConnectionPool.cs:629-659 | when some eligible connector has never been used, High picks the first such |
| `Gauges.CountBounds` | ConnectionPool/ConnectionPool.cs:868-889 | idle ≤ valid ≤ all connectors, and exclusively held ≤ held ≤ all |
| `Gauges.InUseMeansHeld` | ConnectionPool/ConnectionPool.cs:880-882 | under the invariant, the in-use count is the number of connectors with holders |
| `Gauges.SpareWhenAllAllocatable` | ConnectionPool/ConnectionPool.cs:884-888 | with every connector allocatable, the spare gauge is the maximum minus the total usage |
| `Gauges.SpareAfterUnallocatable` | ConnectionPool/ConnectionPool.cs:884-888 | after the last unallocatable connector, the spare gauge is the idle count up to it minus maxRepeatTimes minus the later usage, whatever the maximum |
| `Gauges.SpareCanGoNegative` | ConnectionPool/ConnectionPool.cs:884-888 | one exclusively held connector in a pool of maximum 25 gives a spare of −5, not 24 |
| `Prune.DroppedAreRemovable` | ConnectionPool/ConnectionPool.cs:443-456 | the pass drops only connectors that are invalid and unheld once tested |
| `Prune.TestedRemovableAreDropped` | ConnectionPool/ConnectionPool.cs:443-456 | every connector the pass tests and finds invalid and unheld is dropped |
| `Prune.SkipFollowsDrop` | ConnectionPool/ConnectionPool.cs:445-454 | the position after a drop is skipped, and every skip follows a drop |
| `Prune.SurvivorsMembers` | ConnectionPool/ConnectionPool.cs:443-456 | the list left by the pass holds exactly the connectors not dropped, and is no longer than before |
| `Prune.SurvivorsDistinct` | ConnectionPool/ConnectionPool.cs:443-456 | a list without repetitions keeps none after the pass |
| `Prune.AfterPassKeeps` | ConnectionPool/ConnectionPool.cs:841-850 | testing and closing keep the invariant, shareability and both counters, and never revalidate |
| `Prune.SecondOfTwoExpiredSurvives` | ConnectionPool/ConnectionPool.cs:445-454 | of two adjacent dead connectors, the pass drops the first and keeps the second, untested |
| `Pools.GetNumOf` | ConnectionPool/ConnectionPool.cs:815-819 | the result is at most the step, with current plus result at most the maximum, and equal to the step or filling exactly to the maximum |
| `Pools.AllocationGrantsEligible` | ConnectionPool/ConnectionPool.cs:585-702 | a returned connector is the one the rule picks, was eligible (free for ReadOnly), gets one more holder and use, and its key is recorded; ReadOnly leaves it exclusive |
| `Pools.ExclusiveGrantBlocksOthers` | ConnectionPool/ConnectionPool.cs:589-601 | in the state right after a ReadOnly grant, no level's selector can pick that connector |
| `Pools.UnsharedNeverSelected` | ConnectionPool/Enums.cs:34 | in any state satisfying the invariant, a connector that may not be shared is never picked, at any level |
| `Pools.AllocationSparesExclusive` | ConnectionPool/Enums.cs:34 | a later allocation, at any level, neither picks nor changes a connector that may not be shared |
| `Pools.OnlyReopenedShares` | ConnectionPool/ConnectionPool.cs:718 | grants, releases, invalidation and the health check keep the sharing flag; only the release's reset sets it |
| `Pools.HighGrantsFirstClosed` | ConnectionPool/ConnectionPool.cs:585-659 | a High request with a fresh key is handed the first connector when that one is eligible, never used, unheld and Closed |
| `Pools.SelectedPassesRepeat` | ConnectionPool/ConnectionPool.cs:589-601 | under the pool invariant, the connector a selector picks always passes Repeat's checks |
| `Pools.AcquireReleaseRoundTrip` | ConnectionPool/ConnectionPool.cs:708-730 | a grant then a release gives back the key map and the connector's state, the usage count one higher |
| `Pools.AllocationAddsOnlyKey` | ConnectionPool/ConnectionPool.cs:589-601 | an allocation adds at most the requested key to the map |
| `Pools.AdmittedStaysWithinCapacity` | ConnectionPool/ConnectionPool.cs:560-583 | starting within capacity, an admitted request stays within MaxConnectionFromPool keys |
| `Pools.FullTestIsEquality` | ConnectionPool/ConnectionPool.cs:566-567 | a map of exactly MaxConnectionFromPool keys is refused with PoolFullException, and one past it is not |
| `Pools.ReleaseFailsIffInvalidated` | ConnectionPool/ConnectionPool.cs:708-730 | a release fails exactly when the connector was invalidated; the key and holder count then stay, otherwise one holder fewer and the connector shareable and allocatable |
| `Pools.CreatedIsNeverGranted` | ConnectionPool/ConnectionPool.cs:821-838 | the grant step on a freshly created, opened connector returns null and changes nothing |
| `Pools.TopUpDemandBounds` | ConnectionPool/ConnectionPool.cs:462 | the demand is zero with enough idle connectors; otherwise exclusive holds plus demand stay within the maximum, and the demand is the step or fills to it |
| `Pools.TopUpCanPassMaximum` | ConnectionPool/ConnectionPool.cs:462 | a full list with no exclusive holds and too few idle still asks for a whole step |
| `Pools.TopUpCanBeNegative` | ConnectionPool/ConnectionPool.cs:462 | more exclusive holds than the maximum make the demand negative |
| `Pools.GaugesOfEmpty` | ConnectionPool/ConnectionPool.cs:854-866 | an empty pool's gauges are all zero except the spare gauge, which is the maximum |
| `Pools.MinAndSeepKeepBounded` | ConnectionPool/ConnectionPool.cs:120-166 | the MinConnection and SeepConnection guards keep a consistent configuration consistent |
| `Pools.MaxAndKeepRealBoundedIff` | ConnectionPool/ConnectionPool.cs:136-185 | an accepted maximum keeps the configuration consistent exactly when it exceeds both the minimum and the step; an accepted idle reserve exactly when it is at most the minimum |
| `Pools.MaxAcceptsMinimum` | ConnectionPool/ConnectionPool.cs:120-147 | the MaxConnection guard accepts max = min, which leaves min outside the MinConnection guard |
| `Pools.PruneKeepsHold` | ConnectionPool/ConnectionPool.cs:443-456 | every survivor of a pass keeps the listed-connector invariant, and every key still points to a survivor |
| `Pools.Pool.Init` | ConnectionPool/ConnectionPool.cs:414-425 | an empty pool in UnInitialize with the given limits, lifetime 20 and usage ceiling 5 |
| `Pools.Pool.Create` | ConnectionPool/ConnectionPool.cs:363-413 | the None family is refused with ConnTypeExecption; any other gives a valid, empty, uninitialised pool with the given limits, static mode, no demand, the worker not running and zero gauges |
| `Pools.Pool.ComputeGauges` | ConnectionPool/ConnectionPool.cs:852-889 | the loop computes the gauges of the current list and map |
| `Pools.Pool.UpdatePoolState` | ConnectionPool/ConnectionPool.cs:852-896 | the gauges become those of the current list and map, and nothing else changes |
| `Pools.Pool.ScanReadOnly` | ConnectionPool/ConnectionPool.cs:615-627 | the first exclusively eligible connector, or -1 |
| `Pools.Pool.ScanHigh` | ConnectionPool/ConnectionPool.cs:629-657 | the first eligible connector of least usage, or -1 |
| `Pools.Pool.ScanNone` | ConnectionPool/ConnectionPool.cs:663-676 | the middle of the eligible list, or -1 |
| `Pools.Pool.ScanBase` | ConnectionPool/ConnectionPool.cs:679-700 | the first eligible connector of greatest usage, or -1 |
| `Pools.Pool.GrantConnection` | ConnectionPool/ConnectionPool.cs:585-613 | null with no change for a missing connector; otherwise the grant effect on it, and the gauges recomputed on every path |
| `Pools.Pool.GrantClosed` | ConnectionPool/ConnectionPool.cs:595-601 | the grant effect on a connector whose handle is Closed |
| `Pools.Pool.RecordGrant` | ConnectionPool/ConnectionPool.cs:596-601 | the key is recorded, and ReadOnly makes the connector exclusive |
| `Pools.Pool.RecordKey` | ConnectionPool/ConnectionPool.cs:596 | the map gains exactly key → connector |
| `Pools.Pool.MakeExclusive` | ConnectionPool/ConnectionPool.cs:597-601 | the connector becomes unallocatable and unshareable |
| `Pools.Pool.GrantAt` | ConnectionPool/ConnectionPool.cs:585-613 | the grant effect at one position of the list, every other connector unchanged |
| `Pools.Pool.GetConnectionByReadOnly` | ConnectionPool/ConnectionPool.cs:615-627 | the allocation effect of the ReadOnly rule, OccasionExecption when nothing is free |
| `Pools.Pool.GetConnectionByHigh` | ConnectionPool/ConnectionPool.cs:629-659 | the allocation effect of the High rule, null when nothing is eligible |
| `Pools.Pool.GetConnectionByNone` | ConnectionPool/ConnectionPool.cs:661-677 | the allocation effect of the None rule, null when nothing is eligible |
| `Pools.Pool.GetConnectionByBase` | ConnectionPool/ConnectionPool.cs:679-702 | the allocation effect of the Base rule granted at level High, null when nothing is eligible |
| `Pools.Pool.GetConnection` | ConnectionPool/ConnectionPool.cs:555-583 | the three admission errors in order with no change; otherwise the level's allocation effect; capacity is kept; a connector that may not be shared is left exactly as it was |
| `Pools.Pool.Allocate` | ConnectionPool/ConnectionPool.cs:571-581 | the dispatch to the level's selector, Base for any other level; a connector that may not be shared is left exactly as it was |
| `Pools.Pool.Reopen` | ConnectionPool/ConnectionPool.cs:718-721 | the connector becomes shareable, and allocatable again if it is still valid |
| `Pools.Pool.ReleaseKey` | ConnectionPool/ConnectionPool.cs:722-723 | Remove's outcome; on success one holder fewer and the key gone, otherwise no change |
| `Pools.Pool.ReleaseConnection` | ConnectionPool/ConnectionPool.cs:717-729 | the release effect, with the gauges recomputed only after a successful Remove |
| `Pools.Pool.DisposeConnection` | ConnectionPool/ConnectionPool.cs:708-730 | PoolNotRunException outside Run and NotKeyExecption for an unknown key, both with no change; otherwise the release effect on the key's connector alone |
| `Pools.Pool.HandleClosed` | ConnectionPool/ConnectionPool.cs:591-592 | the database closes one listed handle; only that connector's handle state changes and the invariant holds |
| `Pools.StartedPool` | ConnectionPool/ConnectionPool.cs:484-511 | a new pool started from UnInitialize runs with its minimum of fresh, opened connectors and no keys |
| `Pools.GrantAfterHandleClosed` | ConnectionPool/ConnectionPool.cs:555-613 | after one handle is closed underneath a started pool, GetConnection returns a connector rather than null or an error |
| `Pools.Pool.TestConnection` | ConnectionPool/ConnectionPool.cs:841-850 | the connector is invalidated exactly at its usage ceiling, past its lifetime or with a closed handle |
| `Pools.Pool.PruneConnectors` | ConnectionPool/ConnectionPool.cs:443-456 | the list becomes the survivors of the plan, each old connector's state is what its fate makes it, and the invariant holds |
| `Pools.Pool.PrunedValid` | ConnectionPool/ConnectionPool.cs:443-456 | the pool invariant holds after any pass that follows the plan |
| `Pools.Pool.PruneLoop` | ConnectionPool/ConnectionPool.cs:445-455 | the in-place loop leaves the survivors of the plan and the fated states |
| `Pools.Pool.PruneIteration` | ConnectionPool/ConnectionPool.cs:447-454 | one iteration handles one position and moves past the one that slides into its place |
| `Pools.Pool.PruneStep` | ConnectionPool/ConnectionPool.cs:447-454 | test one connector, and close and remove it exactly when it is invalid and unheld |
| `Pools.Pool.TimerElapsed` | ConnectionPool/ConnectionPool.cs:433-473 | a tick while the worker is busy changes nothing; otherwise the pass, the gauges, the top-up demand, and dynamic mode when the demand is not zero |
| `Pools.Pool.HealthCheck` | ConnectionPool/ConnectionPool.cs:443-459 | the pass, then gauges current for the pruned list |
| `Pools.Pool.SetTopUp` | ConnectionPool/ConnectionPool.cs:461-468 | the demand is the top-up demand of the gauges, and the mode turns dynamic when it is not zero |
| `Pools.Pool.CreateConnection` | ConnectionPool/ConnectionPool.cs:821-838 | the three families give a fresh, opened connector created now; any other gives ArgumentException |
| `Pools.Pool.AddConnector` | ConnectionPool/ConnectionPool.cs:764-769 | one fresh, opened connector is appended and nothing else changes |
| `Pools.Pool.WorkerStaticPass` | ConnectionPool/ConnectionPool.cs:744-803 | the list is extended with fresh connectors up to the demand (not shortened), the pool runs, the gauges are current and the demand is cleared |
| `Pools.Pool.FillTo` | ConnectionPool/ConnectionPool.cs:762-773 | the static loop appends fresh connectors until the list reaches the target |
| `Pools.Pool.Park` | ConnectionPool/ConnectionPool.cs:793-805 | the gauges are recomputed and the demand cleared before the worker parks |
| `Pools.Pool.WorkerDynamicPass` | ConnectionPool/ConnectionPool.cs:776-786 | in a running pool in dynamic mode (the state a parked tick with a non-zero demand leaves), exactly the demanded number of fresh connectors is appended |
| `Pools.Pool.StartServices` | ConnectionPool/ConnectionPool.cs:484-511 | mode, run flag and demand are set first; from UnInitialize or Stop the pool runs with the minimum of fresh connectors, otherwise PoolNotStopException with the list unchanged |
| `Pools.Pool.DisposeAll` | ConnectionPool/ConnectionPool.cs:538-539 | every listed connector is disposed and otherwise unchanged |
| `Pools.Pool.StopServices` | ConnectionPool/ConnectionPool.cs:518-549 | PoolNotRunException outside Run, ResCallBackException with keys out unless needs, both with no change; otherwise stopped, empty, every old connector disposed, gauges of an empty pool |
| `Pools.Pool.Shutdown` | ConnectionPool/ConnectionPool.cs:534-548 | the run flag is cleared, every connector disposed, and the pool stopped and empty |
| `Pools.Pool.ClearList` | ConnectionPool/ConnectionPool.cs:540-543 | the list is emptied, the state is Stop and the gauges are those of an empty pool |
| `Pools.Pool.SetEnable` | ConnectionPool/ConnectionPool.cs:49-68 | SetValueExecption outside Run and Stop with no change; otherwise true has the whole effect of StartServices (a start from Stop fills a keyless pool with fresh connectors; a start while running changes only mode, run flag and demand) and false the whole effect of a stop that keeps outstanding keys (the empty pool's gauges and every old connector disposed, or no change on refusal) |
| `Pools.Pool.Dispose` | ConnectionPool/ConnectionPool.cs:905-913 | a running pool without keys ends stopped and empty, with the empty pool's gauges and every old connector disposed; any other pool is unchanged and no error escapes |
| `Pools.Pool.SetMinConnection` | ConnectionPool/ConnectionPool.cs:120-131 | the minimum changes exactly when the guard accepts, else ParameterBoundExecption with no change |
| `Pools.Pool.SetMaxConnection` | ConnectionPool/ConnectionPool.cs:136-147 | the maximum changes exactly when the guard accepts, else ParameterBoundExecption with no change |
| `Pools.Pool.SetSeepConnection` | ConnectionPool/ConnectionPool.cs:155-166 | the step changes exactly when the guard accepts, else ParameterBoundExecption with no change |
| `Pools.Pool.SetKeepRealConnection` | ConnectionPool/ConnectionPool.cs:174-185 | the idle reserve changes exactly when the guard accepts, else ParameterBoundExecption with no change |
| `Pools.Pool.SetExist` | ConnectionPool/ConnectionPool.cs:200-210 | the lifetime changes only in Stop, else PoolNotStopException with no change |
| `Pools.Pool.SetMaxRepeatTimes` | ConnectionPool/ConnectionPool.cs:219-229 | any non-negative ceiling is taken in any state, else ParameterBoundExecption with no change |
| `Pools.Pool.SetConnectionType` | ConnectionPool/ConnectionPool.cs:73-84 | the family changes only in Stop, else SetValueExecption; the invariant survives exactly when the result is not the None family |
| `Pools.Pool.ReadGauges` | ConnectionPool/ConnectionPool.cs:243-346 | the gauges are readable exactly in Run, else PoolNotRunException |
| `Pools.Pool.RunningReadings` | ConnectionPool/ConnectionPool.cs:243-346 | in a running pool with current gauges, the getters report the list length and key count, idle ≤ valid ≤ all, exclusive ≤ held ≤ all, and held equal to the connectors with holders |

## Left out

- Threads, locks and signalling have no counterpart. The execution model does not include
  the creation worker's `Join`/`Interrupt` loop, the `Thread.Sleep` polling in start and
  stop, `lock`, the timer's start/stop and `Interval`, or the `_isThreadCheckRun` flag.
  The worker's sequential effect is modelled instead: a static pass inside
  `StartServices`, a dynamic pass as `WorkerDynamicPass`, each timer tick as
  `TimerElapsed`.
- TimerElapsed: a busy tick is modelled as changing nothing, but that holds only for the
  modelled fields. The source returns after stopping the timer and setting
  `_isThreadCheckRun`, so no later tick fires. A later stop then polls `_isThreadCheckRun`
  forever, so `Enable := false` and `Dispose` never return. After a dynamic pass every tick
  is busy (see the StartServices line below). The model still allows a parked tick, a stop
  and a dispose after `WorkerDynamicPass`, so those sequences are not faithful.
- TimerElapsed: the boolean `workerParked` stands for the test that the worker thread is
  in WaitSleepJoin.
- StartServices: restarting from Stop assumes the worker is parked in the join that
  follows a static pass. After a dynamic pass the source's worker never parks there: with
  its counter at zero it keeps looping. A restart then reaches the worker's other join,
  whose handler rethrows, and the thread ends. That path is not modelled.
- StartServices: the asynchronous overload differs only in not waiting for the worker, so
  it is the same model.
- WorkerDynamicPass: requires a non-negative demand. The source counts down with 32-bit
  `int`, so a negative demand wraps through `int.MinValue` before it reaches zero. That
  behaviour is not modelled.
- 32-bit overflow in general: integers are unbounded, including the counters and
  `maxConnection * maxRepeatTimes`.
- The transient `Initialize` state the worker sets before its loop is not modelled. The
  pool moves directly to Run.
- `GetInstance` and its double-checked locking are global-instance plumbing. `Create` is
  the private constructor plus `InitConnectionPool`.
- ADO.NET has no counterpart. The model does not include `DbConnection` or the null handle
  `CreateConnection` passes. The handle is reduced to an abstract Closed/open flag, and
  `Dispose` to a `disposed` flag.
- `DateTime.Now`, `RunTime` and the tick arithmetic are replaced by a caller-supplied
  integer `now` in minutes. One `now` serves a whole pass.
- `Tag` and `ConnectionString` are opaque payloads with no behaviour.
- `Thread.Abort` in the pool's `Dispose` is not modelled. The failure of the inner stop is
  swallowed as in the source.
- `GetConnection(key)` is `GetConnection(key, None)`, so it has no member of its own.
- The `Enable` and `State` getters only read `ps`.
- `MaxConnectionFromPool` is the product of the two limits; it appears in the contracts.
- RunningReadings: the gauges are current only after a step that recomputes them
  (a grant step, a successful release, the health check, a static pass, a start, a stop).
  They stay stale after `WorkerDynamicPass`, whose loop never calls UpdatePoolState, after a
  failed release, and after a limit setter. The lemma assumes
  `GaugesCurrent()`, and it says nothing about stale readings.
- SetConnectionType: setting the None family while stopped leaves the pool outside
  `Valid()`, and every later member requires `Valid()`. What follows in the source is not
  modelled: a start runs the worker, whose `CreateConnection` throws ArgumentException on
  the worker thread.
- Keys are strings, so there is no null key. In the source a null key makes the
  `Hashtable` lookup throw ArgumentNullException. In GetConnection that happens after the
  state and capacity checks; in DisposeConnection, after the Run check. That error path is
  not modelled.
- `HandleClosed` is not a method of the source. It stands for the database closing a
  handle underneath the pool, the only way a grant can succeed in the source.
