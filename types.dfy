/** Enumerations, error kinds and result wrappers shared by the connector and the pool. */
module PoolTypes {

  /** Lifecycle of the pool service. */
  datatype PoolState = UnInitialize | Initialize | Run | Stop

  /** The level a client asks for when it requests a connection. */
  datatype ConnectionLevel = ReadOnly | High | None | Base

  /** The family of backing connection; `None` is the "no family" sentinel. */
  datatype ConnectionType = None | Odbc | OleDb | SqlClient

  /** Working mode of the creation worker. */
  datatype CreateThreadMode = StaticCreateMode | DynamicCreateMode

  /** Every exception the pool and its connectors raise, under the source's own names. */
  datatype Error =
    | StateException               // GetConnection outside Run
    | PoolFullException            // the in-use map reached MaxConnectionFromPool
    | KeyExecption                 // the key already holds a connection
    | OccasionExecption            // no connection could be granted
    | NotKeyExecption              // release of an unknown key
    | PoolNotRunException          // the pool is not running
    | PoolNotStopException         // Start while running or initialising; Exist set outside Stop
    | ResCallBackException         // Stop with outstanding allocations
    | ParameterBoundExecption      // configuration value out of bounds
    | ConnTypeExecption            // connection family is the None sentinel
    | SetValueExecption            // Enable assigned outside Run and Stop
    | InvalidResourceExecption     // connector has been invalidated
    | AllocationExecption          // connector is not allocatable
    | AllocationAndRepeatExecption // connector is held and may not be shared
    | RepeatIsZeroExecption        // release of a connector nobody holds
    | ArgumentException            // a connector of the None family was requested

  /** Success or failure of an operation that returns nothing. */
  datatype Outcome = Pass | Fail(error: Error)

  /** Success with a value, or failure. */
  datatype Result<+T> = Ok(value: T) | Err(error: Error)
}
