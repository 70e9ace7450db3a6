/** Constants and error codes of the session protocol, shared by every component. */
module Common {
  datatype Option<+T> = None | Some(value: T)

  const MAX_OPERATIONS: nat := 256
  const MAX_PENDING_CALLS: nat := 256

  const INVALID_FRAME := -32600
  const INTERNAL := -32603
  const UNKNOWN_SESSION := -32001
  const NOT_CONNECTED := -32002
  const BUSY := -32003
  const NOT_RUNNING := -32004
  const UNKNOWN_HOST := -32014
  const FORWARD_LOST := -32015
  const UNSUPPORTED_TRACE := -32016

  /** Wrap-around of Go's uint64 arithmetic. */
  function U64(x: int): nat { x % 0x1_0000_0000_0000_0000 }
}
