/** Errors as the concurrent parts pass them on. */
module Faults {
  type Fault = nat

  /** io.ErrClosedPipe. */
  const CLOSED_PIPE: Fault := 0
}
