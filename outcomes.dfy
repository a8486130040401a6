/** Results shared by the collection contract and the conformance harness. */
module Outcomes {

  /** Swift's `Optional`, as returned by `first`, `last`, `popFirst()` and `popLast()`. */
  datatype Option<+T> = None | Some(value: T)

  /** What one collection operation does: hand back a value, stop the process
      (a Swift trap, what `expectCrashLater()` waits for), or report a
      recoverable contract violation (what `expectFailure { ... }` waits for). */
  datatype Outcome<+T> = Returns(value: T) | Traps | ReportsFailure {

    predicate IsMisuse() {
      !Returns?
    }

    /** The same misuse, carried over to an outcome of another type. */
    function PropagateMisuse<U>(): (r: Outcome<U>)
      requires IsMisuse()
      ensures r.IsMisuse() && (r.Traps? <==> Traps?)
    {
      if Traps? then Traps else ReportsFailure
    }
  }
}
