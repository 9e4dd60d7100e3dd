/** Outcomes of a contract call. A call either completes, or reverts with a
    reason and leaves the contract's state as it was. */
module Results {

  /** A call that returns a value, or reverts with `error`. */
  datatype Result<+T, +E> = Ok(value: T) | Err(error: E)

  /** A call that returns nothing, or reverts with `error`. */
  datatype Outcome<+E> = Pass | Fail(error: E)
}
