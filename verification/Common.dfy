/** Small shared vocabulary: optional values, outcomes and the identifiers every module uses. */
module Common {
  datatype Option<+T> = None | Some(value: T)

  /** A value, or the reason an operation raised. Nothing is written when it raised. */
  datatype Result<+T, +E> = Ok(value: T) | Err(error: E)

  /** A UUID. Fresh ones are drawn from a counter that only grows. */
  type Id = nat

  /** A point in time, in microseconds. */
  type Time = int

  datatype Category = Spot | Linear

  datatype Side = Buy | Sell

  datatype Environment = Mainnet | Testnet
}
