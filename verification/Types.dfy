/** Vocabulary shared by every module: outcomes, sides, instants and the engine's tolerance.
    Prices, quantities and notionals are exact `real`s; instants are integer nanoseconds since the epoch. */
module Types {

  datatype Option<+T> = None | Some(value: T)

  /** The outcome of an operation that the source reports through `Result<T>`. */
  datatype Result<+T, +E> = Ok(value: T) | Err(error: E)

  type Timestamp = int
  type Duration = int

  const INT64_MIN: int := -0x8000_0000_0000_0000
  const INT64_MAX: int := 0x7FFF_FFFF_FFFF_FFFF

  /** The sentinel for "not stamped yet". */
  const NO_TIMESTAMP: Timestamp := INT64_MIN

  /** No 64-bit instant lies below the sentinel, so "different from it" and "above it" agree. */
  predicate IsSet(t: Timestamp) {
    t > NO_TIMESTAMP
  }

  /** The quantity tolerance that the venue, the order book and the executor all use. */
  const TOLERANCE: real := 0.000000001

  datatype Side = Buy | Sell

  function SignOf(side: Side): real {
    if side == Buy then 1.0 else -1.0
  }

  function Min(a: real, b: real): real {
    if b < a then b else a
  }

  function Max(a: real, b: real): real {
    if a < b then b else a
  }

  function Abs(a: real): real {
    if a < 0.0 then -a else a
  }

  function MaxInt(a: int, b: int): int {
    if a < b then b else a
  }

  /** Moves a price by `bps` basis points in the given direction. */
  function ApplyBps(price: real, bps: real, direction: real): real {
    price * (1.0 + direction * bps * 0.0001)
  }
}
