/** Small value types shared by every part of the model. */
module Outcomes {
  datatype Option<+T> = None | Some(value: T)

  datatype Result<+T, +E> = Ok(value: T) | Err(error: E)

  type Byte = b: int | 0 <= b < 256

  /** JavaScript's Number.MAX_SAFE_INTEGER. */
  const MAX_SAFE_INTEGER := 9_007_199_254_740_991

  predicate SafeInteger(n: int) {
    -MAX_SAFE_INTEGER <= n <= MAX_SAFE_INTEGER
  }

  /** SQL's COALESCE on two columns, the second never null. */
  function Coalesce<T>(stored: Option<T>, fallback: T): Option<T> {
    if stored.Some? then stored else Some(fallback)
  }
}
