/** Shared vocabulary of the model: the Python exceptions the modelled code
    can raise, a result type for operations that may raise them, and the
    truncating `int()` conversion the synthesizer applies to floats. */
module Base {

  /** The exceptions that chippy's synthesizer and MML parser can raise. */
  datatype Error =
    | ZeroDivisionError   // a `/` or `%` by zero
    | IndexError          // indexing an empty lookup table
    | StopIteration       // `next()` on an exhausted stream
    | OverflowError       // a value that does not fit a signed 16-bit array slot
    | ValueError          // a negative stop argument to `itertools.islice`
    | StructError         // a `struct.pack` field out of range
    | AttributeError      // `.append` on `None`

  datatype Result<T> = Ok(value: T) | Err(error: Error)

  datatype Option<T> = None | Some(value: T)

  /** Python's `int(x)` on a float: truncation toward zero. */
  function Trunc(x: real): (n: int)
    ensures 0.0 <= x ==> 0 <= n && n as real <= x < n as real + 1.0
    ensures x < 0.0 ==> n <= 0 && n as real - 1.0 < x <= n as real
  {
    if x >= 0.0 then x.Floor else -((-x).Floor)
  }

  /** The number of iterations of `range(1, n + 1)` (or of `range(n)`). */
  function Count(n: int): (c: nat)
    ensures c as int >= n && (n <= 0 ==> c == 0) && (n >= 0 ==> c == n)
  {
    if n > 0 then n else 0
  }

  /** Truncation is monotone. */
  lemma TruncMonotone(x: real, y: real)
    requires x <= y
    ensures Trunc(x) <= Trunc(y)
  {
  }

  /** Truncating a sum of two non-negative values loses at most one unit
      more than truncating the two parts separately. */
  lemma TruncOfSum(x: real, y: real)
    requires 0.0 <= x && 0.0 <= y
    ensures Trunc(x) + Trunc(y) <= Trunc(x + y) <= Trunc(x) + Trunc(y) + 1
  {
  }
}
