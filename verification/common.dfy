/** Shared vocabulary of the booking and package-purchase model: optional
    values, success/failure results, day numbers and JavaScript truthiness. */
module Common {

  /** An optional field of a stored document (`undefined` or absent is None). */
  datatype Option<+T> = None | Some(value: T)

  /** The outcome of a service call that either returns a value or throws. */
  datatype Result<+T, +E> = Success(value: T) | Failure(error: E)

  /** The outcome of a validation hook that returns nothing or throws. */
  datatype Outcome<+E> = Pass | Fail(error: E)

  /** A calendar day, counted from 1970-01-01 (day 0, a Thursday). Time of day
      is not modelled. */
  type Day = int

  /** JavaScript truthiness of an optional number: `undefined` and `0` are
      falsy (NaN never arises from stored fields here). */
  predicate Truthy(o: Option<int>)
  {
    o.Some? && o.value != 0
  }

  /** The value of the JavaScript expression `o || fallback`. */
  function OrElse(o: Option<int>, fallback: int): int
  {
    if Truthy(o) then o.value else fallback
  }
}
