/** JavaScript values the other modules need: optional arguments, failures
    reported by `throw`, and the truthiness test `!s` on a string. */
module JsValues {

  /** A missing argument. Where a truthiness test reads it (`Truthy`), `None`
      stands for `null` or `undefined`, which that test treats alike; where a
      default parameter reads it (`OrDefault`), `None` stands for `undefined`
      or an omitted argument only. */
  datatype Option<+T> = None | Some(value: T)

  /** The outcome of a JavaScript operation that either returns or throws. */
  datatype Result<+R, +E> = Success(value: R) | Failure(error: E)

  /** The outcome of a JavaScript operation that returns nothing or throws. */
  datatype Outcome<+E> = Pass | Fail(error: E)

  /** `!s` is false: the string is present and not empty. */
  predicate Truthy(s: Option<string>)
  {
    s.Some? && s.value != ""
  }

  /** The value a JavaScript default parameter takes: the argument, unless it is `undefined`. */
  function OrDefault(arg: Option<string>, fallback: string): (r: string)
    ensures arg.Some? ==> r == arg.value
    ensures arg.None? ==> r == fallback
  {
    match arg
    case Some(s) => s
    case None => fallback
  }
}
