/** Optional values and the Python exceptions the load tester can raise. */
module Wrappers {

  datatype Option<+T> = None | Some(value: T)

  /** The exceptions the modelled code raises instead of returning a value. */
  datatype PyError =
    | ZeroDivisionError   // a division by a zero count or duration
    | StatisticsError     // statistics.mean of an empty list
    | ValueError          // range() called with a zero step

  /** Either the value an expression evaluates to, or the exception it raises. */
  datatype Result<+T> = Ok(value: T) | Raised(error: PyError)
}
