/** Values that stand in for PHP's `null` and for the two ways a PHP call can end:
    by returning a value or by throwing an exception. */
module Outcomes {

  /** A value that may be PHP `null` (an argument left at its default). */
  datatype Option<+T> = None | Some(value: T)

  /** A thrown PHP exception. Its class and message come from code this model
      does not see (the transport, the upload service, the result converters),
      so it is kept opaque: the model only ever passes it on or compares it. */
  type Exception(==)

  /** How a call ended: it returned `value`, or it threw `exception`. */
  datatype Outcome<+T> = Returned(value: T) | Threw(exception: Exception)
}
