/** Small value types shared by every namespace of the application router. */
module Common {

  /** A value that may be absent: an optional input field, a JavaScript
      `null`/`undefined`, or the result of a lookup that found nothing. */
  datatype Option<+T> = None | Some(value: T) {
    /** The value, or `default` when absent (JavaScript's `x ?? default`). */
    function GetOr(default: T): T {
      match this
      case Some(v) => v
      case None => default
    }
  }

  /** A JavaScript `Date`, as milliseconds since the epoch. The clock itself is
      not modelled: every handler that stamps a record receives `now`. */
  type Time = int

  /** The `difficulty` enumeration accepted by the input schemas. */
  datatype Difficulty = Easy | Medium | Hard
}
