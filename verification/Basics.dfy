/** What the modules share. Times are nanoseconds. */
module Basics {
  const SECOND := 1_000_000_000

  datatype Option<+T> = None | Some(value: T) {
    function GetOr(default: T): T {
      match this
      case Some(v) => v
      case None => default
    }
  }
}
