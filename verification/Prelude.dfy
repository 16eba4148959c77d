/** The one shared helper: an optional value. A store operation that raises inside its
    transaction is rolled back, so its specification function returns None. */
module Prelude {
  datatype Option<+T> = None | Some(value: T) {
    function GetOr(default: T): T {
      match this
      case Some(v) => v
      case None => default
    }
  }
}
