/** What several components share. */
module Basics {
  /** The largest integer that a JavaScript number is sure to hold exactly. */
  const MAX_SAFE_INTEGER := 0x1F_FFFF_FFFF_FFFF

  datatype Option<+T> = None | Some(value: T) {
    function OrElse(other: Option<T>): Option<T> {
      if Some? then this else other
    }
  }
}
