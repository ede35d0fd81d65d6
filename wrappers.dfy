/** Rust's `Option<T>`, with the one combinator the game uses. */
module Wrappers {

  datatype Option<+T> = None | Some(value: T) {

    /** `Option::unwrap_or`: the stored value, or `default` when absent. */
    function UnwrapOr(default: T): T {
      match this
      case Some(v) => v
      case None => default
    }
  }
}
