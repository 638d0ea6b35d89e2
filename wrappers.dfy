/** Option and Result, the two wrappers the Rust code uses for absent values and errors. */
module Wrappers {

  datatype Option<+T> = None | Some(value: T) {

    /** `Option::unwrap_or`: the carried value, or `default` when absent. */
    function UnwrapOr(default: T): T {
      if Some? then value else default
    }

    /** `Option::or`: this option if it carries a value, otherwise `other`. */
    function Or(other: Option<T>): Option<T> {
      if Some? then this else other
    }
  }

  datatype Result<+T, +E> = Ok(value: T) | Err(error: E)
}
