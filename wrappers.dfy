/** Rust's `Option` and `Result`, with the two combinators that `color_from_arg`
    chains (`and_then` and `unwrap_or_else`) and `Result::ok`. */
module Wrappers {

  datatype Option<+T> = None | Some(value: T) {

    /** `Option::and_then`: feeds the held value to `f`, or stays `None`. */
    function AndThen<U>(f: T -> Option<U>): Option<U> {
      match this
      case None => None
      case Some(v) => f(v)
    }

    /** `Option::unwrap_or_else`: the held value, or what the closure yields. */
    function UnwrapOrElse(f: () -> T): T {
      match this
      case None => f()
      case Some(v) => v
    }
  }

  datatype Result<+T, +E> = Ok(value: T) | Err(error: E) {

    /** `Result::ok`: keeps the success value and drops the error. */
    function ToOption(): Option<T> {
      match this
      case Ok(v) => Some(v)
      case Err(_) => None
    }
  }
}
