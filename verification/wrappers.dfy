/** Stand-ins for Rust's `Option` and `Result`. */
module Wrappers {

  /** Rust's `Option<T>`. */
  datatype Option<+T> = None | Some(value: T)

  /** Rust's `Result<R, E>`: `Success` is `Ok`, `Failure` is `Err`. */
  datatype Result<+R, +E> = Success(value: R) | Failure(error: E) {

    /** Rust's `Result::map`: transform the success value, keep the error as it is. */
    function Map<U>(f: R -> U): (r: Result<U, E>)
      ensures r.Success? <==> this.Success?
      ensures r.Success? ==> r.value == f(this.value)
      ensures r.Failure? ==> r.error == this.error
    {
      match this
      case Success(v) => Success(f(v))
      case Failure(e) => Failure(e)
    }
  }
}
