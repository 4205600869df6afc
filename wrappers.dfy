/** Option and Result, the two wrappers every decoder returns. */
module Wrappers {

  datatype Option<+T> = None | Some(value: T)

  /** `Result<T, E>` of the Rust code; `:-` plays the part of the `?` operator. */
  datatype Result<+T, +E> = Ok(value: T) | Err(error: E) {

    predicate IsFailure() {
      Err?
    }

    function PropagateFailure<U>(): Result<U, E>
      requires Err?
    {
      Err(error)
    }

    function Extract(): T
      requires Ok?
    {
      value
    }
  }
}
