/** Small failure-carrying datatypes shared by every module of the model. */
module Wrappers {

  /** An optional value; also the model of a nullable pointer once it has been checked. */
  datatype Option<+T> = None | Some(value: T)

  /** The outcome of Rust code that may `panic!` (an `assert!`, an `expect`, an explicit
      `panic!()`): either it returns a value or it panics. */
  datatype Checked<+T> = Returns(value: T) | Panics
}

/** An out-parameter: a location the callee writes through a `*mut T`. */
module OutParams {

  class Cell<T> {
    var value: T

    constructor (v: T)
      ensures value == v
    {
      value := v;
    }
  }
}
