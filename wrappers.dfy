/** Small result types shared by the whole model. */
module Wrappers {

  /** A value that may be absent: JavaScript's `undefined` or `null`. */
  datatype Option<+T> = None | Some(value: T)

  /** The outcome of evaluating a piece of store code that may raise a TypeError,
      for instance by reading a property of `undefined`. */
  datatype Try<+T> = Ok(value: T) | Throws
}
