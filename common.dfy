/** Small value types shared by every module of the model. */
module Common {

  /** An optional value; `None` stands for JavaScript's `undefined`. */
  datatype Option<+T> = None | Some(value: T)

  /** The outcome of an operation that either returns a value or throws. */
  datatype Result<+T, +E> = Success(value: T) | Failure(error: E)

  /** One octet, as held by a Node.js `Buffer`. */
  type Byte = x: int | 0 <= x < 256
}
