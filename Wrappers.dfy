/** The shared small types: optional values (Python's None), results with an error (exceptions) and bytes. */
module Wrappers {

  /** A value that may be absent, as Python's None. */
  datatype Option<+T> = None | Some(value: T)

  /** The outcome of an operation that can raise: the value it returns or the error it raises. */
  datatype Result<+T, +E> = Ok(value: T) | Err(error: E)

  /** An octet, the unit of Python's `bytes`. */
  type Byte = b: int | 0 <= b < 256
}
