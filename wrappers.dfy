/** Option and Result values used for missing labels and refused inputs. */
module Wrappers {

  /** A value that may be absent; pandas writes an absent label as NaN. */
  datatype Option<+T> = None | Some(value: T)

  /** The outcome of an operation that pandas may refuse with an exception. */
  datatype Result<+R, +E> = Ok(value: R) | Err(error: E)
}
