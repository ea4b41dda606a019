/** Option and Result values for the outcomes main either uses or aborts on, and bytes. */
module Wrappers {

  /** A Go `byte`. */
  newtype byte = x: int | 0 <= x < 256

  datatype Option<+T> = None | Some(value: T)

  /** A value, or the error text main would report on the operator's error stream. */
  datatype Result<+T> = Ok(value: T) | Err(message: string)
}
