/** Shared result types. */
module Common {

  datatype Option<+T> = None | Some(value: T)

  /** The source raises exceptions; an operation that can raise returns a Result. */
  datatype Result<+T> = Ok(value: T) | Err(message: string)
}
