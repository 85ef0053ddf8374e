/** Small failure-carrying datatypes shared by every module of the model. */
module Wrappers {

  datatype Option<+T> = None | Some(value: T)

  datatype Result<+T, +E> = Ok(value: T) | Err(error: E)

  /** The Python exceptions the modelled code can raise or let escape. */
  datatype Exception =
    | IndexError
    | KeyError(key: string)
    | ValueError(message: string)
    | Raised(message: string)
}
