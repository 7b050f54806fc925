/** Result and option types shared by every module of the model. */
module Wrappers {

  datatype Option<+T> = None | Some(value: T)

  /** The errors the negotiation code can return. */
  datatype Error =
    | TypeError
    | UnsupportedError
    | AllocationError

  datatype Result<+T> = Ok(value: T) | Err(error: Error)
}
