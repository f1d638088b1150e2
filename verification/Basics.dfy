/** Small value types shared by the other modules. */
module Basics {

  datatype Option<+T> = None | Some(value: T)

  /** The value or the error text a Go call returns. */
  datatype Result<+T> = Ok(value: T) | Err(text: string)

  /** The outcome of a Go call that returns nothing but an error. */
  datatype Outcome = Done | Fault(text: string)
}
