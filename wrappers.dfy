/** Failure-carrying results shared by every module of the model. */
module Wrappers {

  datatype Option<+T> = None | Some(value: T)

  /** The Python exception kinds the modelled code can raise. `Raised` stands for
      an exception thrown by code outside the model (a pixel kernel, a codec, a
      reader or writer). */
  datatype Error =
    | KeyError
    | IndexError
    | ValueError
    | TypeError
    | ZeroDivisionError
    | RecursionError
    | Raised

  datatype Result<+T> = Ok(value: T) | Err(error: Error)
}
