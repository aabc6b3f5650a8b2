/** Option and Result, the two wrappers the model uses for Python's `None`
    and for exceptions that the agent catches and turns into text. */
module Wrappers {

  datatype Option<+T> = None | Some(value: T)

  /** `Err` carries the text `str(e)` of the exception that was raised. */
  datatype Result<+T> = Ok(value: T) | Err(error: string)
}
