/** The Python exceptions the scoring code can raise, and a result type that
    carries either a value or the exception that ended the call. */
module Results {

  /** The exceptions raised by the modelled code. */
  datatype Error =
    | IndexError                  // a list index past the end
    | ValueError(literal: string) // int() applied to a string that is not an integer literal
    | ZeroDivisionError           // the IoU denominator is zero

  datatype Result<+T> = Ok(value: T) | Err(error: Error)

  datatype Option<+T> = None | Some(value: T)
}
