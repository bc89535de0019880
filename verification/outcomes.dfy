/** Failure-carrying results standing for the Python exceptions the modelled code raises. */
module Outcomes {

  datatype Option<+T> = None | Some(value: T)

  /** The exceptions the modelled code can raise, by their Python name. */
  datatype PyError =
    | KeyError(key: string)        // a column label that is not in the frame
    | RowKeyError(row: int)        // a row label that is not in the frame
    | ZeroDivisionError            // Python float division by a zero scalar
    | ValueError(message: string)

  datatype Result<+T> = Ok(value: T) | Err(error: PyError)
}
