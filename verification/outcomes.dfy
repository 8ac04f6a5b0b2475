/** Success-or-exception results: the model's stand-in for a Python call that
    either returns a value or raises. */
module Outcomes {

  datatype Result<+T, +E> = Ok(value: T) | Err(error: E)
}
