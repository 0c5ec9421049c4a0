/** Optional values and the outcome of one cloud call. */
module Outcomes {

  datatype Option<+T> = None | Some(value: T)

  /** What a cloud call returns: its payload, or the provider error that the
      SDK raises, carrying a machine-readable code and a human message. */
  datatype Outcome<+T> = Ok(payload: T) | Err(code: string, message: string)
}
