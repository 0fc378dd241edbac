/** Shared result types: the source's `None` and its raised errors. */
module Options {

  datatype Option<+T> = None | Some(value: T)

  /** `Err` stands for an exception the source raises; the message is the source's own kind of failure. */
  datatype Result<+T> = Ok(value: T) | Err(error: Failure)

  datatype Failure =
    | NotFound
    | Inactive
    | Mismatch
    | Invalid
    | Overlapping
    | OutsideAvailability
    | Conflict
    | InProgress
}
