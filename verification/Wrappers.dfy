/** Failure, absence and the fate of a request, as the server and the page see them. */
module Wrappers {
  datatype Option<+T> = None | Some(value: T)
  datatype Result<+T, +E> = Ok(value: T) | Err(error: E)

  /** How a request ends: applied and answered, applied with the answer lost, or not applied. */
  datatype Outcome = Answered | ReplyLost | Refused
}
