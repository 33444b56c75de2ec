/** Small result types shared by the model. */
module Wrappers {

  datatype Option<+T> = None | Some(value: T)

  /** What a foreign collaborator hands back: a value, or the error it threw. */
  datatype Result<+T> = Ok(value: T) | Err(error: string)

  /**
   * How an `async` call of the snapshot is observed by its caller in the
   * sequential model: its promise resolved with a value, it rejected with an
   * error, or it is still suspended on the shared build signal.
   */
  datatype Reply<+T> = Returned(value: T) | Threw(error: string) | Suspended
}
