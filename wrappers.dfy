/** Small result types shared by the store model. */
module Wrappers {

  datatype Option<+T> = None | Some(value: T)

  /** What an awaited HTTP call hands back to an action: either a failure
      (network error, a response whose `ok` is false, or a body that is not
      JSON) or the decoded body of a successful response. */
  datatype Reply<+T> = Failed | Ok(body: T)
}
