/** Optional values and results shared by every module of the model. */
module Wrappers {

  /** A value that may be absent: Python's `None`, or "no value" in general. */
  datatype Option<+T> = None | Some(value: T)

  /** The outcome of a Python call that either returns or raises. */
  datatype Outcome<+T> = Returned(value: T) | Raised(exception: PyException)

  /** The Python exceptions the core can raise. */
  datatype PyException = ValueError(message: string) | TypeError(message: string)

  /** The reasons a promise of the Node variant rejects with. */
  datatype JsError = ClientNotConnected | SendFailed | ChromeNotFound

  /**
   * The state a promise of the Node variant ends in: resolved with a value,
   * rejected with an error, or never settled.
   */
  datatype Promise<+T> = Resolved(value: T) | Rejected(error: JsError) | Pending
}
