/** Option and Result, the two failure-carrying wrappers the model uses throughout. */
module Wrappers {

  /** A JavaScript value that may be `undefined`: `None` is the absent value. */
  datatype Option<+T> = None | Some(value: T) {
    function GetOr(default: T): T {
      match this
      case Some(v) => v
      case None => default
    }
  }

  /** The outcome of a call that either returns a value or throws. */
  datatype Result<+T, +E> = Ok(value: T) | Err(error: E)

  /** What a provider SDK call or network call throws; the message is its `error.message`. */
  datatype ProviderError = ProviderError(message: string)
}
