/** Values shared by every part of the model: the outcome of a call, an optional
    cached item, and the outcome of one poll of a future. */
module Outcomes {

  datatype Option<T> = None | Some(value: T)

  /** The resolved outcome of a service call or of a decorator step. */
  datatype Result<T, E> = Ok(value: T) | Err(error: E)
  {
    /** `map_err`: converts a failure, keeps a success. */
    function MapErr<F>(convert: E -> F): Result<T, F>
    {
      match this
      case Ok(v) => Ok(v)
      case Err(e) => Err(convert(e))
    }

    /** `and_then`: continues with `next` after a success only. */
    function AndThen<U>(next: T -> Result<U, E>): Result<U, E>
    {
      match this
      case Ok(v) => next(v)
      case Err(e) => Err(e)
    }
  }

  /** `io::Error`, the one error every construction future fails with. Nothing in
      the core inspects it. */
  datatype IoError = IoError(description: string)

  /** What one `poll` of a construction future returns: `Ok(Async::NotReady)`,
      `Ok(Async::Ready(item))` or `Err(io_error)`. */
  datatype Async<T> = NotReady | Ready(value: T) | Failed(error: IoError)
}
