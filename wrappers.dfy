/** Option and Result, and the errors the connector's operations raise. */
module Wrappers {

  datatype Option<+T> = None | Some(value: T) {
    function GetOr(default: T): T {
      match this
      case Some(v) => v
      case None => default
    }
  }

  datatype Result<+T, +E> = Ok(value: T) | Err(error: E) {
    predicate IsFailure() { Err? }

    function PropagateFailure<U>(): Result<U, E>
      requires Err?
    {
      Err(error)
    }

    function Extract(): T
      requires Ok?
    {
      value
    }
  }

  /** The exceptions the core throws. */
  datatype Error =
    /** `Redis.pub` on an instance that holds callbacks. */
    | SubscribeMode
    /** No connection could be found: no `redis`, no `uri` and no enclosing connector. */
    | NoConnection
    /** A teardown-by-name element was given no names. */
    | NameRequired
    /** A publisher element was given no channels. */
    | ChannelsRequired
}
