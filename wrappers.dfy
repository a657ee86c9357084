/** Option and Result, the stand-ins for C#'s null references and exceptions. */
module Wrappers {

  /** A value that may be absent: `None` plays the part of a C# `null`. */
  datatype Option<+T> = None | Some(value: T) {

    /** The value, or `default` when there is none (C#'s `??` operator). */
    function GetOr(default: T): T {
      match this
      case Some(v) => v
      case None => default
    }
  }

  /** The outcome of a call that can throw: `Failure` carries the exception. */
  datatype Result<+R, +E> = Success(value: R) | Failure(error: E)
}
