/** Option and Outcome datatypes shared by every module of the model. */
module Wrappers {

  /** A value that may be missing: a C# nullable reference. */
  datatype Option<+T> = None | Some(value: T) {
    /** The value, or `default` when missing: the C# `??` operator. */
    function GetOr(default: T): T {
      match this
      case Some(v) => v
      case None => default
    }
  }

  /**
   * The outcome of a step that may throw: either it returns a value or it
   * throws an exception whose message is `msg`.
   */
  datatype Outcome<+T> = Ok(value: T) | Throw(msg: string)
}
