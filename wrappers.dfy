/** Optional values and outcomes shared by every module of the model. */
module Wrappers {

  /** A value that may be absent: `undefined`/`null` in TypeScript, `None` in Python. */
  datatype Option<T> = None | Some(value: T)
  {
    /** The value, or `default` when it is absent (the `?? default` of the source). */
    function GetOr(default: T): T
    {
      if Some? then value else default
    }
  }

  /** The outcome of a step that may raise: a value, or the message of the error it raised. */
  datatype Outcome<T> = Ok(value: T) | Raised(message: string)

}
