/** Optional values and error outcomes shared by every module of the model. */
module Wrappers {

  /** A value that may be missing: JavaScript `undefined`/`null`, or a SQL NULL. */
  datatype Option<T> = None | Some(value: T) {
    /** The `??` operator: the value when present, else the default. */
    function GetOr(default: T): T {
      if Some? then value else default
    }
  }

  /** The outcome of a step that returns nothing but may throw. */
  datatype Outcome = Pass | Fail(error: string)

  /** The outcome of a step that returns a value but may throw. */
  datatype Result<T> = Ok(value: T) | Err(error: string)
}
