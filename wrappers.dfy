/** Option and Result as used across the model. A service call that throws
    `new Error(msg)` in the source returns `Err(msg)` here; `undefined` is `None`. */
module Wrappers {

  datatype Option<+T> = None | Some(value: T)

  datatype Result<+T> = Ok(value: T) | Err(msg: string)

  /** A field an `Object.assign` patch may carry: its value when present, else the old one. */
  function GetOr<T>(o: Option<T>, current: T): T
  {
    if o.Some? then o.value else current
  }

  /** The same for an optional field. */
  function Override<T>(o: Option<T>, current: Option<T>): Option<T>
  {
    if o.Some? then o else current
  }
}
