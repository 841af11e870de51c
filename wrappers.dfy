/** Optional values and results with an error, shared by the component modules. */
module Wrappers {

  /** A value that may be absent: `null`/`undefined` in the component code. */
  datatype Option<+T> = None | Some(value: T)

  /** Either a value or the error that was thrown instead. */
  datatype Result<+T, +E> = Ok(value: T) | Err(error: E)

  /** An optional string the way a JSX `&&` or `? :` guard tests it: absent and "" are both falsy. */
  predicate Truthy(o: Option<string>)
  {
    o.Some? && o.value != []
  }
}
