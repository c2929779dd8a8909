/** Optional values and results with an error message, shared by every module. */
module Outcomes {
  datatype Option<T> = None | Some(value: T)

  datatype Result<T> = Ok(value: T) | Err(message: string)

  /** Python truthiness of an optional number: absent and zero are both false. */
  predicate Truthy(t: Option<real>)
  {
    t.Some? && t.value != 0.0
  }
}
