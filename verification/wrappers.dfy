/** An optional value: the model of Python's `Optional[...]` parameters (None or a value). */
module Wrappers {

  datatype Option<+T> = None | Some(value: T)

  /** Python truthiness of an `Optional[str]`: neither `None` nor the empty string. */
  predicate Truthy(o: Option<string>)
  {
    o.Some? && o.value != ""
  }
}
