/** Optional values: the model's stand-in for JavaScript's `null`/`undefined`
    and for Python's `None`. */
module Wrappers {

  datatype Option<+T> = None | Some(value: T) {

    /** The value, or `default` when absent (JavaScript's `x ?? default`). */
    function GetOr(default: T): T {
      match this
      case Some(v) => v
      case None => default
    }
  }

  /** JavaScript truthiness of an optional string: present and non-empty
      (`null`, `undefined` and `""` are all falsy). */
  predicate Truthy(s: Option<string>) { s.Some? && s.value != "" }
}
