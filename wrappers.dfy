/** Optional values and results with an error, as Python's None and raised exceptions. */
module Wrappers {

  datatype Option<+T> = None | Some(value: T) {
    function GetOr(default: T): T {
      match this
      case Some(v) => v
      case None => default
    }
  }

  datatype Result<+R, +E> = Ok(value: R) | Err(error: E)

  /** Python truthiness of an optional string: present and non-empty. */
  predicate Given(s: Option<string>) {
    s.Some? && s.value != ""
  }

  /** Python truthiness of an optional integer: present and non-zero. */
  predicate GivenInt(t: Option<int>) {
    t.Some? && t.value != 0
  }
}
