/** Optional values, and the truth test the source applies to optional strings. */
module Wrappers {

  datatype Option<+T> = None | Some(value: T)

  /** Python truth of an optional string: neither `None` nor empty. */
  predicate Truthy(s: Option<string>) {
    s.Some? && s.value != ""
  }

  /** `s if s else None`. */
  function NonEmpty(s: Option<string>): Option<string> {
    if Truthy(s) then s else None
  }
}
