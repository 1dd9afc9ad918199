/** Optional values and JavaScript truthiness, as the slice tests them. */
module Wrappers {

  /** A value that may be missing: `null`, `undefined` or an absent field. */
  datatype Option<+T> = None | Some(value: T)

  /** JavaScript truthiness of an optional string: null, undefined and "" are all falsy. */
  predicate Truthy(s: Option<string>) {
    s.Some? && s.value != ""
  }
}
