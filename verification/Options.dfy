/** Optional values, and the truthiness of optional strings the services rely on. */
module Options {

  datatype Option<+T> = None | Some(value: T)

  /** A value that is present and not the empty string. */
  predicate Truthy(s: Option<string>) {
    s.Some? && s.value != ""
  }

  /** The first truthy operand, or the last operand. */
  function Or(a: Option<string>, b: Option<string>): Option<string> {
    if Truthy(a) then a else b
  }
}
