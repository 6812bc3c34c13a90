/** Python values the salary code relies on: `None`, and the truthiness of an
    optional integer (`None` and `0` are both falsy). */
module PyValues {

  /** A value that may be Python's `None`. */
  datatype Option<+T> = None | Some(value: T)

  /** `bool(x)` for an optional non-negative integer: false for `None` and for `0`. */
  predicate Truthy(x: Option<nat>) {
    x.Some? && x.value != 0
  }
}
