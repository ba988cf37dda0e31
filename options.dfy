/** An optional value: stands for a JavaScript value that may be `null` or `undefined`. */
module Options {

  datatype Option<+T> = None | Some(value: T)

  /** A string-valued field is truthy in JavaScript exactly when it is present and not "". */
  predicate Truthy(s: Option<string>)
  {
    s.Some? && s.value != ""
  }
}
