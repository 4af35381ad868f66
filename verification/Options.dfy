/** A value that may be missing, as Python's `None` stands for one. */
module Options {

  datatype Option<T> = None | Some(value: T)

  /** Neither missing nor empty. */
  predicate Truthy(s: Option<string>) { s.Some? && s.value != "" }
}
