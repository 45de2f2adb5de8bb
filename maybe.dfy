/** An optional value: a C pointer or out-parameter that may be absent. */
module Maybe {
  datatype Option<T> = None | Some(value: T)
}
