/** Python's `None` next to a value: a provider that was not asked has no response. */
module Optional {

  datatype Option<T> = None | Some(value: T)
}
