// Python's `None` alongside a value.
module Optional {
  datatype Option<T> = None | Some(value: T)
}
