/** Python's `None` for a value that a lookup may fail to produce. */
module Optional {
  datatype Option<T> = None | Some(value: T)
}
