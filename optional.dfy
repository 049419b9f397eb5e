/** An optional value, for readers that may find nothing. */
module Optional {
  datatype Option<T> = None | Some(value: T)
}
