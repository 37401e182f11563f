/** Swift's `Optional`, as the readers and the heap views return it. */
module Optional {
  datatype Option<T> = None | Some(value: T)
}
