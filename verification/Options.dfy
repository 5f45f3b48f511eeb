/** The optional values that the kernel's `Option<T>` returns become. */
module Options {
  datatype Option<+T> = None | Some(value: T)
}
