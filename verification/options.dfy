/** JavaScript's `T | null`, and "maybe a value" in general. */
module Options {
  datatype Option<+T> = None | Some(value: T)
}
