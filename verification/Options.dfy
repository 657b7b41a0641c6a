/** Values that may be absent, used for the source's nil pointers and missing files. */
module Options {
  datatype Option<+T> = None | Some(value: T)
}
