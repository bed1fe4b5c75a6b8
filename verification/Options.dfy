/** A value that may be missing: a nil pointer, a failed read, an absent field. */
module Options {

  datatype Option<+T> = None | Some(value: T)
}
