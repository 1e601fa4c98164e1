/** A value that may be missing: the source's `undefined`, `null` and absent map entries. */
module Options {

  datatype Option<+T> = None | Some(value: T)
}
