/** A value that may be absent: JavaScript's `null` / `undefined` for one field. */
module Options {

  datatype Option<+T> = None | Some(value: T)
}
