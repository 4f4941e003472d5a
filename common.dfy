/** Small shared datatypes. */
module Common {

  /** A value that may be absent: JavaScript's `null` / `undefined` next to a present value. */
  datatype Option<+T> = None | Some(value: T)
}
