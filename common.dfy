/** Small shared datatypes. */
module Common {

  /** Python's "value or None". */
  datatype Option<+T> = None | Some(value: T)
}
