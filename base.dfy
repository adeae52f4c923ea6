/** Small shared datatypes. */
module Base {

  /** A value that may be absent: a failed parse, an unmatched rule. */
  datatype Option<+T> = None | Some(value: T)
}
