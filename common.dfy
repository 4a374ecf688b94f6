/** Small shared datatypes. */
module Common {

  /** A value that may be absent; `None` also stands for Python's falsy `end_date`. */
  datatype Option<+T> = None | Some(value: T)
}
