/** Absent-or-present values: a SQL NULL column, a failed parse, a missing file. */
module Optional {

  datatype Option<+T> = None | Some(value: T)
}
