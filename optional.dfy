/** The usual Some/None datatype, standing in for Go's error and comma-ok results. */
module Optional {
  datatype Option<+T> = None | Some(value: T)
}
