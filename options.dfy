/** The optional value used wherever the scripts use null or undefined. */
module Options {
  datatype Option<+T> = None | Some(value: T)
}
