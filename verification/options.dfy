/** SQL NULL for a single column value. */
module Options {

  datatype Option<+T> = None | Some(value: T)
}
