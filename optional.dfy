/** The Some/None datatype used wherever the application holds "nothing yet" (Python's None). */
module Optional {
  datatype Option<+T> = None | Some(value: T)
}
