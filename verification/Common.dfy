/** The optional value that SELECTs, lookups and readers return. */
module Common {
  datatype Option<+T> = None | Some(value: T)
}
