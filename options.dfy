/** The conventional Some/None datatype, standing in for a Java reference that may be null. */
module Options {

  datatype Option<+T> = None | Some(value: T)
}
