/** An optional value, for the source's nil pointers and second results. */
module Options {

  datatype Option<+T> = None | Some(value: T)
}
