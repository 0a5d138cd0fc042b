/** An optional value: a JSON key that may be absent from a parsed alert,
    or a search that may find nothing. */
module Options {

  datatype Option<+T> = None | Some(value: T)

}
