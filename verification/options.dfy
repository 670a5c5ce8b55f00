/** The conventional Some/None datatype, used where a source operation can fail. */
module Options {

  datatype Option<+T> = None | Some(value: T)

}
