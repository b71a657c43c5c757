/** The usual optional value, used for "nothing was published this frame". */
module Options {

  datatype Option<+T> = None | Some(value: T)
}
