/** The one general-purpose type the models share. */
module Options {

  datatype Option<+T> = None | Some(value: T)
}
