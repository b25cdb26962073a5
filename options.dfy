/** The usual optional-value datatype, used for the "no value was set" branches of the model. */
module Options {

  datatype Option<+T> = None | Some(value: T)

}
