/** A value that may be absent: the model of a JavaScript `null`. */
module Options {

  datatype Option<+T> = None | Some(value: T)

}
