/** An optional value: a dialog answer that may have been cancelled, or a
    gesture anchor that may not be set. */
module Options {

  datatype Option<+T> = None | Some(value: T)

}
