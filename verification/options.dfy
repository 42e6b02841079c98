/** The optional values of the model: JavaScript's `null`/`undefined` for a field that may be absent. */
module Options {

  datatype Option<+T> = None | Some(value: T)
}
