/** The value-or-nothing wrapper, standing for JavaScript's `null` returns. */
module Options {

  datatype Option<+T> = None | Some(value: T)
}
