/** The optional value used throughout the model for JavaScript's `undefined`
    and for library calls that may throw. */
module Options {

  datatype Option<+T> = None | Some(value: T)
}
