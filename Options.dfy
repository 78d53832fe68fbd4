/** The optional value used for JavaScript's `undefined`/`null` results. */
module Options {
  datatype Option<+T> = None | Some(value: T)
}
