/** Python's `None`-or-value results, as used throughout the billing API. */
module Options {

  datatype Option<+T> = None | Some(value: T)

}
