/** Python's `None`-or-value, used for the nullable player ids and bids of the engine. */
module Optional {
  datatype Option<+T> = None | Some(value: T)
}
