/** The absent-or-present value used for nullable columns and failed lookups. */
module Options {
  datatype Option<+T> = None | Some(value: T)
}
