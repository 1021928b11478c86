/** The Some/None wrapper that stands for Ruby's `nil` where a query may find nothing. */
module Options {

  datatype Option<+T> = None | Some(value: T)
}
