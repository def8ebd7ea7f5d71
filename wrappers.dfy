/** The optional value used for an unset dropdown and for a statistic of an empty column. */
module Wrappers {

  datatype Option<+T> = None | Some(value: T)
}
