/** The Option datatype: a quote field that the market-data source may leave out. */
module Wrappers {

  datatype Option<+T> = None | Some(value: T)
}
