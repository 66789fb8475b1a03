/** The nullable values of the source (`T?` in Dart) as an explicit option type. */
module Wrappers {

  datatype Option<+T> = None | Some(value: T)
}
