/** Swift's `Optional`, used for every `T?` of the app. */
module Wrappers {

  datatype Option<+T> = None | Some(value: T)
}
