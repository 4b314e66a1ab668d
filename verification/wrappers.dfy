/** A nullable value: a JSON `null`, a missing key or a pandas NaN is `None`. */
module Wrappers {
  datatype Option<+T> = None | Some(value: T)
}
