/** An optional value: `None` stands for a JSON `null` or a missing property. */
module Wrappers {
  datatype Option<+T> = None | Some(value: T)
}
