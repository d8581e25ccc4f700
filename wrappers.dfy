/** An optional value, shared by both trackers: a hole, a missing attribute, no event. */
module Wrappers {
  datatype Option<T> = None | Some(value: T)
}
