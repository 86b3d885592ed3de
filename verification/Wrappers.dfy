/** What several modules answer with when there may be no answer. */
module Wrappers {
  datatype Option<T> = None | Some(value: T)
}
