/** Optional values: a missing DOM element, an absent storage entry, an absent link. */
module Wrappers {
  datatype Option<+T> = None | Some(value: T)
}
