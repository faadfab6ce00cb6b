/** Optional values: the hook's `null` (no data yet, no error, no controller). */
module Wrappers {
  datatype Option<+T> = None | Some(value: T)
}
