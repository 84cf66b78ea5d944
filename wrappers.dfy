/** Optional values: the `null` that the dashboards start from before the first sample arrives. */
module Wrappers {
  datatype Option<+T> = None | Some(value: T)
}
