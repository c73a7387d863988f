/** Optional values: a field the source declares with `?`, or the outcome of a
    gateway request (`None` when the request failed). */
module Wrappers {

  datatype Option<+T> = None | Some(value: T)
}
