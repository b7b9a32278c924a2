/** Optional values: an absent header, an environment variable that is not set,
    a search that finds nothing. */
module Wrappers {

  datatype Option<+T> = None | Some(value: T)
}
