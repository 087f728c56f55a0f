/** Optional values, used for the plugin's optional path filter and for
    mutation requests that either set or remove a property. */
module Wrappers {

  datatype Option<+T> = None | Some(value: T)
}
