/** Optional values, used for nullable columns and for lookups that may fail. */
module Options {
  datatype Option<+T> = None | Some(value: T)
}
