/** Optional values, for PHP's nullable settings (`?string`). */
module Wrappers {

  datatype Option<+T> = None | Some(value: T)
}
