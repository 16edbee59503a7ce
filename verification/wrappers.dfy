/** Optional values: an absent cookie, a user not found, a mail not sent. */
module Wrappers {
  datatype Option<+T> = None | Some(value: T)
}
