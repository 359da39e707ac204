/** Optional values: a header that may be absent, a session id a transport may not have yet,
    a reply text that may fail to parse. */
module Wrappers {

  datatype Option<+T> = None | Some(value: T)
}
