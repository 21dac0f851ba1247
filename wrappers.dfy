/** Optional values, for outcomes that may be absent (an ignored event, a failed fetch). */
module Wrappers {

  datatype Option<+T> = None | Some(value: T)

}
