/** Optional values, used wherever the JavaScript code returns `null` or leaves a field out. */
module Wrappers {

  datatype Option<+T> = None | Some(value: T)

}
