/** Optional values: JavaScript's `null` / `undefined` where the simulator uses them as "absent". */
module Wrappers {

  datatype Option<T> = None | Some(value: T)
}
