/** Optional values. `None` stands for a value pandas would hold as NaN. */
module Wrappers {

  datatype Option<+T> = None | Some(value: T)
}
