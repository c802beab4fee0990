/** Optional values: `None` stands for JavaScript's `undefined`, for `NaN`, and for a
    computation that threw, depending on where it is used. */
module Wrappers {
  datatype Option<+T> = None | Some(value: T)
}
