/** Optional values and success/failure results, shared by every module of the model. */
module Wrappers {

  /** `None` stands for JavaScript's `undefined`/`null` where the source uses them as "absent". */
  datatype Option<+T> = None | Some(value: T)

  datatype Result<+R, +E> = Success(value: R) | Failure(error: E)
}
