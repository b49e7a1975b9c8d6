/** Option and Result, for values that may be absent and for computations that may throw. */
module Wrappers {

  /** `None` stands for JavaScript's `undefined` (or a missing value); `Some` for a present one. */
  datatype Option<+T> = None | Some(value: T)

  /** `Failure` carries what a JavaScript computation threw; `Success` what it returned. */
  datatype Result<+R, +E> = Success(value: R) | Failure(error: E)
}
