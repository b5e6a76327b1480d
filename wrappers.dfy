/** Optional values and results, shared by every module of the model. */
module Wrappers {

  /** An optional value: `None` stands for JavaScript's `undefined` where the source uses it as "absent". */
  datatype Option<+T> = None | Some(value: T) {

    /** The value held, or `default` when there is none (lodash `defaultTo`, `??`). */
    function GetOr(default: T): T {
      match this
      case Some(v) => v
      case None => default
    }
  }

  /** The outcome of an effect: a value, or the error the effect fails with. */
  datatype Result<+T, +E> = Success(value: T) | Failure(error: E)
}
