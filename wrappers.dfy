/** Optional values, the model of TypeScript's `T | null` and `T | undefined`, and outcomes. */
module Maybe {
  datatype Option<+T> = None | Some(value: T) {
    /** The value, or a default when absent (the `??` and `||` fallbacks). */
    function GetOr(default: T): T {
      match this
      case Some(v) => v
      case None => default
    }
  }

  /** The outcome of a backend call or a validation: a value, or an error. */
  datatype Result<+T, +E> = Success(value: T) | Failure(error: E)
}
