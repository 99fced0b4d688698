/** Small wrapper types shared by every module of the model. */
module Common {

  /** A value that may be absent: JavaScript's `undefined` and the store's `null`. */
  datatype Option<+T> = None | Some(value: T) {
    function GetOr(default: T): T {
      match this
      case Some(v) => v
      case None => default
    }
  }

  /** The outcome of a backend call: the rows it returned, or an error. */
  datatype Result<+T, +E> = Ok(value: T) | Err(error: E)

  /**
   * One key of a `Partial<...>` update object: `Keep` when the key is absent
   * from the object, `Set(v)` when it is present (for an optional field `v`
   * may itself be `None`, a key that is present with the value `undefined`).
   */
  datatype Field<+T> = Keep | Set(value: T) {
    function Over(current: T): T {
      match this
      case Keep => current
      case Set(v) => v
    }
  }
}
