/** Small value types shared by every module of the pipeline model. */
module Common {

  /** A dictionary key that may be absent (`state.get(key)` returning nothing). */
  datatype Option<T> = None | Some(value: T) {
    /** `d.get(key, default)` */
    function GetOr(default: T): T {
      match this
      case Some(v) => v
      case None => default
    }
  }

  /** The result of a step that either returns a value or lets a Python exception escape. */
  datatype Outcome<T> = Ok(value: T) | Raised(error: string)

  /** The dynamically typed values the pipeline compares by identity or prints. */
  datatype PyValue = NoneValue | BoolValue(b: bool) | IntValue(n: int) | StrValue(s: string)

  /** The text Python's `str(KeyError(key))` produces for a string key. */
  function KeyErrorText(key: string): string {
    "'" + key + "'"
  }
}
