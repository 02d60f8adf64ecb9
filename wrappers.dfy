/** Optional values. `Some` stands for a dictionary key that is present (with its value),
    `None` for a key that is absent or a field that holds Python's None. */
module Wrappers {

  datatype Option<+T> = None | Some(value: T) {

    /** The value if present, otherwise `default` (Python's `d.get(key, default)`). */
    function GetOr(default: T): T {
      match this
      case Some(v) => v
      case None => default
    }
  }
}
