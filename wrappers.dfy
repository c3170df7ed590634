/** Small value wrappers shared by the other modules. */
module Wrappers {

  /** A JSON key that may be absent (`dict.get` without a default gives `None`). */
  datatype Option<+T> = None | Some(value: T) {

    /** `dict.get(key, default)`: the stored value, or the default when the key is absent. */
    function GetOr(default: T): T
    {
      match this
      case Some(v) => v
      case None => default
    }
  }
}
