/** The optional value used wherever the source has `null` / `undefined`. */
module Options {

  datatype Option<+T> = None | Some(value: T) {

    /** `x ?? default`. */
    function GetOr(default: T): T
    {
      match this
      case Some(v) => v
      case None => default
    }
  }
}
