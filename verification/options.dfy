/** An optional value: a result that may be missing, a field a caller may pass
    as a null pointer. */
module Options {

  datatype Option<+T> = None | Some(value: T) {

    function GetOr(default: T): T {
      match this
      case Some(v) => v
      case None => default
    }
  }
}
