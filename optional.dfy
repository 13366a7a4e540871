/** The absent-or-present value used for nullable JavaScript references and
    for payload fields that a client may leave out. */
module Optional {

  datatype Option<+T> = None | Some(value: T) {

    /** The value, or `default` when it is absent. */
    function GetOr(default: T): T {
      match this
      case Some(v) => v
      case None => default
    }
  }
}
