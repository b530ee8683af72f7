/** An absent-or-present value: a missing Redis key, an unset field, a limit a call leaves alone. */
module Options {
  datatype Option<+T> = None | Some(value: T) {
    function GetOr(default: T): T {
      match this
      case Some(v) => v
      case None => default
    }
  }
}
