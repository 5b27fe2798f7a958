/** An optional value, the stand-in for a Swift optional (`T?`). */
module Options {

  datatype Option<+T> = None | Some(value: T) {

    /** `self ?? default`: the wrapped value, or `default` when there is none. */
    function GetOr(default: T): T
    {
      match this
      case Some(v) => v
      case None => default
    }
  }
}
