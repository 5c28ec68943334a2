/** Python's `None`, and the value-or-`None` results of the helpers. */
module Options {

  datatype Option<+T> = None | Some(value: T) {

    /** The value, or `default` when this is None (Python's `x if x is not None else default`). */
    function GetOr(default: T): T
    {
      match this
      case Some(v) => v
      case None => default
    }
  }
}
