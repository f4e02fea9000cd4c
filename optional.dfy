/** The absent-or-present value that stands for JavaScript's `undefined`/`null` results. */
module Optional {

  datatype Option<+T> = None | Some(value: T)
  {
    /** The value, or `default` when absent (the `x ?? default` of the source). */
    function GetOr(default: T): T
    {
      match this
      case Some(v) => v
      case None => default
    }
  }
}
