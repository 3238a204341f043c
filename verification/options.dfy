/** Optional values: JavaScript's `undefined`/`null` against a present value. */
module Options {

  datatype Option<+T> = None | Some(value: T) {

    /** The value when present, otherwise `default` (a destructuring default such as `page = 1`). */
    function GetOr(default: T): (r: T)
      ensures Some? ==> r == value
      ensures None? ==> r == default
    {
      match this
      case Some(v) => v
      case None => default
    }
  }
}
