/** Optional values: JavaScript's `null`/`undefined` on one side, a present value on the other. */
module Optional {

  datatype Option<+T> = None | Some(value: T) {

    /** JavaScript's `this ?? fallback`: a present value wins, whatever it is (0 and "" included). */
    function OrElse(fallback: Option<T>): (r: Option<T>)
      ensures r.Some? <==> Some? || fallback.Some?
      ensures Some? ==> r == this
      ensures None? ==> r == fallback
    {
      if Some? then this else fallback
    }

    /** The present value, or `default` when there is none. */
    function GetOr(default: T): T
    {
      if Some? then value else default
    }
  }
}
