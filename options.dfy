/** Python's `None`-or-value fields, written as an explicit option. */
module Options {

  datatype Option<+T> = None | Some(value: T)

  /** The event list a logging call contributes: nothing, or one entry. */
  function ToSeq<T>(o: Option<T>): (r: seq<T>)
    ensures |r| <= 1
    ensures o.None? <==> r == []
    ensures o.Some? ==> r == [o.value]
  {
    match o
    case None => []
    case Some(v) => [v]
  }
}
