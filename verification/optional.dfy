/** A value that may be absent: a document field that is not set, or a
    query that found nothing. */
module Optional {

  datatype Option<T> = None | Some(value: T)

  /** The value as a sequence of zero or one elements: it has an element
      exactly when the option holds a value, and that element is the value. */
  function ToSeq<T>(o: Option<T>): (r: seq<T>)
    ensures |r| <= 1
    ensures |r| == 1 <==> o.Some?
    ensures forall k :: 0 <= k < |r| ==> o == Some(r[k])
  {
    match o
    case None => []
    case Some(v) => [v]
  }
}
