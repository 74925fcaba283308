/** An optional value: Python's `None` or a present value. */
module Optional {

  datatype Option<+T> = None | Some(value: T)

  /** The values an option holds, as a set of at most one element. */
  function AsSet<T>(o: Option<T>): (s: set<T>)
    ensures o.None? ==> s == {}
    ensures o.Some? ==> s == {o.value}
  {
    match o
    case None => {}
    case Some(v) => {v}
  }
}
