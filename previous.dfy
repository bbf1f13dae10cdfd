/**
 * `usePreviousDistinct(value)`: the hook remembers the last value that
 * differed from the current one, and `undefined` until the value first changes.
 */
module Previous {
  import opened Wrappers

  datatype Tracker<T> = Tracker(current: T, previous: Option<T>)

  /** The hook on the first render. */
  function FirstRender<T>(v: T): (r: Tracker<T>)
    ensures r.current == v && r.previous.None?
  {
    Tracker(v, None)
  }

  /** A later render with `v`: a different value moves the old current into `previous`. */
  function Observe<T(==)>(t: Tracker<T>, v: T): (r: Tracker<T>)
    ensures r.current == v
    ensures v == t.current ==> r == t
    ensures v != t.current ==> r.previous == Some(t.current)
  {
    if v == t.current then t else Tracker(v, Some(t.current))
  }

  /** The remembered value is never the current one. */
  predicate Distinct<T(==)>(t: Tracker<T>) {
    t.previous.Some? ==> t.previous.value != t.current
  }

  lemma ObserveKeepsDistinct<T>(t: Tracker<T>, v: T)
    requires Distinct(t)
    ensures Distinct(Observe(t, v))
  {
  }

  /**
   * The remembered value changes exactly when the observed value does, so an
   * effect that depends on it runs once per change of the value.
   */
  lemma PreviousChangesIffValueChanges<T>(t: Tracker<T>, v: T)
    requires Distinct(t)
    ensures Observe(t, v).previous != t.previous <==> v != t.current
  {
  }

  /** A run of renders, starting with the first. */
  function Renders<T(==)>(first: T, later: seq<T>): (r: Tracker<T>)
    ensures Distinct(r)
    ensures r.current == (if |later| == 0 then first else later[|later| - 1])
    decreases |later|
  {
    if |later| == 0 then FirstRender(first)
    else
      var t := Renders(first, later[..|later| - 1]);
      ObserveKeepsDistinct(t, later[|later| - 1]);
      Observe(t, later[|later| - 1])
  }
}
