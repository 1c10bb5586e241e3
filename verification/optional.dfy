/** A TypeScript property that may be absent: an optional vendor field such
    as `lastUsed`, or a field that a `Partial<T>` argument leaves out. */
module Optional {

  datatype Option<T> = None | Some(value: T)

  /** The value an optional property holds, falling back to `fallback` when
      the property is absent. */
  function ValueOr<T>(o: Option<T>, fallback: T): (r: T)
    ensures o.Some? ==> r == o.value
    ensures o.None? ==> r == fallback
  {
    if o.Some? then o.value else fallback
  }
}
