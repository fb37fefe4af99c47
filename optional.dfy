/** Absent-or-present values: the model's stand-in for the `null`/`undefined`
    fields of the parsed GraphQL responses. */
module Optional {

  datatype Option<+T> = None | Some(value: T)

  /** `x || fallback` for a value whose present form is always truthy
      (an array or an object), and `x ?? fallback`. */
  function GetOr<T>(o: Option<T>, fallback: T): (r: T)
    ensures o.None? ==> r == fallback
    ensures o.Some? ==> r == o.value
  {
    match o
    case None => fallback
    case Some(v) => v
  }
}
