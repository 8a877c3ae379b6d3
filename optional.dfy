/** A value that may be absent: a JavaScript `null`/`undefined` field or a
    database lookup that found nothing. */
module Optional {

  datatype Option<T> = None | Some(value: T)

  /** The value, or `default` when it is absent (JavaScript's `x || default`
      for fields whose falsy values all render like `default`). */
  function OrElse<T>(o: Option<T>, default: T): T
  {
    match o
    case Some(v) => v
    case None => default
  }
}
