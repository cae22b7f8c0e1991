/** A value the source may leave null or undefined. */
module Options {
  datatype Option<+T> = None | Some(value: T)

  /** `a ?? b`. */
  function OrElse<T>(a: Option<T>, b: Option<T>): Option<T> {
    if a.Some? then a else b
  }
}
