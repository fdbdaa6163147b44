/** The optional value the model uses for dictionary lookups and column defaults. */
module Wrappers {

  datatype Option<+T> = None | Some(value: T)

  /** `a`, or `b` when `a` is absent: the left operand of a chain of overrides wins. */
  function OrElse<T>(a: Option<T>, b: Option<T>): Option<T>
  {
    if a.Some? then a else b
  }
}
