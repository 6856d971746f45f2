/** Optional values: `undefined` / `null` in the modelled component. */
module Wrappers {

  datatype Option<+T> = None | Some(value: T)

  /** The `a ?? b` operator: `a` when it is set, otherwise `b`. */
  function Coalesce<T>(a: Option<T>, b: Option<T>): Option<T>
  {
    if a.Some? then a else b
  }
}
