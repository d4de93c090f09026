/** The optional value shared by every module of the model. */
module Wrappers {
  datatype Option<+T> = None | Some(value: T)

  /** The value, or a default when there is none: the `??` of the source. */
  function GetOr<T>(o: Option<T>, default: T): T {
    if o.Some? then o.value else default
  }
}
