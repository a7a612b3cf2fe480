/** The optional value used for every field the source declares as `T | undefined`
    (TypeScript) or `Optional[T]` (Python): `None` stands for `undefined`/`null`/`None`. */
module Wrappers {

  datatype Option<+T> = None | Some(value: T) {

    /** The wrapped value, or `default` when there is none. */
    function GetOr(default: T): T {
      match this
      case Some(v) => v
      case None => default
    }
  }
}
