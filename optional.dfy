/** An optional value: a configuration key that is present or absent. */
module Optional {

  datatype Option<T> = None | Some(value: T) {
    /** The value if present, otherwise `default` (JavaScript's destructuring default) */
    function GetOr(default: T): T {
      match this
      case Some(v) => v
      case None => default
    }
  }
}
