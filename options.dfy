/** An optional value: the model's stand-in for a TypeScript field that may be
    `undefined` or `null`. */
module Options {

  datatype Option<T> = None | Some(value: T) {

    /** The carried value, or `default` when there is none (`x || default` on the values the stores hold). */
    function GetOr(default: T): T {
      match this
      case Some(v) => v
      case None => default
    }
  }
}
