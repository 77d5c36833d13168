/** Optional values, standing for the source's `undefined`-able props. */
module Options {

  datatype Option<+T> = None | Some(value: T) {

    /** The `??` operator: the held value, or `default` when there is none. */
    function Or(default: T): T {
      match this
      case Some(v) => v
      case None => default
    }
  }
}
