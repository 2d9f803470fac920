/** Kotlin's nullable types: `T?` is `Option<T>`, `null` is `None`. */
module Nullable {

  datatype Option<+T> = None | Some(value: T) {

    /** `x ?: default` */
    function OrElse(default: T): T {
      match this
      case Some(v) => v
      case None => default
    }
  }
}
