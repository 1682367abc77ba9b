/** Optional values: TypeScript's `T | undefined` and `T | null`. */
module Wrappers {

  datatype Option<+T> = None | Some(value: T) {

    /**
     * The value, or `default` when absent: `x ?? default`. It stands for
     * `x || default` too wherever the model uses it that way: there the
     * present value is an array or a rarity name (never falsy) or a string
     * whose default is `''`, so the two idioms agree.
     */
    function GetOr(default: T): T {
      match this
      case Some(v) => v
      case None => default
    }
  }
}
