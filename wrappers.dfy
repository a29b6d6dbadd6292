/** Optional values: `None` stands for a JavaScript `null`, `undefined` or absent key,
    as each datatype field documents. */
module Wrappers {

  datatype Option<+T> = None | Some(value: T) {

    /** The encapsulated value, or `default` when there is none. */
    function GetOr(default: T): T
    {
      match this
      case Some(v) => v
      case None => default
    }
  }
}
