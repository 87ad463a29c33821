/** The optional value the model uses wherever the source returns `None`. */
module Wrappers {

  datatype Option<+T> = None | Some(value: T) {

    /** The value, or `default` when there is none (`dict.get(key, default)`). */
    function GetOr(default: T): T {
      match this
      case Some(v) => v
      case None => default
    }
  }

  /** A string field the source tests for truthiness: present and not empty. */
  predicate Truthy(o: Option<string>) { o.Some? && o.value != "" }
}
