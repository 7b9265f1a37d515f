/** Optional values: the `T | null` / `T | undefined` of the TypeScript source. */
module Wrappers {

  datatype Option<+T> = None | Some(value: T) {

    /** The value, or `default` when absent (the source's `x ?? default`). */
    function GetOr(default: T): T {
      match this
      case Some(v) => v
      case None => default
    }
  }

  /** Completion of a store operation that may throw: `Fail` carries the error message. */
  datatype Outcome = Pass | Fail(error: string)

  /** JavaScript truthiness of an optional string: absent and `""` are both falsy. */
  predicate Truthy(s: Option<string>) {
    s.Some? && s.value != ""
  }
}
