/**
 * Per-user namespaces. Each in-memory store is a module-level record from a
 * user prefix to an array; here that record is a `UserTable` object shared by
 * reference between the repository objects built over it.
 */
module Namespaces {
  import opened Wrappers

  const DefaultPrefix: string := "default"

  /** `userPrefix || 'default'`: a missing or empty prefix selects `'default'`. */
  function Namespace(userPrefix: Option<string>): (ns: string)
    ensures ns != ""
    ensures Truthy(userPrefix) ==> ns == userPrefix.value
    ensures !Truthy(userPrefix) ==> ns == DefaultPrefix
  {
    if Truthy(userPrefix) then userPrefix.value else DefaultPrefix
  }

  /** A module-level `Record<string, T[]>`. */
  class UserTable<T> {
    var byUser: map<string, seq<T>>

    constructor()
      ensures byUser == map[]
    {
      byUser := map[];
    }
  }

  /**
   * A JSON environment variable that should hold an array: unset (or empty),
   * not parseable, parsed to a non-array, or parsed to an array.
   */
  datatype EnvArray<T> = Unset | Unparsable | NotAnArray | ArrayValue(items: seq<T>)

  /** The defaults a store seeds from such a variable: the array, or nothing. */
  function ArrayOrEmpty<T>(env: EnvArray<T>): (defaults: seq<T>)
    ensures env.ArrayValue? ==> defaults == env.items
    ensures !env.ArrayValue? ==> defaults == []
  {
    match env
    case ArrayValue(items) => items
    case _ => []
  }
}
