/**
 * The in-memory form of a manifest before it is serialised: the nested
 * dictionaries, lists, strings and integers the manifest builders assemble.
 * The serialiser sorts mapping keys, so a mapping is an unordered `map`.
 */
module Document {

  datatype Value =
    | Null                                // a missing entry, read as None
    | Str(s: string)
    | Int(i: int)
    | List(items: seq<Value>)
    | Dict(fields: map<string, Value>)

  /** The entry of mapping `v` under `key`, or Null when there is none
      (the dictionary's `get` without a default). */
  function Get(v: Value, key: string): (r: Value)
    ensures r != Null ==> v.Dict? && key in v.fields && r == v.fields[key]
  {
    if v.Dict? && key in v.fields then v.fields[key] else Null
  }
}
