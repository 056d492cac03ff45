// JSON values as the crate sees them (serde_json::Value).
//
// An object keeps its fields in the order they are written.  Numbers are the
// integers serde_json stores exactly: i64 below zero, u64 above.
module Json {
  import opened Wrappers

  type Number = n: int | -0x8000_0000_0000_0000 <= n < 0x1_0000_0000_0000_0000

  type I64 = n: int | -0x8000_0000_0000_0000 <= n < 0x8000_0000_0000_0000

  datatype Json =
    | Null
    | Bool(b: bool)
    | Num(n: Number)
    | Str(s: string)
    | Arr(items: seq<Json>)
    | Obj(fields: seq<Field>)

  datatype Field = Field(key: string, value: Json)

  /** The value stored under a key, if the object has the key. */
  function Lookup(fields: seq<Field>, key: string): Option<Json> {
    if fields == [] then None
    else if fields[0].key == key then Some(fields[0].value)
    else Lookup(fields[1..], key)
  }

  /** No key is repeated and every key is one of the listed ones. */
  predicate Only(fields: seq<Field>, keys: set<string>) {
    fields == [] || (fields[0].key in keys && Only(fields[1..], keys - {fields[0].key}))
  }

  lemma {:induction false} LookupOutside(fields: seq<Field>, keys: set<string>, key: string)
    requires Only(fields, keys) && key !in keys
    ensures Lookup(fields, key) == None
  {
    if fields != [] {
      LookupOutside(fields[1..], keys - {fields[0].key}, key);
    }
  }
}
