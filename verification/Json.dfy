/** JSON values as the proxy's Python code sees them after `json.loads`. */
module Json {
  import opened Prelude

  /** A number is kept as its token; an object keeps its keys in insertion order. */
  datatype Json =
    | Null
    | Bool(flag: bool)
    | Num(token: string)
    | Str(text: string)
    | Arr(items: seq<Json>)
    | Obj(fields: seq<Field>)

  datatype Field = Field(key: string, value: Json)

  /** `dict.get(key)`: the value, or nothing when the key is absent. */
  function Lookup(fields: seq<Field>, key: string): (v: Option<Json>)
    ensures v.Some? ==> Field(key, v.value) in fields
    ensures v.None? ==> forall f :: f in fields ==> f.key != key
  {
    if fields == [] then None
    else if fields[0].key == key then Some(fields[0].value)
    else Lookup(fields[1..], key)
  }

  /** `obj.get(key)` with `None` for a missing key, and for JSON null as well. */
  function GetOrNull(obj: Json, key: string): Json
    requires obj.Obj?
  {
    var v := Lookup(obj.fields, key);
    if v.Some? then v.value else Null
  }

  /** Tokens that `json` reads and prints besides the numbers of RFC 8259. */
  predicate NotFinite(token: string) { token == "NaN" || token == "Infinity" || token == "-Infinity" }

  /** No digit other than zero up to the exponent. */
  predicate ZeroMantissa(token: string) {
    token == [] || token[0] in "eE" || (token[0] !in "123456789" && ZeroMantissa(token[1..]))
  }

  predicate IsZero(token: string) { !NotFinite(token) && ZeroMantissa(token) }

  /** Python truth value. */
  predicate Truthy(j: Json) {
    match j
    case Null => false
    case Bool(b) => b
    case Num(t) => !IsZero(t)
    case Str(s) => s != ""
    case Arr(xs) => xs != []
    case Obj(fs) => fs != []
  }
}
