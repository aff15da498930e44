/** JSON values as the DevTools client reads them. A missing key reads as null, like `dict.get`. */
module Json {
  import opened Wrappers

  datatype Json =
    | JNull
    | JBool(b: bool)
    | JNum(n: real)
    | JStr(s: string)
    | JArr(items: seq<Json>)
    | JObj(fields: map<string, Json>)

  function Get(j: Json, key: string): Json {
    if j.JObj? && key in j.fields then j.fields[key] else JNull
  }

  predicate Has(j: Json, key: string) {
    j.JObj? && key in j.fields
  }

  /** `dict.get(key, {})`. */
  function GetObject(j: Json, key: string): Json {
    if Has(j, key) then j.fields[key] else JObj(map[])
  }

  predicate Truthy(j: Json) {
    match j
    case JNull => false
    case JBool(b) => b
    case JNum(n) => n != 0.0
    case JStr(s) => s != ""
    case JArr(items) => items != []
    case JObj(fields) => fields != map[]
  }

  /** Python's `==` with an integer, which also equates 1 with true. */
  predicate EqualsInt(j: Json, n: int) {
    match j
    case JNum(r) => r == n as real
    case JBool(b) => n == if b then 1 else 0
    case _ => false
  }

  /** A non-empty string. */
  function Text(j: Json): Option<string> {
    if j.JStr? && j.s != "" then Some(j.s) else None
  }

  // ------------------------------------------------------ what is at a place

  /** The value at the end of a path of keys, if there is one. */
  ghost function At(j: Json, path: seq<string>): Option<Json> {
    if path == [] then Some(j)
    else if j.JObj? && path[0] in j.fields then At(j.fields[path[0]], path[1..])
    else None
  }

  /** Python's empty values, which count as false. */
  ghost predicate Empty(j: Json) {
    j == JNull || j == JBool(false) || j == JNum(0.0) || j == JStr("") || j == JArr([]) || j == JObj(map[])
  }

  /** Missing, or an empty value. */
  ghost predicate Blank(j: Option<Json>) {
    j.Some? ==> Empty(j.value)
  }

  ghost function OrNull(j: Option<Json>): Json {
    if j.Some? then j.value else JNull
  }

  lemma AtOne(j: Json, key: string)
    ensures At(j, [key]) == if j.JObj? && key in j.fields then Some(j.fields[key]) else None
  {
    if j.JObj? && key in j.fields {
      assert [key][1..] == [];
    }
  }

  lemma AtTwo(j: Json, key: string, key': string)
    ensures At(j, [key, key']) == if At(j, [key]).Some? then At(At(j, [key]).value, [key']) else None
  {
    AtOne(j, key);
    assert [key, key'][1..] == [key'];
  }

  lemma AtThree(j: Json, a: string, b: string, c: string)
    ensures At(j, [a, b, c]) == if At(j, [a, b]).Some? then At(At(j, [a, b]).value, [c]) else None
  {
    AtTwo(j, a, b);
    AtOne(j, a);
    if At(j, [a]).Some? {
      AtTwo(At(j, [a]).value, b, c);
    }
    assert [a, b, c][1..] == [b, c];
  }

  /** What the readers above give. */
  lemma Reads(j: Json, key: string)
    ensures Get(j, key) == OrNull(At(j, [key]))
    ensures Has(j, key) <==> At(j, [key]).Some?
    ensures GetObject(j, key) == if At(j, [key]).Some? then At(j, [key]).value else JObj(map[])
    ensures Truthy(j) <==> !Empty(j)
    ensures forall s :: Text(j) == Some(s) <==> j == JStr(s) && s != ""
  {
    AtOne(j, key);
  }

  lemma ReadsInt(j: Json, n: int)
    ensures EqualsInt(j, n) <==> j == JNum(n as real) || (j == JBool(true) && n == 1) || (j == JBool(false) && n == 0)
  {
  }
}
