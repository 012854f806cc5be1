/**
 * JSON values as `JSON.parse` produces them, with the JavaScript semantics the
 * handler applies to them: truthiness (`x || fallback`) and property access.
 * The parser itself is not modelled: `Parser` stands for `JSON.parse`, with
 * `None` where it throws.
 */
module Json {
  import opened Wrappers

  /**
   * A parsed JSON value. Numbers carry the value the parser produced (a double,
   * so never NaN); object members are keyed by name, duplicates resolved by
   * the parser.
   */
  datatype Json =
    | JNull
    | JBool(b: bool)
    | JNumber(n: real)
    | JString(s: string)
    | JArray(items: seq<Json>)
    | JObject(fields: map<string, Json>)

  /** `JSON.parse`: `None` when it throws a SyntaxError. */
  type Parser = string -> Option<Json>

  /** JavaScript truthiness of a parsed value: `null`, `false`, `0` and `""` are falsy. */
  predicate Truthy(v: Json)
    ensures Truthy(v) <==> v !in {JNull, JBool(false), JNumber(0.0), JString("")}
  {
    match v
    case JNull => false
    case JBool(b) => b
    case JNumber(n) => n != 0.0
    case JString(s) => s != ""
    case JArray(_) => true
    case JObject(_) => true
  }

  /**
   * `v[key]` for a value that is not `null` (on `null` the access throws a
   * TypeError). `None` is `undefined`: only objects have the named members
   * the handler reads, since neither the object, array nor string prototypes
   * define them.
   */
  function Member(v: Json, key: string): (r: Option<Json>)
    requires !v.JNull?
    ensures r.Some? <==> v.JObject? && key in v.fields
    ensures r.Some? ==> r.value == v.fields[key]
  {
    if v.JObject? && key in v.fields then Some(v.fields[key]) else None
  }

  /** `x?.[key]`: `undefined` when `x` is `undefined` or `null`. */
  function OptionalMember(x: Option<Json>, key: string): (r: Option<Json>)
    ensures x.None? || x.value.JNull? ==> r.None?
    ensures r.Some? ==> x.value.JObject? && key in x.value.fields && r.value == x.value.fields[key]
    ensures x.Some? && x.value.JObject? && key in x.value.fields ==> r == Some(x.value.fields[key])
  {
    if x.None? || x.value.JNull? then None else Member(x.value, key)
  }

  /**
   * `x?.[0]`: the first element of an array, the first character of a string,
   * the member named "0" of an object; `undefined` otherwise.
   */
  function OptionalFirst(x: Option<Json>): (r: Option<Json>)
    ensures r.Some? ==> x.Some? && (x.value.JArray? || x.value.JString? || x.value.JObject?)
    ensures x.Some? && x.value.JArray? ==> (r.Some? <==> |x.value.items| > 0)
    ensures x.Some? && x.value.JString? ==> (r.Some? <==> |x.value.s| > 0)
    ensures r.Some? && x.value.JArray? ==> r.value == x.value.items[0]
    ensures r.Some? && x.value.JString? ==> r.value == JString(x.value.s[..1])
    ensures x.Some? && x.value.JObject? ==> (r.Some? <==> "0" in x.value.fields)
    ensures r.Some? && x.value.JObject? ==> r.value == x.value.fields["0"]
  {
    match x
    case None => None
    case Some(JArray(items)) => if |items| > 0 then Some(items[0]) else None
    case Some(JString(s)) => if |s| > 0 then Some(JString(s[..1])) else None
    case Some(JObject(fields)) => if "0" in fields then Some(fields["0"]) else None
    case Some(_) => None
  }

  /** `x || null`: a falsy or missing value becomes `null` (`None`); a truthy one is kept. */
  function OrNull(x: Option<Json>): (r: Option<Json>)
    ensures r.Some? <==> x.Some? && Truthy(x.value)
    ensures r.Some? ==> r == x
  {
    if x.Some? && Truthy(x.value) then x else None
  }
}
