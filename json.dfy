/** JSON values as `JSON.parse` produces them, with JavaScript's truthiness and
    property access for the keys the application reads. */
module Json {
  import opened Wrappers

  /** A parsed JSON value. JSON has no NaN, undefined or functions, so a number is
      an exact real and an object is a map from its keys to its values. */
  datatype Json =
    | JNull
    | JBool(b: bool)
    | JNum(n: real)
    | JStr(s: string)
    | JArr(items: seq<Json>)
    | JObj(fields: map<string, Json>)

  /** JavaScript truthiness: `null`, `false`, `0` and `""` are falsy; every other
      JSON value, empty arrays and empty objects included, is truthy. */
  predicate Truthy(v: Json) {
    match v
    case JNull => false
    case JBool(b) => b
    case JNum(n) => n != 0.0
    case JStr(s) => s != ""
    case JArr(_) => true
    case JObj(_) => true
  }

  /** `typeof v === 'object'`: true of objects, arrays and null alike. */
  predicate IsObjectType(v: Json) {
    v.JObj? || v.JArr? || v.JNull?
  }

  /** `v.key` on a value that is not `null` (callers check for `null` first, where
      JavaScript throws). Only a JSON object has own keys; the
      keys this application reads ("Tasks", "owner", "due_date", ...) are not
      built-in properties of strings, arrays, numbers or booleans, so on those the
      access gives `undefined`, written `None`. */
  function Get(v: Json, key: string): (r: Option<Json>)
    ensures r.Some? <==> v.JObj? && key in v.fields
    ensures r.Some? ==> r.value == v.fields[key]
  {
    if v.JObj? && key in v.fields then Some(v.fields[key]) else None
  }

  /** `x || d`, where `x` may be `undefined` (None): `x` when it is truthy, else `d`. */
  function Or(x: Option<Json>, d: Json): (r: Json)
    ensures x.Some? && Truthy(x.value) ==> r == x.value
    ensures !(x.Some? && Truthy(x.value)) ==> r == d
    ensures Truthy(d) ==> Truthy(r)
  {
    if x.Some? && Truthy(x.value) then x.value else d
  }

  /** `v.key || d` on a non-null value. */
  function FieldOr(v: Json, key: string, d: Json): (r: Json)
    ensures (v.JObj? && key in v.fields && Truthy(v.fields[key])) ==> r == v.fields[key]
    ensures !(v.JObj? && key in v.fields && Truthy(v.fields[key])) ==> r == d
  {
    Or(Get(v, key), d)
  }

  /** `!!v.key` on a non-null value: the key is present with a truthy value. */
  predicate HasTruthy(v: Json, key: string)
  {
    var x := Get(v, key);
    x.Some? && Truthy(x.value)
  }
}
