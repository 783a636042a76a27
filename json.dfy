/** Parsed JSON values, as `JSON.parse` returns them, with JavaScript's
    property access and truthiness on them. Parsing itself (and printing) is
    not modelled: the dialogs receive an already-parsed value. */
module Json {
  import opened Wrappers

  datatype Json =
    | JNull
    | JBool(b: bool)
    | JNum(n: real)
    | JStr(s: string)
    | JArr(items: seq<Json>)
    | JObj(fields: map<string, Json>)

  /** The message of the `TypeError` thrown when reading a property of `null`
      (as V8 words it). */
  const NullAccessMessage: string := "Cannot read properties of null"

  /** `value.key`: `undefined` (`None`) for a missing key or a non-object, a
      thrown `TypeError` for `null`. */
  function Get(value: Json, key: string): (r: Result<Option<Json>, string>)
    ensures r.Err? <==> value == JNull
    ensures r.Ok? && r.value.Some? ==> value.JObj? && key in value.fields && r.value.value == value.fields[key]
  {
    match value
    case JNull => Err(NullAccessMessage)
    case JObj(fields) => Ok(if key in fields then Some(fields[key]) else None)
    case _ => Ok(None)
  }

  /** JavaScript truthiness of a property value (`undefined` is `None`). */
  predicate IsTruthy(v: Option<Json>) {
    match v
    case None => false
    case Some(JNull) => false
    case Some(JBool(b)) => b
    case Some(JNum(n)) => n != 0.0
    case Some(JStr(s)) => s != ""
    case Some(_) => true
  }

  /** `typeof v === 'string'`. */
  predicate IsString(v: Option<Json>) {
    v.Some? && v.value.JStr?
  }

  /** `list.includes(v)` for a list of strings. */
  predicate IsOneOf(v: Option<Json>, choices: seq<string>) {
    v.Some? && v.value.JStr? && v.value.s in choices
  }

  /** `Array.isArray(v)`. */
  predicate IsArray(v: Option<Json>) {
    v.Some? && v.value.JArr?
  }

  /** `undefined` stays absent, anything else is present. */
  function OptStr(s: Option<string>): Option<Json> {
    if s.Some? then Some(JStr(s.value)) else None
  }
}
