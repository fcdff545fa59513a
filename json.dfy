/**
 * A parsed JSON document and the org.json accessors (in the Android flavour of
 * that library) that the response parser calls. Turning text into a tree is
 * not modelled here: the parser is given as a partial function from text to
 * tree (see `NewJsonObject`).
 */
module JsonTree {
  import opened Wrappers

  /** A JSON value. `JNum` carries the text that Java's `String.valueOf` gives
      for the number the tokenizer produced. Objects are maps, so a key occurs
      at most once. */
  datatype Json =
    | JNull
    | JBool(b: bool)
    | JNum(text: string)
    | JStr(s: string)
    | JArr(items: seq<Json>)
    | JObj(fields: map<string, Json>)

  /** The reasons org.json gives when it raises a `JSONException`. */
  datatype JsonException =
    | Unparseable
    | NoValue(name: string)
    | TypeMismatch(name: string)
    | IndexOutOfRange(index: int)

  type JsonObject = map<string, Json>

  /** The string form that `optString` and `getString` give a present value:
      a string is returned as it is, a JSON null becomes "null", a boolean or a
      number its Java text. */
  function Text(v: Json): (r: string)
    ensures v.JStr? ==> r == v.s
    ensures v.JNull? ==> r == "null"
    ensures v.JBool? ==> r == (if v.b then "true" else "false")
    ensures v.JNum? ==> r == v.text
  {
    match v
    case JStr(s) => s
    case JNull => "null"
    case JBool(b) => if b then "true" else "false"
    case JNum(t) => t
    case JArr(_) => ""
    case JObj(_) => ""
  }

  /** `new JSONObject(text)`: the tokenizer's result must be an object. */
  function NewJsonObject(parse: string -> Option<Json>, text: string): (r: Result<JsonObject, JsonException>)
    ensures r.Ok? <==> parse(text).Some? && parse(text).value.JObj?
    ensures r.Ok? ==> parse(text) == Some(JObj(r.value))
  {
    match parse(text)
    case None => Err(Unparseable)
    case Some(JObj(fields)) => Ok(fields)
    case Some(_) => Err(TypeMismatch(""))
  }

  /** `JSONObject.has`: the key is present, whatever its value (JSON null included). */
  predicate Has(o: JsonObject, name: string)
  {
    name in o
  }

  /** `JSONObject.optString(name)`: the value's string form, or "" when the key is absent.
      It never raises. */
  function OptString(o: JsonObject, name: string): (r: string)
    ensures name !in o ==> r == ""
    ensures name in o && o[name].JStr? ==> r == o[name].s
    ensures name in o ==> r == Text(o[name])
  {
    if name in o then Text(o[name]) else ""
  }

  /** `JSONObject.getString(name)`: raises only when the key is absent; any present
      value is coerced to its string form. */
  function GetString(o: JsonObject, name: string): (r: Result<string, JsonException>)
    ensures r.Ok? <==> name in o
    ensures r.Ok? ==> r.value == Text(o[name])
    ensures r.Err? ==> r.error == NoValue(name)
  {
    if name in o then Ok(Text(o[name])) else Err(NoValue(name))
  }

  /** `JSONObject.getJSONObject(name)`: raises unless the value is present and an object. */
  function GetJsonObject(o: JsonObject, name: string): (r: Result<JsonObject, JsonException>)
    ensures r.Ok? <==> name in o && o[name].JObj?
    ensures r.Ok? ==> o[name] == JObj(r.value)
  {
    if name !in o then Err(NoValue(name))
    else if o[name].JObj? then Ok(o[name].fields)
    else Err(TypeMismatch(name))
  }

  /** `JSONObject.getJSONArray(name)`: raises unless the value is present and an array. */
  function GetJsonArray(o: JsonObject, name: string): (r: Result<seq<Json>, JsonException>)
    ensures r.Ok? <==> name in o && o[name].JArr?
    ensures r.Ok? ==> o[name] == JArr(r.value)
  {
    if name !in o then Err(NoValue(name))
    else if o[name].JArr? then Ok(o[name].items)
    else Err(TypeMismatch(name))
  }

  /** `JSONArray.isNull(index)`: true when the index is out of range or the element
      is a JSON null. */
  predicate IsNullAt(a: seq<Json>, index: int)
  {
    !(0 <= index < |a|) || a[index].JNull?
  }

  /** `JSONArray.getJSONObject(index)`: raises unless the index is in range and the
      element is an object. */
  function GetJsonObjectAt(a: seq<Json>, index: int): (r: Result<JsonObject, JsonException>)
    ensures r.Ok? <==> 0 <= index < |a| && a[index].JObj?
    ensures r.Ok? ==> a[index] == JObj(r.value)
    ensures !(0 <= index < |a|) ==> r == Err(IndexOutOfRange(index))
  {
    if !(0 <= index < |a|) then Err(IndexOutOfRange(index))
    else if a[index].JObj? then Ok(a[index].fields)
    else Err(TypeMismatch(""))
  }
}
