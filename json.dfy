/**
 * Parsed JSON, as nlohmann::json and QJsonDocument hand it to the plugin.
 * Parsing itself is not modelled: a parser is a parameter of type
 * `string -> Option<Json>`, whose None is a parse error (nlohmann's
 * parse_error, a null QJsonDocument). Numbers are integral.
 *
 * The accessors below are Qt's: QJsonValue::toString, toInt, toBool, toObject
 * and toArray return a default (empty string, 0, false, empty object, empty
 * array) for a value of another type, and QJsonObject::value of a missing key
 * reads as a value of no type.
 */
module Json {

  datatype Json =
    | JNull
    | JBool(b: bool)
    | JNumber(n: int)
    | JString(s: string)
    | JArray(items: seq<Json>)
    | JObject(fields: map<string, Json>)

  const IntMin: int := -0x8000_0000
  const IntMax: int := 0x7FFF_FFFF

  /** QJsonObject::value (and operator[] read): a missing key reads as null. */
  function Field(obj: map<string, Json>, key: string): (v: Json)
    ensures key !in obj ==> v == JNull
  {
    if key in obj then obj[key] else JNull
  }

  /** nlohmann::json::contains: true only for an object that has the key. */
  predicate Contains(v: Json, key: string)
  {
    v.JObject? && key in v.fields
  }

  function AsString(v: Json): (s: string)
    ensures !v.JString? ==> s == ""
  {
    if v.JString? then v.s else ""
  }

  /** QJsonValue::toInt(): the number when it fits a 32-bit int, otherwise 0. */
  function AsInt(v: Json): (i: int)
    ensures IntMin <= i <= IntMax
    ensures v.JNumber? && IntMin <= v.n <= IntMax ==> i == v.n
  {
    if v.JNumber? && IntMin <= v.n <= IntMax then v.n else 0
  }

  function AsBool(v: Json): (b: bool)
    ensures b ==> v == JBool(true)
  {
    v.JBool? && v.b
  }

  function AsObject(v: Json): (m: map<string, Json>)
    ensures !v.JObject? ==> m == map[]
  {
    if v.JObject? then v.fields else map[]
  }

  function AsArray(v: Json): (a: seq<Json>)
    ensures !v.JArray? ==> a == []
  {
    if v.JArray? then v.items else []
  }
}
