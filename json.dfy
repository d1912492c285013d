/** Decoded JSON values, as the sentence dictionaries produced by the language
    model and carried in event payloads hold them. */
module Json {

  datatype Json =
    | JStr(str: string)
    | JNum(num: real)
    | JBool(b: bool)
    | JNull
    | JArray(items: seq<Json>)
    | JObject(fields: map<string, Json>)

  /** A decoded JSON object: a Python `dict` with string keys. */
  type JsonObject = map<string, Json>

  /** `obj.get(key, default)` for a field the code uses as a string: a missing
      key, or a value that is not a string, gives `default`. */
  function GetStr(obj: JsonObject, key: string, default: string): (r: string)
    ensures key !in obj ==> r == default
    ensures key in obj && obj[key].JStr? ==> r == obj[key].str
  {
    if key in obj && obj[key].JStr? then obj[key].str else default
  }

  /** `obj.get(key, default)` for a field the code uses as a number: a missing
      key, or a value that is not a number, gives `default`. */
  function GetNum(obj: JsonObject, key: string, default: real): (r: real)
    ensures key !in obj ==> r == default
    ensures key in obj && obj[key].JNum? ==> r == obj[key].num
  {
    if key in obj && obj[key].JNum? then obj[key].num else default
  }

  /** `obj.get(key, default)` for a field the code passes on unchanged. */
  function GetValue(obj: JsonObject, key: string, default: Json): (r: Json)
    ensures key in obj ==> r == obj[key]
    ensures key !in obj ==> r == default
  {
    if key in obj then obj[key] else default
  }
}
