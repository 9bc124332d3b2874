/**
 A parsed JSON document, as Python's `json.loads` hands it to the scripts.
 Text encoding and decoding are not modelled: a document is either this
 tree or a failure to parse.
 */
module Json {

  datatype Json =
    | JNull
    | JBool(b: bool)
    | JNum(n: real)
    | JStr(s: string)
    | JArr(items: seq<Json>)
    | JObj(fields: map<string, Json>)

  /** Python's `dict.get(key, default)`: a key that is present wins even when
      its value is `null`; only a missing key yields the default. */
  function Get(fields: map<string, Json>, key: string, default: Json): Json
  {
    if key in fields then fields[key] else default
  }
}
