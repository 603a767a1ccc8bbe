/** The JSON-shaped values the reporting code builds (Python dicts, lists,
    strings, numbers and None), kept as values: rendering them to text with
    `json.dumps` is not part of this model. */
module Json {
  import opened Seqs

  datatype Json =
    | JNull
    | JString(str: string)
    | JNumber(num: real)
    | JInt(integer: int)
    | JArray(items: seq<Json>)
    | JObject(fields: map<string, Json>)

  /** Reads a number field written as `JNumber`. */
  function GetNumber(j: Json, key: string): Option<real>
  {
    if j.JObject? && key in j.fields && j.fields[key].JNumber? then Some(j.fields[key].num) else None
  }

  /** Reads an integer field written as `JInt`. */
  function GetInt(j: Json, key: string): Option<int>
  {
    if j.JObject? && key in j.fields && j.fields[key].JInt? then Some(j.fields[key].integer) else None
  }

  /** Reads a string field. */
  function GetString(j: Json, key: string): Option<string>
  {
    if j.JObject? && key in j.fields && j.fields[key].JString? then Some(j.fields[key].str) else None
  }
}
