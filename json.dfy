/**
 * A JSON value as Python's json module hands it to the client: objects are
 * dictionaries keyed by strings, whole numbers are ints and other numbers
 * floats. Decoding text into such a value is not part of this model; the
 * window receives the decoder as a parameter.
 */
module Json {

  datatype Json =
    | JNull
    | JBool(b: bool)
    | JInt(i: int)
    | JReal(r: real)
    | JStr(s: string)
    | JArr(items: seq<Json>)
    | JObj(fields: map<string, Json>)

  /** The value stored under `key`, or `default` when the key is absent. */
  function FieldOr(m: map<string, Json>, key: string, default: Json): Json {
    if key in m then m[key] else default
  }
}
