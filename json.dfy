/**
 * The JSON values that request bodies and API payloads are made of.
 * An object is a map from keys to values, so the order in which a key
 * was first written is not represented.
 */
module Json {

  datatype Value =
    | Str(str: string)
    | Bool(b: bool)
    | Arr(elems: seq<Value>)
    | Obj(fields: map<string, Value>)
}
