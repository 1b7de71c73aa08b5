/** The JSON values the SDK builds with org.json.  Objects are maps, so
    the order of keys is not part of the model. */
module Json {

  datatype Value =
    | Null
    | Bool(b: bool)
    | Int(i: int)
    | Num(r: real)
    | Str(s: string)
    | Obj(fields: map<string, Value>)
    | Arr(elems: seq<Value>)
}
