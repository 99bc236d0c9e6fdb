/**
 * Decoded JSON values, as `json.load` returns them and `json.dump` accepts
 * them. An object keeps its keys in order. Nothing here rules out a repeated
 * key, but the model reads only objects whose keys are distinct.
 */
module Json {
  import Dicts

  datatype Value =
    | Null
    | Bool(b: bool)
    | Int(i: int)
    | Str(s: string)
    | Arr(items: seq<Value>)
    | Obj(fields: Dicts.Dict<Value>)
}
