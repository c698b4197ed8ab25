/**
 * JSON values as handed to the encoder: the middleware's own
 * `map[string]interface{}` bodies, and whatever value a panic carried, which
 * may be of any kind. Objects are maps, so key order carries no meaning here
 * (the encoder's key sorting is not part of this model).
 */
module Json {

  datatype Json =
    | Null
    | Bool(b: bool)
    | Int(n: int)
    | Num(literal: string)  // a number that is not an integer, as its JSON literal
    | Str(s: string)
    | Arr(items: seq<Json>)
    | Obj(fields: map<string, Json>)
}
