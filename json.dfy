/** JSON values as both ends decode them: Python's `json` on the server and the
    test harness, JavaScript's `JSON.parse` in the browser. Numbers are modelled
    as integers. Objects are maps from keys to values (a duplicate key keeps its
    last value in both decoders). */
module Json {

  datatype Json =
    | Null
    | Bool(b: bool)
    | Num(n: int)
    | Str(s: string)
    | Arr(items: seq<Json>)
    | Obj(fields: map<string, Json>)
}
