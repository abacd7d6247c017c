/** Decoded JSON values: the dynamic `any` that Go's encoding/json produces
    (nil, bool, number, string, []any, map[string]any). Numbers are kept as integers. */
module Values {

  datatype Value =
    | Null
    | Bool(b: bool)
    | Number(n: int)
    | String(s: string)
    | Array(items: seq<Value>)
    | Object(fields: map<string, Value>)
}
