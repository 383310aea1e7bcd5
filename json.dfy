/** JSON-like values: the arguments a completion proposes for a tool, tool
    results and the dictionaries the trace records serialise to. */
module Json {
  datatype Json =
    | JNull
    | JBool(b: bool)
    | JNum(n: real)
    | JStr(s: string)
    | JArr(items: seq<Json>)
    | JObj(fields: map<string, Json>)
}
