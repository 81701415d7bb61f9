/** JSON values, the shape in which sale records are stored and posted. */
module Json {

  datatype Json =
    | JNull
    | JBool(b: bool)
    | JNum(n: int)
    | JStr(s: string)
    | JArr(elems: seq<Json>)
    | JObj(fields: map<string, Json>)

  /** A JSON object: what `saveSaleForSync` receives and what the queue holds. */
  type Record = map<string, Json>
}
