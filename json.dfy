/** The JSON documents read and written by the configuration store, kept
    abstract: the text syntax and its parser are not part of the model. */
module JsonValue {

  datatype Json =
    | JNull
    | JBool(b: bool)
    | JNum(n: int)
    | JStr(s: string)
    | JArr(items: seq<Json>)
    | JObj(fields: map<string, Json>)
}
