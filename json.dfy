/** JSON documents at the level of values: what encoding/json produces and consumes
    once byte layout, key ordering and number representation are set aside. */
module Json {

  /** The action keys of a list-edit attribute (customattributes.go `SliceAttributeAction`).
      Like the Go type, any string is admitted; only two are defined. */
  type SliceAttributeAction = string

  const SliceAttributeActionAdd: SliceAttributeAction := "add"
  const SliceAttributeActionRemove: SliceAttributeAction := "remove"

  /** A JSON value. `JListEdit` is the add/remove map a list-edit custom attribute carries;
      on the wire it is an object whose keys are the actions. */
  datatype JsonValue =
    | JNull
    | JBool(b: bool)
    | JInt(i: int)
    | JStr(s: string)
    | JStrList(items: seq<string>)
    | JArray(elems: seq<JsonValue>)
    | JObject(fields: map<string, JsonValue>)
    | JListEdit(edits: map<SliceAttributeAction, seq<string>>)
}
