/** Custom attributes: a key and an opaque value, built by one constructor per value kind
    (customattributes.go). */
module CustomAttributes {
  import opened Json

  /** Go's int64. */
  newtype int64 = x: int | -0x8000_0000_0000_0000 <= x < 0x8000_0000_0000_0000

  /** A key plus an opaque value. Both are unexported in Go and only readable through
      Key and Value, so an attribute never changes after construction; a datatype value
      has the same guarantee. */
  datatype CustomAttribute = CustomAttribute(key: string, value: JsonValue) {

    function Key(): string {
      key
    }

    function Value(): JsonValue {
      value
    }
  }

  /** The generic constructor every typed constructor delegates to. */
  function Attribute(key: string, value: JsonValue): (a: CustomAttribute)
    ensures a.Key() == key && a.Value() == value
  {
    CustomAttribute(key, value)
  }

  function BoolAttribute(key: string, value: bool): (a: CustomAttribute)
    ensures a == Attribute(key, JBool(value))
  {
    CustomAttribute(key, JBool(value))
  }

  function Int64Attribute(key: string, value: int64): (a: CustomAttribute)
    ensures a == Attribute(key, JInt(value as int))
  {
    CustomAttribute(key, JInt(value as int))
  }

  function StringAttribute(key: string, value: string): (a: CustomAttribute)
    ensures a == Attribute(key, JStr(value))
  {
    CustomAttribute(key, JStr(value))
  }

  /** A date attribute stores the RFC 3339 (section 5.6) text of the instant. The formatter
      is the time library's and is a parameter here. */
  function DateAttribute<Time>(key: string, value: Time, rfc3339: Time -> string): (a: CustomAttribute)
    ensures a.Key() == key && a.Value().JStr? && a.Value().s == rfc3339(value)
  {
    CustomAttribute(key, JStr(rfc3339(value)))
  }

  function StringSliceAttribute(key: string, value: seq<string>): (a: CustomAttribute)
    ensures a == Attribute(key, JStrList(value))
  {
    CustomAttribute(key, JStrList(value))
  }

  /** The add/remove map is stored as given: neither its keys nor its lists are checked. */
  function ModifyStringSliceAttribute(key: string, value: map<SliceAttributeAction, seq<string>>): (a: CustomAttribute)
    ensures a == Attribute(key, JListEdit(value))
    ensures a.Value().JListEdit? && a.Value().edits == value
  {
    CustomAttribute(key, JListEdit(value))
  }
}
