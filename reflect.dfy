/** The part of Go's run-time type information the shape checks inspect. */
module Reflect {
  import opened Base

  datatype BasicKind = BoolKind | IntKind | FloatKind | StringKind

  /** A Go type, described by its kind and the parts of it the checks read. */
  datatype GoType =
    | Basic(kind: BasicKind)
    | Interface
    | Ptr(elem: GoType)
    | Slice(elem: GoType)
    | Map(key: GoType, elem: GoType)
    | Struct(name: string, fields: seq<Field>)

  /** A direct struct field: its name, type, the value of its `json` tag
      (what `Tag.Get("json")` returns, options included) and whether it is embedded. */
  datatype Field = Field(name: string, typ: GoType, jsonTag: string, anonymous: bool)

  /** A value passed as `interface{}`: the nil interface, or a value of a dynamic type.
      `keys` is the key set of a map value and is empty for every other value. */
  datatype Value = Nil | Value(typ: GoType, keys: set<string>)

  /** `map[string]interface{}`. */
  const StringInterfaceMap: GoType := Map(Basic(StringKind), Interface)

  /** `reflect.Type.FieldByName` restricted to direct fields: the first field called `name`. */
  function FieldByName(fields: seq<Field>, name: string): (r: Option<Field>)
    ensures r.Some? ==> r.value in fields && r.value.name == name
    ensures r.None? <==> forall f :: f in fields ==> f.name != name
    ensures r.Some? ==> exists i :: 0 <= i < |fields| && fields[i] == r.value
                                    && forall j :: 0 <= j < i ==> fields[j].name != name
  {
    if |fields| == 0 then None
    else if fields[0].name == name then Some(fields[0])
    else
      var rest := FieldByName(fields[1..], name);
      assert forall f :: f in fields ==> f == fields[0] || f in fields[1..];
      assert forall j :: 0 <= j < |fields[1..]| ==> fields[1..][j] == fields[j + 1];
      rest
  }
}
