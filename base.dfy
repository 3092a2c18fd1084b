/** Value types shared by every part of the client model. */
module Base {

  /** Absent-or-present value; `None` plays the role of Go's `nil`. */
  datatype Option<+T> = None | Some(value: T)

  /** A byte slice such as a request payload or a response body. A nil slice is the empty sequence. */
  type Bytes = seq<bv8>

  /** A JSON value as the JSON library decodes it (numbers are kept as integers). */
  datatype Json =
    | JNull
    | JBool(b: bool)
    | JNumber(n: int)
    | JString(s: string)
    | JArray(items: seq<Json>)
    | JObject(members: map<string, Json>)

  /** The string held under `key` by a decoded object, or "" when the key is absent or
      does not hold a string: Go's comma-ok type assertion `m[key].(string)`. */
  function StringMember(j: Json, key: string): string
  {
    if j.JObject? && key in j.members && j.members[key].JString? then j.members[key].s else ""
  }

  /** The boolean held under `key` by a decoded object, or false when there is none. */
  function BoolMember(j: Json, key: string): bool
  {
    j.JObject? && key in j.members && j.members[key].JBool? && j.members[key].b
  }
}
