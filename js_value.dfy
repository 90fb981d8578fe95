/**
 * The few JavaScript runtime values the chat clients handle without looking
 * inside them: JSON payloads, the outcome of `JSON.parse`, and callbacks,
 * which are identified rather than executed.
 */
module JsValue {

  /** A JSON value as `JSON.parse` produces it (numbers restricted to integers),
      plus `Undefined`, which is what reading a missing member yields. */
  datatype Value =
    | Undefined
    | Null
    | Bool(b: bool)
    | Number(n: int)
    | Str(s: string)
    | Array(items: seq<Value>)
    | Object(members: map<string, Value>)

  /** `v.name`: the member of an object, `Undefined` for a missing member or a
      value that is not an object.  (On `null` JavaScript throws instead; every
      caller here catches that and does nothing, which is also what it does
      with `Undefined`.) */
  function Member(v: Value, name: string): (r: Value)
    ensures r != Undefined ==> v.Object? && name in v.members && r == v.members[name]
    ensures v.Object? && name in v.members ==> r == v.members[name]
  {
    if v.Object? && name in v.members then v.members[name] else Undefined
  }

  /** The outcome of `JSON.parse` on an inbound text frame. */
  datatype Parse = Malformed | Parsed(value: Value)

  /** The identity of a registered callback function; what it does when called
      is outside the model, only that (and with what) it is called. */
  datatype Callback = Callback(id: nat)
}
