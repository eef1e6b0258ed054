/** JavaScript values as they travel in the JSON bodies of the booking path:
    what a parsed request body holds, how a property read and JavaScript
    truthiness behave on it, and what `JSON.stringify` does with `undefined`. */
module Json {

  datatype Option<+T> = None | Some(value: T)

  /** A value produced by `JSON.parse`. */
  datatype JsonValue =
    | JNull
    | JBool(b: bool)
    | JNum(n: real)
    | JStr(s: string)
    | JArray(items: seq<JsonValue>)
    | JObject(members: map<string, JsonValue>)

  /** `obj.key` on a parsed object: `None` stands for `undefined`. */
  function Get(obj: map<string, JsonValue>, key: string): (v: Option<JsonValue>)
    ensures v.Some? <==> key in obj
    ensures v.Some? ==> v.value == obj[key]
  {
    if key in obj then Some(obj[key]) else None
  }

  /** JavaScript truthiness of a property read: `undefined`, `null`, `false`,
      `0`, `-0` and `''` are falsy; every other string, number, array and
      object is truthy (JSON has no `NaN`). */
  predicate Truthy(v: Option<JsonValue>)
    ensures Truthy(v) <==> v.Some? && v.value !in {JNull, JBool(false), JNum(0.0), JStr("")}
  {
    match v
    case None => false
    case Some(JNull) => false
    case Some(JBool(b)) => b
    case Some(JNum(n)) => n != 0.0
    case Some(JStr(s)) => s != ""
    case Some(JArray(_)) => true
    case Some(JObject(_)) => true
  }

  /** Whether `${v}` in a template literal yields a string rather than
      throwing. A parsed object normally converts through the inherited
      `Object.prototype.toString`, but an own `toString` member from the JSON
      is not callable and the inherited `valueOf` returns the object itself,
      so the conversion throws a TypeError. An array joins its items, so it
      throws when one of them does; members of an object are never
      converted. */
  predicate Interpolates(v: JsonValue)
    ensures !v.JObject? && !v.JArray? ==> Interpolates(v)
    ensures v.JObject? && "toString" in v.members ==> !Interpolates(v)
  {
    match v
    case JObject(members) => "toString" !in members
    case JArray(items) => forall i :: 0 <= i < |items| ==> Interpolates(items[i])
    case _ => true
  }

  /** The object a receiver parses from `JSON.stringify({...})` over string
      members, some of which may be `undefined`: those members are dropped. */
  function Stringify(members: map<string, Option<string>>): (obj: map<string, JsonValue>)
    ensures forall k :: k in obj <==> k in members && members[k].Some?
    ensures forall k :: k in obj ==> obj[k] == JStr(members[k].value)
  {
    map k | k in members && members[k].Some? :: JStr(members[k].value)
  }
}
