/**
 * Values shared by the contracts adapter: optional values (TypeScript's
 * `undefined`), results of operations that may throw, and JSON values as they
 * travel over the wire.
 */
module Wire {

  /** An optional value; `None` stands for an absent (`undefined`) field. */
  datatype Option<+T> = None | Some(value: T)

  /** The outcome of a step that either yields a value or throws an error. */
  datatype Result<+T, +E> = Success(value: T) | Failure(error: E)

  /** A JSON value. Numbers are integers: the model never needs fractions. */
  datatype Json =
    | JNull
    | JBool(b: bool)
    | JNumber(n: int)
    | JString(s: string)
    | JArray(items: seq<Json>)
    | JObject(members: map<string, Json>)

  /** A JSON array of strings. */
  function JStrings(ss: seq<string>): (j: Json)
    ensures j.JArray? && |j.items| == |ss|
    ensures forall i :: 0 <= i < |ss| ==> j.items[i] == JString(ss[i])
  {
    JArray(seq(|ss|, i requires 0 <= i < |ss| => JString(ss[i])))
  }

  /**
   * The members an object literal contributes for one possibly-undefined
   * property: JSON serialisation drops a property whose value is `undefined`.
   */
  function Member<K>(key: K, value: Option<Json>): (m: map<K, Json>)
    ensures key in m <==> value.Some?
    ensures m.Keys <= {key}
    ensures value.Some? ==> m[key] == value.value
  {
    if value.Some? then map[key := value.value] else map[]
  }

  function OptString(s: Option<string>): Option<Json>
  {
    if s.Some? then Some(JString(s.value)) else None
  }

  function OptStrings(ss: Option<seq<string>>): Option<Json>
  {
    if ss.Some? then Some(JStrings(ss.value)) else None
  }

  function OptNumber(n: Option<int>): Option<Json>
  {
    if n.Some? then Some(JNumber(n.value)) else None
  }

  function OptObject(m: Option<map<string, Json>>): Option<Json>
  {
    if m.Some? then Some(JObject(m.value)) else None
  }
}
