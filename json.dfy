/** The subset of nlohmann::json behaviour the settings store relies on:
    membership tests, element access, `empty()` and assignment through
    `operator[]` with a string key. Floating-point numbers are not modelled. */
module Json {
  import opened Wrappers

  /** A JSON value. An object maps each key to one value, as nlohmann's
      default object type (a std::map) does. */
  datatype Json =
    | Null
    | Bool(b: bool)
    | Int(i: int)
    | Str(s: string)
    | Arr(items: seq<Json>)
    | Obj(fields: map<string, Json>)

  /** `j.contains(key)` followed by `j.at(key)`: only an object has members,
      so `contains` is false for every other kind of value. */
  function Member(j: Json, key: string): Option<Json> {
    if j.Obj? && key in j.fields then Some(j.fields[key]) else None
  }

  /** nlohmann's `empty()`: null is empty, an array or object is empty when it
      has no elements, and a boolean, number or string is never empty. */
  predicate IsEmpty(j: Json) {
    match j
    case Null => true
    case Arr(items) => |items| == 0
    case Obj(fields) => |fields| == 0
    case _ => false
  }

  /** `j[key] = v`: a null value first becomes an empty object, an object gets
      the member replaced, and any other value throws a type error (None). */
  function SetMember(j: Json, key: string, v: Json): (r: Option<Json>)
    ensures r.Some? <==> j.Null? || j.Obj?
    ensures r.Some? ==> r.value.Obj? && Member(r.value, key) == Some(v)
    ensures r.Some? ==> forall k :: k != key ==> Member(r.value, k) == Member(j, k)
  {
    match j
    case Null => Some(Obj(map[key := v]))
    case Obj(fields) => Some(Obj(fields[key := v]))
    case _ => None
  }
}
