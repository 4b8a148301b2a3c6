/** Parsed JSON request bodies, as the route handlers see them after
    `await request.json()`, together with the two JavaScript operations the
    handlers apply to them: truthiness (`!x`) and destructuring
    (`const { a, b } = body`). */
module Json {
  import opened Options

  /** A JavaScript value as produced by `JSON.parse`, plus `Undefined` for a
      property that is not present. Numbers are integral in this model. */
  datatype Value =
    | Undefined
    | Null
    | Bool(b: bool)
    | Num(n: int)
    | Str(s: string)
    | Arr(elems: seq<Value>)
    | Obj(props: map<string, Value>)

  /** JavaScript truthiness: `undefined`, `null`, `false`, `0` and `""` are
      falsy; every array and every object is truthy, even an empty one. */
  predicate Truthy(v: Value) {
    match v
    case Undefined => false
    case Null => false
    case Bool(b) => b
    case Num(n) => n != 0
    case Str(s) => s != ""
    case Arr(_) => true
    case Obj(_) => true
  }

  /** Property read `v[key]` as done by destructuring. Reading a property of
      `undefined` or `null` throws a TypeError, modelled as `None`; strings
      and arrays expose `length`; every other missing property reads as
      `undefined`. */
  function Get(v: Value, key: string): (r: Option<Value>)
    ensures r.None? <==> v.Undefined? || v.Null?
    ensures v.Obj? && key in v.props ==> r == Some(v.props[key])
    ensures v.Obj? && key !in v.props ==> r == Some(Undefined)
  {
    match v
    case Undefined => None
    case Null => None
    case Obj(props) => Some(if key in props then props[key] else Undefined)
    case Str(s) => Some(if key == "length" then Num(|s|) else Undefined)
    case Arr(elems) => Some(if key == "length" then Num(|elems|) else Undefined)
    case _ => Some(Undefined)
  }
}
