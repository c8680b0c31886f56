/** The JSON values a request body can carry, with JavaScript's truthiness and
    property access. Numbers are integers: the model has no NaN and no
    fractional prices. */
module Json {
  import opened Wrappers

  datatype Value =
    | Undefined
    | Null
    | Bool(b: bool)
    | Num(n: int)
    | Str(s: string)
    | Arr(elems: seq<Value>)
    | Obj(fields: map<string, Value>)

  /** `!!v`: everything except undefined, null, false, 0 and "" is truthy. */
  predicate Truthy(v: Value)
  {
    match v
    case Undefined => false
    case Null => false
    case Bool(b) => b
    case Num(n) => n != 0
    case Str(s) => s != ""
    case Arr(_) => true
    case Obj(_) => true
  }

  /** `v[key]`: None when the access throws a TypeError (v is null or
      undefined); an absent property reads as undefined. */
  function Prop(v: Value, key: string): (r: Option<Value>)
    ensures r.None? <==> v.Null? || v.Undefined?
    ensures v.Obj? && key in v.fields ==> r == Some(v.fields[key])
    ensures r.Some? && !(v.Obj? && key in v.fields) ==> r == Some(Undefined)
  {
    match v
    case Undefined => None
    case Null => None
    case Obj(fields) => Some(if key in fields then fields[key] else Undefined)
    case _ => Some(Undefined)
  }
}
