/** The JavaScript values that request bodies and stored documents are made
    of, and the handful of JavaScript operations the handlers apply to them:
    truthiness, `a || b`, property access, assignment (where assigning
    `undefined` unsets the key, as a Mongoose document does) and `push`. */
module Json {
  import opened Wrappers
  import opened Text

  datatype Value =
    | Undefined
    | Null
    | Bool(b: bool)
    | Num(n: real)
    | Str(s: string)
    | Arr(items: seq<Value>)
    | Obj(fields: map<string, Value>)

  /** A plain object, or the set paths of a document. */
  type Fields = map<string, Value>

  /** JavaScript truthiness (NaN is not a value of this model). */
  predicate Truthy(v: Value)
  {
    match v
    case Undefined => false
    case Null => false
    case Bool(b) => b
    case Num(n) => n != 0.0
    case Str(s) => s != ""
    case Arr(_) => true
    case Obj(_) => true
  }

  /** `a || b` */
  function Or(a: Value, b: Value): Value
  {
    if Truthy(a) then a else b
  }

  /** `m[k]`, with an absent key reading as `undefined`. */
  function Get(m: Fields, k: string): Value
  {
    if k in m then m[k] else Undefined
  }

  /** `doc[k] = v`: assigning `undefined` unsets the path. */
  function Put(m: Fields, k: string, v: Value): (r: Fields)
    ensures Get(r, k) == v
    ensures forall j :: j != k ==> Get(r, j) == Get(m, j)
  {
    if v == Undefined then m - {k} else m[k := v]
  }

  /** An object literal as it is stored: keys whose value is `undefined` are
      not set. */
  function Defined(m: Fields): (r: Fields)
    ensures forall k :: Get(r, k) == Get(m, k)
    ensures forall k :: k in r ==> r[k] != Undefined
  {
    map k | k in m && m[k] != Undefined :: m[k]
  }

  /** `v.k`: reading a property of `undefined` or `null` throws a TypeError
      (`None`); other non-objects have none of the properties read here. */
  function Member(v: Value, k: string): Option<Value>
  {
    match v
    case Undefined => None
    case Null => None
    case Obj(f) => Some(Get(f, k))
    case _ => Some(Undefined)
  }

  /** `v?.k` */
  function Prop(v: Value, k: string): Value
  {
    if v.Obj? then Get(v.fields, k) else Undefined
  }

  /** The fields of an object value; other values have none. */
  function FieldsOf(v: Value): Fields
  {
    if v.Obj? then v.fields else map[]
  }

  /** The elements of a Mongoose array path; an unset path is the empty array. */
  function Entries(v: Value): seq<Value>
  {
    if v.Arr? then v.items else []
  }

  /** `doc[k].push(e)` */
  function Push(m: Fields, k: string, e: Value): (r: Fields)
    ensures Entries(Get(r, k)) == Entries(Get(m, k)) + [e]
    ensures forall j :: j != k ==> Get(r, j) == Get(m, j)
  {
    m[k := Arr(Entries(Get(m, k)) + [e])]
  }

  /** The listed keys of `m` (destructuring `const {a, b} = m`, then
      `{a, b}`). */
  function Restrict(m: Fields, keys: set<string>): (r: Fields)
    ensures forall k :: Get(r, k) == if k in keys then Get(m, k) else Undefined
  {
    map k | k in keys && k in m && m[k] != Undefined :: m[k]
  }

  /** The value at a dotted path (`sla.status`). */
  function GetPath(v: Value, path: seq<string>): Value
    decreases |path|
  {
    if path == [] then v
    else if v.Obj? then GetPath(Get(v.fields, path[0]), path[1..])
    else Undefined
  }

  /** `String(v)`, as a template literal renders it. An integral number
      renders as its digits; a non-integral one renders here as its floor,
      where JavaScript writes its decimal fraction out. */
  function JsString(v: Value): string
    decreases v, 1
  {
    match v
    case Undefined => "undefined"
    case Null => "null"
    case Bool(b) => if b then "true" else "false"
    case Num(n) => IntToString(n.Floor)
    case Str(s) => s
    case Arr(items) => JoinComma(items)
    case Obj(_) => "[object Object]"
  }

  /** `items.join(",")`, where `null` and `undefined` render as "". */
  function JoinComma(items: seq<Value>): string
    decreases items, 0
  {
    if items == [] then ""
    else
      var last := items[|items| - 1];
      var text := if last == Undefined || last == Null then "" else JsString(last);
      if |items| == 1 then text else JoinComma(items[..|items| - 1]) + "," + text
  }
}
