/**
  JavaScript values as the assistant handles them: request bodies, chat
  history entries, tool parameters, tool data and the free-form context.
  Numbers are integers in this model (floating point is not modelled).
 */
module Values {

  datatype Option<+T> = None | Some(value: T)

  datatype Result<+T, +E> = Ok(value: T) | Err(error: E)

  datatype Value =
    | Undefined
    | Null
    | Bool(b: bool)
    | Num(n: int)
    | Str(s: string)
    | Arr(items: seq<Value>)
    | Obj(fields: map<string, Value>)

  const EmptyObject: Value := Obj(map[])

  /** JavaScript truthiness, as used by `if (v)`, `!v` and `v || d`. */
  predicate Truthy(v: Value) {
    match v
    case Undefined => false
    case Null => false
    case Bool(b) => b
    case Num(n) => n != 0
    case Str(s) => s != ""
    case Arr(_) => true
    case Obj(_) => true
  }

  /** `v || d` */
  function Or(v: Value, d: Value): Value {
    if Truthy(v) then v else d
  }

  /** `null` and `undefined`: reading a property of them throws a TypeError. */
  predicate Nullish(v: Value) {
    v.Undefined? || v.Null?
  }

  /** A default parameter or destructuring default `x = d` applies only to `undefined`. */
  function Default(v: Value, d: Value): Value {
    if v.Undefined? then d else v
  }

  /**
    Reading the property `key` of a value that is not nullish. Only own
    properties of objects are modelled; the properties read by the
    assistant (role, content, timezone, category, ...) are absent from
    strings and arrays.
   */
  function Prop(v: Value, key: string): Value {
    match v
    case Obj(m) => if key in m then m[key] else Undefined
    case _ => Undefined
  }

  /** Decimal text of a natural number, as JavaScript prints an array index. */
  function DecimalText(n: nat): string
    decreases n
  {
    var digit := "0123456789"[n % 10];
    if n < 10 then [digit] else DecimalText(n / 10) + [digit]
  }

  /** The entries `items[k]` keyed by the decimal text of `start + k`. */
  function IndexEntries<T>(items: seq<T>, start: nat): map<string, T>
    decreases |items|
  {
    if items == [] then map[]
    else map[DecimalText(start) := items[0]] + IndexEntries(items[1..], start + 1)
  }

  /**
    The own enumerable properties that object spread `{...v}` copies:
    an object's fields, the indices of an array or of a string, and
    nothing for every other value (`null` and `undefined` included).
   */
  function OwnEntries(v: Value): map<string, Value> {
    match v
    case Obj(m) => m
    case Arr(items) => IndexEntries(items, 0)
    case Str(s) => IndexEntries(seq(|s|, k requires 0 <= k < |s| => Str([s[k]])), 0)
    case _ => map[]
  }

  /** `{...a, ...b}`: later properties win. */
  function Spread(a: Value, b: Value): (r: Value)
    ensures r.Obj?
    ensures r.fields.Keys == OwnEntries(a).Keys + OwnEntries(b).Keys
    ensures forall k :: k in OwnEntries(b) ==> r.fields[k] == OwnEntries(b)[k]
    ensures forall k :: k in OwnEntries(a) && k !in OwnEntries(b) ==> r.fields[k] == OwnEntries(a)[k]
  {
    Obj(OwnEntries(a) + OwnEntries(b))
  }
}
