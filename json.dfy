/**
 * The JavaScript values that flow through the components: the parsed JSON
 * of a response and the objects built from it. Numbers are integers here.
 * Truthiness, `a || b`, `a ?? b`, optional member access `v?.k` and object
 * spread follow the ECMAScript rules for these kinds of value.
 */
module Json {
  import Text

  datatype Value =
    | Undefined
    | Null
    | Bool(b: bool)
    | Num(n: int)
    | Str(s: string)
    | Arr(items: seq<Value>)
    | Obj(fields: map<string, Value>)
    | Func(name: string)

  /** ToBoolean: what an `if`, `!`, `||` or `&&` sees. */
  predicate Truthy(v: Value) {
    match v
    case Undefined => false
    case Null => false
    case Bool(b) => b
    case Num(n) => n != 0
    case Str(s) => s != ""
    case Arr(_) => true
    case Obj(_) => true
    case Func(_) => true
  }

  /** `undefined` or `null`: what `??` and `?.` test for. */
  predicate Nullish(v: Value) {
    v.Undefined? || v.Null?
  }

  /** `a || b`. */
  function Or(a: Value, b: Value): (r: Value)
    ensures Truthy(a) ==> r == a
    ensures !Truthy(a) ==> r == b
  {
    if Truthy(a) then a else b
  }

  /** `a ?? b`. */
  function Coalesce(a: Value, b: Value): (r: Value)
    ensures !Nullish(a) ==> r == a
    ensures Nullish(a) ==> r == b
  {
    if Nullish(a) then b else a
  }

  /** `a || b` and `a ?? b` differ exactly on the falsy values that are not nullish (0, "", false). */
  lemma OrCoalesceDiffer(a: Value, b: Value)
    ensures Or(a, b) != Coalesce(a, b) ==> !Truthy(a) && !Nullish(a)
    ensures !Truthy(a) && !Nullish(a) && a != b ==> Or(a, b) != Coalesce(a, b)
  {
  }

  /** `v?.k`: a property of an object, an array's or a string's `length`, and `undefined` otherwise. */
  function Get(v: Value, k: string): (r: Value)
    ensures Nullish(v) ==> r == Undefined
    ensures v.Obj? && k in v.fields ==> r == v.fields[k]
    ensures v.Arr? && k == "length" ==> r == Num(|v.items|)
  {
    match v
    case Obj(f) => if k in f then f[k] else Undefined
    case Arr(items) => if k == "length" then Num(|items|) else Undefined
    case Str(s) => if k == "length" then Num(|s|) else Undefined
    case _ => Undefined
  }

  /** The own enumerable properties that `{...v}` copies (objects only; nullish spreads nothing). */
  function Fields(v: Value): map<string, Value> {
    if v.Obj? then v.fields else map[]
  }

  /** `{...a, ...b}`: b's properties win over a's. */
  function Spread(a: Value, b: Value): (r: Value)
    ensures r.Obj?
    ensures forall k :: k in Fields(b) ==> k in r.fields && r.fields[k] == Fields(b)[k]
    ensures forall k :: k in Fields(a) && k !in Fields(b) ==> k in r.fields && r.fields[k] == Fields(a)[k]
    ensures forall k :: k in r.fields ==> k in Fields(a) || k in Fields(b)
  {
    Obj(Fields(a) + Fields(b))
  }

  /** `Array.isArray(v) ? v : fallback` returning the items. */
  function ItemsOr(v: Value, fallback: seq<Value>): (r: seq<Value>)
    ensures v.Arr? ==> r == v.items
    ensures !v.Arr? ==> r == fallback
  {
    if v.Arr? then v.items else fallback
  }

  /** A string value, or the given default when `v` is not a string. */
  function StrOr(v: Value, d: string): (r: string)
    ensures v.Str? ==> r == v.s
    ensures !v.Str? ==> r == d
  {
    if v.Str? then v.s else d
  }

  /** The decimal digits of a natural number, most significant first. */
  function Digits(n: nat): (r: string)
    ensures |r| >= 1
    ensures forall i :: 0 <= i < |r| ==> Text.IsDigit(r[i])
    ensures |r| > 1 ==> r[0] != '0'
  {
    var d := "0123456789"[n % 10];
    if n < 10 then [d] else Digits(n / 10) + [d]
  }

  /** `String(n)` for an integer. */
  function NumToStr(n: int): string {
    if n < 0 then "-" + Digits(-n) else Digits(n)
  }

  /**
   * `String(v)`. An array renders as its items joined by ',' with `null`
   * and `undefined` items as empty; a plain object as "[object Object]".
   */
  function ToStr(v: Value): (r: string)
    ensures v.Str? ==> r == v.s
    ensures v.Undefined? ==> r == "undefined"
    decreases v
  {
    match v
    case Undefined => "undefined"
    case Null => "null"
    case Bool(b) => if b then "true" else "false"
    case Num(n) => NumToStr(n)
    case Str(s) => s
    case Arr(items) =>
      Text.Join(seq(|items|, i requires 0 <= i < |items| => if Nullish(items[i]) then "" else ToStr(items[i])), ',')
    case Obj(_) => "[object Object]"
    case Func(name) => name
  }

  /** How `Array.prototype.join` renders one element: `null` and `undefined` as "". */
  function JoinCell(v: Value): (r: string)
    ensures Nullish(v) ==> r == ""
    ensures !Nullish(v) ==> r == ToStr(v)
  {
    if Nullish(v) then "" else ToStr(v)
  }
}
