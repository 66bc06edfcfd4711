/**
 * The JavaScript values the node handles: parsed JSON responses, request
 * bodies, stored static data. `Undefined` is included because the node can
 * produce it (the first element of an empty array, the response of an
 * operation that issued no call).
 */
module Js {

  datatype Value =
    | Undefined
    | Null
    | Bool(b: bool)
    | Num(n: int)
    | Str(s: string)
    | Arr(elems: seq<Value>)
    | Obj(props: map<string, Value>)

  /** The string a template literal `${v}` produces for `v`. */
  function Text(v: Value): string
    decreases v, 1, 0
  {
    match v
    case Undefined => "undefined"
    case Null => "null"
    case Bool(b) => if b then "true" else "false"
    case Num(n) => Decimal(n)
    case Str(s) => s
    case Arr(_) => JoinFrom(v, 0)
    case Obj(_) => "[object Object]"
  }

  /** `Array.prototype.join(",")` of the elements from index `i` on; null and undefined elements print as "". */
  function JoinFrom(v: Value, i: nat): string
    requires v.Arr?
    decreases v, 0, |v.elems| - i
  {
    if i >= |v.elems| then ""
    else
      var e := v.elems[i];
      assert e in v.elems;
      (if i > 0 then "," else "")
      + (if e.Undefined? || e.Null? then "" else Text(e))
      + JoinFrom(v, i + 1)
  }

  function Decimal(n: int): string
  {
    if n < 0 then "-" + Digits(-n) else Digits(n)
  }

  function Digits(n: nat): string
    decreases n
  {
    if n < 10 then [Digit(n)] else Digits(n / 10) + [Digit(n % 10)]
  }

  function Digit(d: nat): char
    requires d < 10
  {
    "0123456789"[d]
  }
}
