/**
 * The JavaScript values the service reads out of parsed JSON (result files and
 * HTTP response bodies), with the two operations it applies to them: property
 * access and conversion to text inside a template literal.
 * Numbers are modelled as integers; fractions, NaN and -0 are not modelled.
 */
module JsValues {
  import opened Wrappers
  import opened Decimal

  datatype JsValue =
    | Undefined
    | Null
    | Bool(b: bool)
    | Num(n: int)
    | Str(s: string)
    | Arr(items: seq<JsValue>)
    | Obj(props: map<string, JsValue>)

  /**
   * `v.key`: a TypeError (`None`) on undefined and null; on an object the
   * property or undefined; on any other value undefined, because none of the
   * keys the service reads is a built-in property of a primitive or array.
   */
  function GetProp(v: JsValue, key: string): (r: Option<JsValue>)
    ensures r.None? <==> v.Undefined? || v.Null?
    ensures r.Some? && r.value != Undefined ==> v.Obj? && key in v.props && v.props[key] == r.value
    ensures v.Obj? && key in v.props ==> r == Some(v.props[key])
    ensures v.Obj? && key !in v.props ==> r == Some(Undefined)
    ensures !(v.Obj? || v.Undefined? || v.Null?) ==> r == Some(Undefined)
  {
    match v
    case Undefined => None
    case Null => None
    case Obj(m) => Some(if key in m then m[key] else Undefined)
    case _ => Some(Undefined)
  }

  /** The decimal text of an integer, with a minus sign when it is negative. */
  function IntText(n: int): (s: string)
    ensures n >= 0 ==> s == FromNat(n)
    ensures '/' !in s
  {
    var digits := FromNat(if n < 0 then -n else n);
    if n < 0 then "-" + digits else digits
  }

  /**
   * `${v}`: the text a template literal gives `v`. An array is joined with
   * commas, its undefined and null elements giving empty text; an object
   * prints as "[object Object]" (an object with its own `toString` key, which
   * makes the conversion throw, is not modelled).
   */
  function ToText(v: JsValue): (s: string)
    ensures v.Str? ==> s == v.s
    ensures v.Num? ==> s == IntText(v.n)
    decreases v, 1
  {
    match v
    case Undefined => "undefined"
    case Null => "null"
    case Bool(b) => if b then "true" else "false"
    case Num(n) => IntText(n)
    case Str(s) => s
    case Arr(items) => JoinItems(v, |items|)
    case Obj(_) => "[object Object]"
  }

  /** The comma-joined text of the first `n` elements of the array `v`. */
  function JoinItems(v: JsValue, n: nat): string
    requires v.Arr? && n <= |v.items|
    decreases v, 0, n
  {
    if n == 0 then ""
    else
      var prefix := if n == 1 then "" else JoinItems(v, n - 1) + ",";
      var item := v.items[n - 1];
      prefix + (if item.Undefined? || item.Null? then "" else ToText(item))
  }
}
