/**
 * The part of JavaScript's value semantics the block components rely on:
 * `undefined`, truthiness, `String(v)` as used by template literals, and
 * the `Option` wrapper for attributes that may be absent.
 *
 * Numbers are modelled as integers: no component here computes with
 * fractions except upload percentages and tile sizes, which have their own
 * `real` fields, and NaN is not modelled.
 */
module Js {

  datatype Option<+T> = None | Some(value: T) {
    function GetOr(default: T): T {
      match this
      case Some(v) => v
      case None => default
    }
  }

  /** A JavaScript value as seen through props and block attributes. */
  datatype JsValue =
    | Undefined
    | Null
    | Bool(b: bool)
    | Num(n: int)
    | Str(s: string)
    | Arr(items: seq<JsValue>)

  /** JavaScript truthiness: `undefined`, `null`, `false`, `0` and `''` are falsy; arrays are objects and truthy. */
  predicate Truthy(v: JsValue) {
    match v
    case Undefined => false
    case Null => false
    case Bool(b) => b
    case Num(n) => n != 0
    case Str(s) => s != ""
    case Arr(_) => true
  }

  /** `undefined` or `null`: the values React leaves out when rendering an attribute. */
  predicate IsNullish(v: JsValue) {
    v.Undefined? || v.Null?
  }

  /** `v.length > 0`: strings and arrays have a length; for other values `length` is `undefined` and the comparison is false. */
  predicate HasPositiveLength(v: JsValue) {
    match v
    case Str(s) => |s| > 0
    case Arr(items) => |items| > 0
    case _ => false
  }

  function DigitChar(d: nat): (c: char)
    requires d < 10
    ensures '0' <= c <= '9'
  {
    "0123456789"[d]
  }

  /** The decimal digits of a natural number, most significant first. */
  function NatToString(n: nat): (s: string)
    ensures |s| >= 1
    ensures forall i :: 0 <= i < |s| ==> '0' <= s[i] <= '9'
    ensures n >= 10 ==> |s| >= 2
    decreases n
  {
    if n < 10 then [DigitChar(n)] else NatToString(n / 10) + [DigitChar(n % 10)]
  }

  lemma DigitCharInjective(a: nat, b: nat)
    requires a < 10 && b < 10
    ensures DigitChar(a) == DigitChar(b) ==> a == b
  {
  }

  /** Distinct numbers have distinct decimal forms, so a number is recoverable from its text. */
  lemma {:induction false} NatToStringInjective(a: nat, b: nat)
    ensures NatToString(a) == NatToString(b) ==> a == b
    decreases a
  {
    var sa, sb := NatToString(a), NatToString(b);
    if sa == sb {
      // a one-digit and a longer form never coincide (lengths differ)
      if a < 10 && b < 10 {
        DigitCharInjective(a, b);
      } else if a >= 10 && b >= 10 {
        assert sa[|sa| - 1] == DigitChar(a % 10);
        assert sb[|sb| - 1] == DigitChar(b % 10);
        DigitCharInjective(a % 10, b % 10);
        assert sa[..|sa| - 1] == NatToString(a / 10);
        assert sb[..|sb| - 1] == NatToString(b / 10);
        NatToStringInjective(a / 10, b / 10);
      }
    }
  }

  function IntToString(n: int): (s: string)
    ensures |s| >= 1
  {
    if n < 0 then "-" + NatToString(-n) else NatToString(n)
  }

  /** `String(v)`, the text a template literal `${ v }` inserts. */
  function ToStr(v: JsValue): string
    decreases v
  {
    match v
    case Undefined => "undefined"
    case Null => "null"
    case Bool(b) => if b then "true" else "false"
    case Num(n) => IntToString(n)
    case Str(s) => s
    case Arr(items) => JoinFrom(v, 0)
  }

  /** `Array.prototype.join(',')` from position `i`, with `null` and `undefined` elements as empty text. */
  function JoinFrom(v: JsValue, i: nat): string
    requires v.Arr?
    decreases v, |v.items| - i
  {
    if i >= |v.items| then ""
    else
      var e := v.items[i];
      var head := if IsNullish(e) then "" else ToStr(e);
      if i + 1 == |v.items| then head else head + "," + JoinFrom(v, i + 1)
  }

  /** A property read on a plain object: a missing key reads as `undefined`. */
  function Get(record: map<string, JsValue>, key: string): JsValue {
    if key in record then record[key] else Undefined
  }

  /**
   * A class name passed as the first argument of `classnames`: an absent or
   * empty one is falsy and contributes no token.
   */
  function ClassToken(className: Option<string>): seq<string> {
    match className
    case Some(c) => if c != "" then [c] else []
    case None => []
  }

  /** `${ s }` for a string that may be `undefined`. */
  function OptionText(s: Option<string>): string {
    match s
    case Some(v) => v
    case None => ToStr(Undefined)
  }

  /** `${ n }` for a number that may be `undefined`. */
  function OptionIntText(n: Option<int>): string {
    match n
    case Some(v) => IntToString(v)
    case None => ToStr(Undefined)
  }
}
