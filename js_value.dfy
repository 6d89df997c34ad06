/**
 * JavaScript values as the client sees them once a gateway reply has been
 * parsed: the payloads, threads and messages the chat component stores.
 */
module JsValue {

  datatype Value =
    | Undefined
    | Null
    | Bool(b: bool)
    | Num(n: int)
    | Str(s: string)
    | Arr(items: seq<Value>)
    | Obj(fields: map<string, Value>)

  /** ToBoolean: what `if (v)`, `!v` and `v || w` test. */
  predicate Truthy(v: Value) {
    match v
    case Undefined => false
    case Null => false
    case Bool(b) => b
    case Num(n) => n != 0
    case Str(s) => s != ""
    case Arr(_) => true
    case Obj(_) => true
  }

  /** `a || b`: the left operand when it is truthy, the right one otherwise. */
  function Or(a: Value, b: Value): Value {
    if Truthy(a) then a else b
  }

  /** `v?.key`: the property of an object, `undefined` for anything else or a missing key. */
  function Member(v: Value, key: string): Value {
    if v.Obj? && key in v.fields then v.fields[key] else Undefined
  }

  /** The character of the decimal digit `d`. */
  function DigitChar(d: nat): (c: char)
    requires d < 10
    ensures '0' <= c <= '9' && c as int - '0' as int == d
  {
    (d + '0' as int) as char
  }

  predicate IsDigits(r: string) {
    forall i :: 0 <= i < |r| ==> '0' <= r[i] <= '9'
  }

  /** The number a run of decimal digits spells, most significant first. */
  function DigitsValue(r: string): nat
    requires IsDigits(r)
  {
    if r == [] then 0 else DigitsValue(r[..|r| - 1]) * 10 + (r[|r| - 1] as int - '0' as int)
  }

  /** Decimal digits of a natural number, most significant first, as `String(n)` writes them. */
  function Decimal(n: nat): (r: string)
    ensures 0 < |r| && IsDigits(r)
    ensures DigitsValue(r) == n
    ensures r[0] == '0' <==> n == 0
    ensures n < 10 <==> |r| == 1
  {
    if n < 10 then [DigitChar(n)]
    else
      var p := Decimal(n / 10);
      var r := p + [DigitChar(n % 10)];
      assert r[..|r| - 1] == p;
      r
  }

  /** `parts.join(",")`. */
  function JoinComma(parts: seq<string>): string {
    if |parts| == 0 then ""
    else if |parts| == 1 then parts[0]
    else parts[0] + "," + JoinComma(parts[1..])
  }

  /** The string a template literal `${v}` inserts for `v`. */
  function ToText(v: Value): (r: string)
    ensures v.Str? ==> r == v.s
    ensures v.Num? && v.n >= 0 ==> IsDigits(r) && DigitsValue(r) == v.n
    decreases v
  {
    match v
    case Undefined => "undefined"
    case Null => "null"
    case Bool(b) => if b then "true" else "false"
    case Num(n) => if n < 0 then "-" + Decimal(-n) else Decimal(n)
    case Str(s) => s
    case Arr(items) =>
      JoinComma(seq(|items|, i requires 0 <= i < |items| =>
        if items[i].Undefined? || items[i].Null? then "" else ToText(items[i])))
    case Obj(_) => "[object Object]"
  }

  /**
   * A path segment `${id}` tells ids apart: distinct string ids give
   * distinct segments, and so do distinct numeric ids, negative ones
   * included; a non-negative numeric id and the string of its digits give
   * the same segment.
   */
  lemma {:induction false} ToTextOfIds(a: string, b: string, m: int, n: int, k: nat)
    ensures ToText(Str(a)) == ToText(Str(b)) ==> a == b
    ensures ToText(Num(m)) == ToText(Num(n)) ==> m == n
    ensures ToText(Num(k)) == ToText(Str(Decimal(k)))
  {
    NumberText(m);
    NumberText(n);
    NumberText(k);
    var sm, sn := ToText(Num(m)), ToText(Num(n));
    if sm == sn {
      if m < 0 && n < 0 {
        assert sm[1..] == Decimal(-m) && sn[1..] == Decimal(-n);
        DecimalInjective(-m, -n);
      } else if m >= 0 && n >= 0 {
        DecimalInjective(m, n);
      }
    }
  }

  /** `${n}` for a number: its digits, after a minus sign when negative. */
  lemma NumberText(n: int)
    ensures ToText(Num(n)) == if n < 0 then "-" + Decimal(-n) else Decimal(n)
  {
  }

  /** Distinct numbers have distinct decimal digits. */
  lemma DecimalInjective(m: nat, n: nat)
    ensures Decimal(m) == Decimal(n) ==> m == n
  {
    if Decimal(m) == Decimal(n) {
      assert DigitsValue(Decimal(m)) == m;
    }
  }
}
