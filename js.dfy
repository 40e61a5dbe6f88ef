/** The few JavaScript language facts the widget relies on: optional values,
    truthiness, numbers that may be NaN, `parseInt(s, 10)` and the
    first-letter capitalisation of event names. */
module Js {

  datatype Option<T> = None | Some(value: T) {
    function GetOr(default: T): T {
      match this
      case Some(v) => v
      case None => default
    }
  }

  /** An option value as the widget inspects it: only its truthiness
      (`Boolean(v)`) and its strict equality with `true` matter. */
  datatype JsValue = JBool(b: bool) | JNum(n: int) | JStr(s: string) | JNull | JUndefined | JObject

  predicate Truthy(v: JsValue) {
    match v
    case JBool(b) => b
    case JNum(n) => n != 0
    case JStr(s) => s != ""
    case JNull => false
    case JUndefined => false
    case JObject => true
  }

  /** A number that may be NaN, as `parseInt` returns it. */
  datatype Num = Finite(value: int) | NaN

  predicate IsDigit(c: char) {
    '0' <= c <= '9'
  }

  /** The white space and line terminators `parseInt` skips before the number. */
  predicate IsJsSpace(c: char) {
    c in {'\U{9}', '\U{A}', '\U{B}', '\U{C}', '\U{D}', '\U{20}', '\U{A0}', '\U{1680}',
          '\U{2000}', '\U{2001}', '\U{2002}', '\U{2003}', '\U{2004}', '\U{2005}', '\U{2006}', '\U{2007}',
          '\U{2008}', '\U{2009}', '\U{200A}', '\U{2028}', '\U{2029}', '\U{202F}', '\U{205F}', '\U{3000}',
          '\U{FEFF}'}
  }

  /** `s` without its leading JavaScript white space: only white space is
      dropped, and what is left does not start with any. */
  function TrimStart(s: string): (r: string)
    ensures r == [] || !IsJsSpace(r[0])
    ensures |r| <= |s| && r == s[|s| - |r|..]
    ensures forall i :: 0 <= i < |s| - |r| ==> IsJsSpace(s[i])
  {
    if s != [] && IsJsSpace(s[0]) then TrimStart(s[1..]) else s
  }

  /** The longest prefix of `s` made of decimal digits. */
  function LeadingDigits(s: string): (z: string)
    ensures |z| <= |s| && z == s[..|z|]
    ensures forall i :: 0 <= i < |z| ==> IsDigit(z[i])
    ensures |z| < |s| ==> !IsDigit(s[|z|])
  {
    if s != [] && IsDigit(s[0]) then [s[0]] + LeadingDigits(s[1..]) else []
  }

  function DigitsValue(z: string): nat
    requires forall i :: 0 <= i < |z| ==> IsDigit(z[i])
  {
    if z == [] then 0
    else
      var last := z[|z| - 1];
      assert IsDigit(last);
      DigitsValue(z[..|z| - 1]) * 10 + (last as int - '0' as int)
  }

  /** `parseInt(s, 10)`: skip leading white space, take an optional sign, then
      the longest run of digits; NaN when there is no digit at all. */
  function ParseInt(s: string): Num {
    var t := TrimStart(s);
    var negative := t != [] && t[0] == '-';
    var unsigned := if t != [] && (t[0] == '-' || t[0] == '+') then t[1..] else t;
    var z := LeadingDigits(unsigned);
    if z == [] then NaN
    else Finite(if negative then -(DigitsValue(z) as int) else DigitsValue(z))
  }

  function NatDigits(n: nat): (z: string)
    ensures |z| > 0
    ensures forall i :: 0 <= i < |z| ==> IsDigit(z[i])
  {
    var last := ['0' + (n % 10) as char];
    if n < 10 then last else NatDigits(n / 10) + last
  }

  /** The decimal rendering of an integer, as `String(n)` gives it. */
  function Decimal(n: int): string {
    if n < 0 then "-" + NatDigits(-n) else NatDigits(n)
  }

  lemma {:induction false} NatDigitsValue(n: nat)
    ensures DigitsValue(NatDigits(n)) == n
  {
    if n >= 10 {
      NatDigitsValue(n / 10);
      var z := NatDigits(n);
      assert z[..|z| - 1] == NatDigits(n / 10);
    }
  }

  lemma {:induction false} LeadingDigitsOfDigits(z: string, rest: string)
    requires forall i :: 0 <= i < |z| ==> IsDigit(z[i])
    requires rest == [] || !IsDigit(rest[0])
    ensures LeadingDigits(z + rest) == z
  {
    if z != [] {
      assert (z + rest)[1..] == z[1..] + rest;
      LeadingDigitsOfDigits(z[1..], rest);
    } else {
      assert z + rest == rest;
    }
  }

  /** `parseInt` reads back the decimal rendering of any integer, whatever
      non-digit text follows it (`"500"`, `"500ms"`). */
  lemma ParseIntDecimal(n: int, rest: string)
    requires rest == [] || !IsDigit(rest[0])
    ensures ParseInt(Decimal(n) + rest) == Finite(n)
  {
    var m: nat := if n < 0 then -n else n;
    var z := NatDigits(m);
    NatDigitsValue(m);
    LeadingDigitsOfDigits(z, rest);
    if n < 0 {
      ParseIntNegative(n, z, rest);
    } else {
      ParseIntNonNegative(n, z, rest);
    }
  }

  lemma ParseIntNonNegative(n: nat, z: string, rest: string)
    requires z == NatDigits(n) && DigitsValue(z) == n && LeadingDigits(z + rest) == z
    ensures ParseInt(Decimal(n) + rest) == Finite(n)
  {
    var u := z + rest;
    assert u[0] == z[0];
    NoSpaceFirst(u);
    assert Decimal(n) + rest == u;
    ParseIntUnsigned(u, z);
  }

  lemma ParseIntNegative(n: int, z: string, rest: string)
    requires n < 0
    requires z == NatDigits(-n) && DigitsValue(z) == -n && LeadingDigits(z + rest) == z
    ensures ParseInt(Decimal(n) + rest) == Finite(n)
  {
    var u := z + rest;
    var s := "-" + u;
    assert Decimal(n) + rest == s;
    NoSpaceFirst(s);
    assert s[1..] == u;
    ParseIntSigned(s, z);
  }

  lemma NoSpaceFirst(s: string)
    requires s != [] && (s[0] == '-' || IsDigit(s[0]))
    ensures TrimStart(s) == s
  {
  }

  lemma ParseIntUnsigned(s: string, z: string)
    requires s != [] && s[0] != '-' && s[0] != '+'
    requires TrimStart(s) == s
    requires LeadingDigits(s) == z && z != []
    ensures ParseInt(s) == Finite(DigitsValue(z))
  {
  }

  lemma ParseIntSigned(s: string, z: string)
    requires s != [] && s[0] == '-'
    requires TrimStart(s) == s
    requires LeadingDigits(s[1..]) == z && z != []
    ensures ParseInt(s) == Finite(-(DigitsValue(z) as int))
  {
  }

  /** Leading white space never changes what `parseInt` reads. */
  lemma ParseIntSkipsSpace(c: char, s: string)
    requires IsJsSpace(c)
    ensures ParseInt([c] + s) == ParseInt(s)
  {
    assert ([c] + s)[1..] == s;
  }

  function UpperAscii(c: char): char {
    if 'a' <= c <= 'z' then (c as int - 32) as char else c
  }

  /** `_getCapitalizedEventName`: the first character upper-cased, the rest
      kept. `toUpperCase` maps all of Unicode; only ASCII letters are mapped
      here, which is exact for the event names the widget passes
      (`mouseover`, `mouseleave`, `click`). */
  function Capitalized(name: string): (r: string)
    ensures |r| == |name|
    ensures name != [] ==> r[0] == UpperAscii(name[0]) && r[1..] == name[1..]
    ensures name == [] ==> r == []
  {
    if name == [] then [] else [UpperAscii(name[0])] + name[1..]
  }

  /** Capitalising twice is capitalising once. */
  lemma CapitalizedIdempotent(name: string)
    ensures Capitalized(Capitalized(name)) == Capitalized(name)
  {
  }
}
