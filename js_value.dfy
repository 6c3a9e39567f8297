/** The JavaScript values the agents handle: whatever JSON.parse can produce,
    plus `undefined`, which reading a missing property yields. Alongside them,
    the few JavaScript operations the agents apply to such values. */
module JsValue {
  import opened Wrappers

  datatype Value =
    | Undefined
    | Null
    | Bool(b: bool)
    | Num(n: real)
    | Str(s: string)
    | Arr(items: seq<Value>)
    | Obj(fields: map<string, Value>)

  /** JavaScript truthiness, as used by `if (v)`, `v || d` and `a && b`.
      JSON has no NaN, so a number is falsy exactly when it is zero. */
  predicate Truthy(v: Value) {
    match v
    case Undefined => false
    case Null => false
    case Bool(b) => b
    case Num(n) => n != 0.0
    case Str(s) => s != ""
    case Arr(_) => true
    case Obj(_) => true
  }

  /** The value of property `key` of a value that is neither null nor
      undefined: an object's own field, and `undefined` otherwise. */
  function Prop(v: Value, key: string): Value {
    if v.Obj? && key in v.fields then v.fields[key] else Undefined
  }

  /** The property read `v.key`. Reading a property of null or undefined
      throws a TypeError, which is None here. */
  function Get(v: Value, key: string): (r: Option<Value>)
    ensures r.None? <==> v.Null? || v.Undefined?
    ensures r.Some? ==> r.value == Prop(v, key)
  {
    if v.Null? || v.Undefined? then None else Some(Prop(v, key))
  }

  /** `a || b`: the first operand when it is truthy, else the second. */
  function Or(a: Value, b: Value): (r: Value)
    ensures Truthy(b) ==> Truthy(r)
    ensures r == a || r == b
  {
    if Truthy(a) then a else b
  }

  /** `v < k` for a number `k`, or None when the comparison throws. `v` is
      first converted to a number. Null and booleans convert to 0 or 1, and
      undefined to NaN, which compares false. An object is converted through
      `valueOf` and then `toString`: the inherited `valueOf` gives back the
      object itself, and the inherited `toString` gives a text that is not a
      number (NaN again). A parsed object cannot hold a function, so an own
      `toString` field hides the inherited one without being callable, and
      the conversion throws a TypeError. Strings and arrays are compared as
      NaN. */
  function LessThan(v: Value, k: real): (r: Option<bool>)
    ensures r.None? <==> v.Obj? && "toString" in v.fields
    ensures v.Num? ==> r == Some(v.n < k)
  {
    match v
    case Num(n) => Some(n < k)
    case Bool(b) => Some((if b then 1.0 else 0.0) < k)
    case Null => Some(0.0 < k)
    case Obj(fields) => if "toString" in fields then None else Some(false)
    case _ => Some(false)
  }

  predicate IsDigit(c: char) {
    '0' <= c <= '9'
  }

  predicate AllDigits(s: string) {
    forall i :: 0 <= i < |s| ==> IsDigit(s[i])
  }

  function DigitChar(d: nat): (c: char)
    requires d < 10
    ensures IsDigit(c)
  {
    "0123456789"[d]
  }

  function DigitValue(c: char): (d: nat)
    requires IsDigit(c)
    ensures d < 10
  {
    (c as int - '0' as int) as nat
  }

  /** `${n}` for a non-negative integer: its decimal digits, most
      significant first, without leading zeros. */
  function NatToString(n: nat): (s: string)
    ensures |s| >= 1 && AllDigits(s)
    ensures s[0] == '0' ==> n == 0
    decreases n
  {
    if n < 10 then [DigitChar(n)] else NatToString(n / 10) + [DigitChar(n % 10)]
  }

  /** The number a string of decimal digits denotes. */
  function DigitsValue(s: string): nat
    requires AllDigits(s)
  {
    if s == [] then 0 else DigitsValue(s[..|s| - 1]) * 10 + DigitValue(s[|s| - 1])
  }

  /** The longest prefix of `s` made of decimal digits. */
  function LeadingDigits(s: string): (d: string)
    ensures AllDigits(d) && d <= s
  {
    if s == [] || !IsDigit(s[0]) then [] else [s[0]] + LeadingDigits(s[1..])
  }

  /** Reading back the digits of `${n}` gives `n`. */
  lemma {:induction false} NatToStringRoundTrip(n: nat)
    ensures DigitsValue(NatToString(n)) == n
    decreases n
  {
    var s := NatToString(n);
    if n >= 10 {
      NatToStringRoundTrip(n / 10);
      assert s[..|s| - 1] == NatToString(n / 10);
      assert DigitValue(DigitChar(n % 10)) == n % 10;
    } else {
      assert s[..|s| - 1] == [];
      assert DigitValue(DigitChar(n)) == n;
    }
  }

  /** A run of digits followed by a non-digit (or nothing) is read whole,
      and no further. */
  lemma {:induction false} LeadingDigitsOfDigitsThen(d: string, rest: string)
    requires AllDigits(d)
    requires rest == [] || !IsDigit(rest[0])
    ensures LeadingDigits(d + rest) == d
  {
    if d != [] {
      assert (d + rest)[0] == d[0];
      assert (d + rest)[1..] == d[1..] + rest;
      LeadingDigitsOfDigitsThen(d[1..], rest);
      assert [d[0]] + d[1..] == d;
    } else {
      assert d + rest == rest;
    }
  }
}
