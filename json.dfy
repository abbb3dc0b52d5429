/** The JavaScript values that the services read from request bodies and store
    in records, with the parts of JavaScript's semantics the services rely on:
    truthiness (`if (x)`, `x || y`), `String(x)`, `Number(x)` and `parseFloat(x)`. */
module Json {

  datatype Option<T> = None | Some(value: T)

  /** A scalar JavaScript value. `Undefined` stands for a property that is not
      there; records in the store never hold `Undefined` or `Null`. */
  datatype Value = Undefined | Null | Bool(b: bool) | Str(s: string) | Num(n: real)

  /** JavaScript truthiness: `undefined`, `null`, `false`, `""` and `0` are falsy. */
  predicate Truthy(v: Value)
  {
    match v
    case Undefined => false
    case Null => false
    case Bool(b) => b
    case Str(s) => s != ""
    case Num(n) => n != 0.0
  }

  /** The value of the JavaScript expression `a || b`. */
  function Or(a: Value, b: Value): Value
  {
    if Truthy(a) then a else b
  }

  /** `a || b` is falsy only when both are. */
  lemma OrFallsBackOnFalsy(a: Value, b: Value)
    ensures Truthy(Or(a, b)) <==> Truthy(a) || Truthy(b)
  {
  }

  predicate IsDigit(c: char)
  {
    '0' <= c <= '9'
  }

  predicate AllDigits(s: string)
  {
    forall i :: 0 <= i < |s| ==> IsDigit(s[i])
  }

  function DigitChar(d: nat): (c: char)
    requires d < 10
    ensures IsDigit(c)
  {
    ['0', '1', '2', '3', '4', '5', '6', '7', '8', '9'][d]
  }

  function DigitValue(c: char): (d: nat)
    requires IsDigit(c)
    ensures d < 10
  {
    c as int - '0' as int
  }

  /** The number a string of decimal digits denotes. */
  function DigitsToNat(s: string): nat
    requires AllDigits(s)
  {
    if s == [] then 0 else DigitsToNat(s[..|s| - 1]) * 10 + DigitValue(s[|s| - 1])
  }

  /** The decimal rendering of a natural number, as `String(n)` gives it. */
  function NatToString(n: nat): (s: string)
    ensures |s| > 0 && AllDigits(s)
  {
    if n < 10 then [DigitChar(n)] else NatToString(n / 10) + [DigitChar(n % 10)]
  }

  lemma {:induction false} NatToStringRoundTrip(n: nat)
    ensures DigitsToNat(NatToString(n)) == n
  {
    var s := NatToString(n);
    if n < 10 {
      assert s[..|s| - 1] == [];
    } else {
      var prefix := NatToString(n / 10);
      assert s == prefix + [DigitChar(n % 10)];
      assert s[..|s| - 1] == prefix;
      NatToStringRoundTrip(n / 10);
    }
  }

  function IntToString(i: int): string
  {
    if i < 0 then "-" + NatToString(-i) else NatToString(i)
  }

  /** What `String(x)` yields for a value. Numbers with a fractional part are
      rendered by a floating-point algorithm that is not modelled: they all
      render to the same placeholder text, which holds the decimal point that
      such a rendering has. */
  function JsString(v: Value): string
  {
    match v
    case Undefined => "undefined"
    case Null => "null"
    case Bool(b) => if b then "true" else "false"
    case Str(s) => s
    case Num(n) => if n == n.Floor as real then IntToString(n.Floor) else "<whole>.<fraction>"
  }

  lemma JsStringOfBool(b: bool, q: string)
    ensures JsString(Bool(b)) == q <==> (b && q == "true") || (!b && q == "false")
  {
  }

  /** The number of leading decimal digits of s. */
  function LeadingDigits(s: string): (k: nat)
    ensures k <= |s|
    ensures AllDigits(s[..k])
    ensures k < |s| ==> !IsDigit(s[k])
  {
    if s == [] || !IsDigit(s[0]) then 0
    else
      var k := 1 + LeadingDigits(s[1..]);
      assert s[..k] == [s[0]] + s[1..][..k - 1];
      k
  }

  lemma {:induction false} LeadingDigitsOfDigits(s: string)
    requires AllDigits(s)
    ensures LeadingDigits(s) == |s|
  {
    if s != [] {
      LeadingDigitsOfDigits(s[1..]);
    }
  }

  function Pow10(k: nat): (p: nat)
    ensures p >= 1
  {
    if k == 0 then 1 else 10 * Pow10(k - 1)
  }

  /** The longest prefix of s that reads as a decimal literal
      (`[+-]? digits [. digits]`, with at least one digit), as its value and
      its length. Exponents, `Infinity` and hexadecimal are not modelled. */
  function DecimalPrefix(s: string): (r: Option<(real, nat)>)
    ensures r.Some? ==> 0 < r.value.1 <= |s|
  {
    var signLen := if |s| > 0 && (s[0] == '+' || s[0] == '-') then 1 else 0;
    var t := s[signLen..];
    var i := LeadingDigits(t);
    var hasDot := i < |t| && t[i] == '.';
    var f := if hasDot then LeadingDigits(t[i + 1..]) else 0;
    if i + f == 0 then None
    else
      var fraction := if hasDot then DigitsToNat(t[i + 1..][..f]) as real / Pow10(f) as real else 0.0;
      var magnitude := DigitsToNat(t[..i]) as real + fraction;
      var len := signLen + i + (if hasDot then 1 + f else 0);
      Some((if signLen == 1 && s[0] == '-' then -magnitude else magnitude, len))
  }

  /** The white-space characters JavaScript's trimming and number parsing skip
      (the ASCII ones; other Unicode spaces are not modelled). */
  predicate IsSpace(c: char)
  {
    c == ' ' || c == '\t' || c == '\n' || c == '\r' || c as int == 11 || c as int == 12
  }

  function TrimStart(s: string): (t: string)
    ensures |t| <= |s|
    ensures t == s[|s| - |t|..]
    ensures t != [] ==> !IsSpace(t[0])
  {
    if s != [] && IsSpace(s[0]) then TrimStart(s[1..]) else s
  }

  function TrimEnd(s: string): (t: string)
    ensures |t| <= |s|
    ensures t == s[..|t|]
    ensures t != [] ==> !IsSpace(t[|t| - 1])
  {
    if s != [] && IsSpace(s[|s| - 1]) then TrimEnd(s[..|s| - 1]) else s
  }

  /** `parseFloat(x)`: the value of the longest decimal prefix of `String(x)`
      after leading white space; `None` stands for NaN. */
  function ParseFloat(v: Value): Option<real>
  {
    match v
    case Num(n) => Some(n)
    case Str(s) =>
      (match DecimalPrefix(TrimStart(s))
       case Some(p) => Some(p.0)
       case None => None)
    case _ => None
  }

  /** `Number(x)`, the coercion that JavaScript's arithmetic applies; `None`
      stands for NaN. A string must be one decimal literal once trimmed, and the
      empty string is 0. */
  function ToNumber(v: Value): Option<real>
  {
    match v
    case Undefined => None
    case Null => Some(0.0)
    case Bool(b) => Some(if b then 1.0 else 0.0)
    case Num(n) => Some(n)
    case Str(s) =>
      var t := TrimEnd(TrimStart(s));
      if t == [] then Some(0.0)
      else
        match DecimalPrefix(t)
        case Some(p) => if p.1 == |t| then Some(p.0) else None
        case None => None
  }

  lemma DecimalPrefixOfDigits(s: string)
    requires |s| > 0 && AllDigits(s)
    ensures DecimalPrefix(s) == Some((DigitsToNat(s) as real, |s|))
  {
    LeadingDigitsOfDigits(s);
    assert s[0..] == s;
    assert s[..|s|] == s;
  }

  /** parseFloat reads back the decimal rendering of a natural number. */
  lemma ParseFloatReadsNatToString(n: nat)
    ensures ParseFloat(Str(NatToString(n))) == Some(n as real)
  {
    var s := NatToString(n);
    assert !IsSpace(s[0]);
    assert TrimStart(s) == s;
    DecimalPrefixOfDigits(s);
    NatToStringRoundTrip(n);
    assert ParseFloat(Str(s)) == Some(DecimalPrefix(s).value.0);
  }

  /** Strings that are not numbers: a text without any digit is NaN to parseFloat. */
  lemma ParseFloatRejectsWords(s: string)
    requires forall i :: 0 <= i < |s| ==> !IsDigit(s[i])
    ensures ParseFloat(Str(s)) == None
  {
    var t := TrimStart(s);
    assert forall i :: 0 <= i < |t| ==> t[i] == s[|s| - |t| + i];
    DecimalPrefixOfWords(t);
  }

  lemma DecimalPrefixOfWords(t: string)
    requires forall i :: 0 <= i < |t| ==> !IsDigit(t[i])
    ensures DecimalPrefix(t) == None
  {
    var signLen := if |t| > 0 && (t[0] == '+' || t[0] == '-') then 1 else 0;
    var u := t[signLen..];
    assert LeadingDigits(u) == 0 by {
      assert u != [] ==> u[0] == t[signLen];
    }
    if |u| > 0 && u[0] == '.' {
      assert LeadingDigits(u[1..]) == 0 by {
        assert u[1..] != [] ==> u[1..][0] == t[signLen + 1];
      }
    }
  }
}
