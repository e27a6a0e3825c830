/**
 * The values a form record holds and the part of JavaScript's number conversion
 * that the validators depend on.
 *
 * A form value is `undefined`, a string (what every input element produces) or a
 * number (what the normalization step writes back).  JavaScript's `Number(...)`
 * is modelled on decimal notation; `None` stands for NaN.
 */
module JsValues {
  import opened Wrappers

  datatype Value = Undef | Str(s: string) | Num(r: real)

  /** A form record: field name to value; an absent key reads as `undefined`. */
  type Record = map<string, Value>

  /** `record[key]` */
  function Lookup(record: Record, key: string): Value {
    if key in record then record[key] else Undef
  }

  // ---------------------------------------------------------------- characters

  /** The ASCII white space `Number` strips: space, tab, line feed, vertical tab, form feed, carriage return. */
  predicate IsWhiteSpace(c: char) {
    c == ' ' || c == '\t' || c == '\n' || c == '\U{000B}' || c == '\U{000C}' || c == '\r'
  }

  predicate IsDigit(c: char) {
    '0' <= c <= '9'
  }

  predicate AllDigits(s: string) {
    forall i :: 0 <= i < |s| ==> IsDigit(s[i])
  }

  function DigitValue(c: char): nat
    requires IsDigit(c)
  {
    c as int - '0' as int
  }

  function DigitChar(d: nat): char
    requires d < 10
  {
    ('0' as int + d) as char
  }

  // ------------------------------------------------------------------- parsing

  function TrimStart(s: string): string {
    if s != [] && IsWhiteSpace(s[0]) then TrimStart(s[1..]) else s
  }

  function TrimEnd(s: string): string {
    if s != [] && IsWhiteSpace(s[|s| - 1]) then TrimEnd(s[..|s| - 1]) else s
  }

  /** JavaScript strips surrounding white space before converting a string. */
  function Trim(s: string): string {
    TrimEnd(TrimStart(s))
  }

  /** The value of a string of decimal digits, most significant first. */
  function DigitsValue(ds: string): nat
    requires AllDigits(ds)
  {
    if ds == [] then 0 else 10 * DigitsValue(ds[..|ds| - 1]) + DigitValue(ds[|ds| - 1])
  }

  /** The value of the digits after a decimal point: `0.d1d2...dk`. */
  function FractionValue(ds: string): real
    requires AllDigits(ds)
  {
    if ds == [] then 0.0 else (DigitValue(ds[0]) as real + FractionValue(ds[1..])) / 10.0
  }

  /** Index of the first '.' in `s`, or `|s|` when there is none. */
  function IndexOfPoint(s: string): (i: nat)
    ensures i <= |s|
    ensures i < |s| ==> s[i] == '.'
    ensures forall j :: 0 <= j < i ==> s[j] != '.'
  {
    if s == [] || s[0] == '.' then 0 else 1 + IndexOfPoint(s[1..])
  }

  /** An unsigned decimal literal: digits, optionally a point and more digits, at least one digit. */
  function UnsignedDecimal(s: string): Option<real> {
    var i := IndexOfPoint(s);
    var whole := s[..i];
    var fraction := if i < |s| then s[i + 1..] else [];
    if AllDigits(whole) && AllDigits(fraction) && |whole| + |fraction| > 0 then
      Some(DigitsValue(whole) as real + FractionValue(fraction))
    else
      None
  }

  function SignedDecimal(s: string): Option<real> {
    if s != [] && s[0] == '-' then
      match UnsignedDecimal(s[1..])
      case Some(x) => Some(-x)
      case None => None
    else if s != [] && s[0] == '+' then
      UnsignedDecimal(s[1..])
    else
      UnsignedDecimal(s)
  }

  /** `Number(s)` for a string: blank strings are 0, decimal literals their value, anything else NaN. */
  function StringToNumber(s: string): Option<real> {
    var t := Trim(s);
    if t == [] then Some(0.0) else SignedDecimal(t)
  }

  /** `Number(v)`: `undefined` is NaN, a string is converted, a number is itself. */
  function ToNumber(v: Value): Option<real> {
    match v
    case Undef => None
    case Str(s) => StringToNumber(s)
    case Num(r) => Some(r)
  }

  /** JavaScript `v < n` for a number `n`: any comparison with NaN is false. */
  predicate LessThan(v: Value, n: real) {
    match ToNumber(v)
    case Some(x) => x < n
    case None => false
  }

  /** JavaScript `v > n` for a number `n`. */
  predicate GreaterThan(v: Value, n: real) {
    match ToNumber(v)
    case Some(x) => x > n
    case None => false
  }

  // ------------------------------------------------------------------ printing

  /** The decimal spelling of a natural number, as a user types it. */
  function NatToDecimal(n: nat): (s: string)
    ensures s != [] && AllDigits(s)
  {
    if n < 10 then [DigitChar(n)] else NatToDecimal(n / 10) + [DigitChar(n % 10)]
  }

  // -------------------------------------------------------------------- lemmas

  lemma {:induction false} DigitsValueOfDecimal(n: nat)
    ensures DigitsValue(NatToDecimal(n)) == n
  {
    if n >= 10 {
      var s := NatToDecimal(n);
      assert s[..|s| - 1] == NatToDecimal(n / 10);
      DigitsValueOfDecimal(n / 10);
    }
  }

  lemma IndexOfPointDigits(s: string)
    requires AllDigits(s)
    ensures IndexOfPoint(s) == |s|
  {
  }

  /** A typed natural number converts back to itself. */
  lemma {:induction false} NaturalRoundTrip(n: nat)
    ensures StringToNumber(NatToDecimal(n)) == Some(n as real)
  {
    var s := NatToDecimal(n);
    assert TrimStart(s) == s;
    assert TrimEnd(s) == s;
    IndexOfPointDigits(s);
    assert s[..|s|] == s;
    DigitsValueOfDecimal(n);
  }

  /** A typed negative integer converts back to itself. */
  lemma {:induction false} NegativeRoundTrip(n: nat)
    ensures StringToNumber("-" + NatToDecimal(n)) == Some(-(n as real))
  {
    var d := NatToDecimal(n);
    var s := "-" + d;
    assert TrimStart(s) == s;
    assert TrimEnd(s) == s;
    assert s[1..] == d;
    IndexOfPointDigits(d);
    assert d[..|d|] == d;
    DigitsValueOfDecimal(n);
  }

  lemma PointAfterDigits(d: string, r: string)
    requires AllDigits(d) && r != [] && r[0] == '.'
    ensures IndexOfPoint(d + r) == |d|
  {
    var s := d + r;
    assert s[|d|] == '.';
    assert forall j :: 0 <= j < |d| ==> s[j] == d[j];
  }

  /** The digits after a point add a fraction in [0, 1). */
  lemma {:induction false} FractionBounds(ds: string)
    requires AllDigits(ds)
    ensures 0.0 <= FractionValue(ds) < 1.0
  {
    if ds != [] {
      FractionBounds(ds[1..]);
    }
  }

  /** A typed decimal number `w.ds` converts to its whole part plus the fraction its digits spell. */
  lemma {:induction false} DecimalRoundTrip(w: nat, ds: string)
    requires AllDigits(ds)
    ensures StringToNumber(NatToDecimal(w) + "." + ds) == Some(w as real + FractionValue(ds))
  {
    var d := NatToDecimal(w);
    var s := d + "." + ds;
    assert s == d + ("." + ds);
    assert TrimStart(s) == s by { assert IsDigit(s[0]); }
    assert TrimEnd(s) == s by {
      if ds == [] { assert s[|s| - 1] == '.'; } else { assert s[|s| - 1] == ds[|ds| - 1]; }
    }
    PointAfterDigits(d, "." + ds);
    assert s[..|d|] == d;
    assert s[|d| + 1..] == ds;
    DigitsValueOfDecimal(w);
  }

  /** The bounds of a fractional range entry, typed as they are written: "4.5" is 4.5 and "9.0" is 9. */
  lemma FemurLengthBoundsTyped()
    ensures StringToNumber("4.5") == Some(4.5)
    ensures StringToNumber("9.0") == Some(9.0)
  {
    assert NatToDecimal(4) + "." + "5" == "4.5";
    DecimalRoundTrip(4, "5");
    assert NatToDecimal(9) + "." + "0" == "9.0";
    DecimalRoundTrip(9, "0");
  }

  lemma {:induction false} TrimStartBlank(s: string)
    requires forall i :: 0 <= i < |s| ==> IsWhiteSpace(s[i])
    ensures TrimStart(s) == []
  {
    if s != [] {
      TrimStartBlank(s[1..]);
    }
  }

  /** A cleared or blank field converts to 0, not to NaN. */
  lemma BlankIsZero(s: string)
    requires forall i :: 0 <= i < |s| ==> IsWhiteSpace(s[i])
    ensures ToNumber(Str(s)) == Some(0.0)
  {
    TrimStartBlank(s);
  }

  lemma {:induction false} TrimStartKeeps(s: string, i: nat)
    requires i < |s| && !IsWhiteSpace(s[i])
    ensures s[i] in TrimStart(s)
  {
    if IsWhiteSpace(s[0]) {
      assert s[1..][i - 1] == s[i];
      TrimStartKeeps(s[1..], i - 1);
    } else {
      assert TrimStart(s)[i] == s[i];
    }
  }

  lemma {:induction false} TrimEndKeeps(s: string, i: nat)
    requires i < |s| && !IsWhiteSpace(s[i])
    ensures s[i] in TrimEnd(s)
  {
    if IsWhiteSpace(s[|s| - 1]) {
      assert s[..|s| - 1][i] == s[i];
      TrimEndKeeps(s[..|s| - 1], i);
    } else {
      assert TrimEnd(s)[i] == s[i];
    }
  }

  /**
   * An ASCII character that cannot occur in any numeric string JavaScript
   * accepts: not white space, not a digit, sign or point, and none of the
   * letters of exponents, of hexadecimal, binary and octal literals, or of
   * "Infinity".
   */
  predicate IsForeign(c: char) {
    c < '\U{0080}' && !IsWhiteSpace(c) && !IsDigit(c) && c !in ".+-abcdefABCDEFintyIoOxX"
  }

  lemma UnsignedRejectsForeign(t: string, j: nat)
    requires j < |t| && IsForeign(t[j])
    ensures UnsignedDecimal(t) == None
  {
    var i := IndexOfPoint(t);
    if j < i {
      assert t[..i][j] == t[j];
    } else {
      assert j != i;
      assert t[i + 1..][j - i - 1] == t[j];
    }
  }

  /** Any string holding a foreign character converts to NaN, in the model as in JavaScript. */
  lemma ForeignIsNaN(s: string, i: nat)
    requires i < |s| && IsForeign(s[i])
    ensures ToNumber(Str(s)) == None
  {
    TrimStartKeeps(s, i);
    var j0 :| 0 <= j0 < |TrimStart(s)| && TrimStart(s)[j0] == s[i];
    TrimEndKeeps(TrimStart(s), j0);
    var t := Trim(s);
    var j :| 0 <= j < |t| && t[j] == s[i];
    if t[0] == '-' || t[0] == '+' {
      assert j > 0;
      assert t[1..][j - 1] == t[j];
      UnsignedRejectsForeign(t[1..], j - 1);
    } else {
      UnsignedRejectsForeign(t, j);
    }
  }
}
