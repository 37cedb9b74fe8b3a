/** `Number(s)` on the strings an `<input type="number">` can hold: the
    empty string, or an optionally signed decimal numeral with an optional
    fraction and an optional exponent. Any other string is `NaN`. */
module JsNumber {

  datatype Num = NaN | Finite(value: real)

  predicate IsDigit(c: char)
  {
    '0' <= c <= '9'
  }

  predicate AllDigits(s: string)
  {
    forall i :: 0 <= i < |s| ==> IsDigit(s[i])
  }

  /** The value of a string of decimal digits, most significant first. */
  function DigitsValue(s: string): nat
    requires AllDigits(s)
  {
    if s == [] then 0
    else 10 * DigitsValue(s[..|s| - 1]) + (s[|s| - 1] - '0') as nat
  }

  function Pow10(e: nat): (p: nat)
    ensures p >= 1
  {
    if e == 0 then 1 else 10 * Pow10(e - 1)
  }

  predicate IsPoint(c: char)
  {
    c == '.'
  }

  predicate IsExponentMark(c: char)
  {
    c == 'e' || c == 'E'
  }

  /** `x` times ten to the power `k`, or divided by it when `down`. */
  function Shift(x: real, down: bool, k: nat): (r: real)
    requires x >= 0.0
    ensures r >= 0.0
  {
    var p := Pow10(k) as real;
    assert p >= 1.0;
    if down then x / p else x * p
  }

  /** The position of the first character satisfying `isMark`, or `|s|`. */
  function FindFirst(s: string, isMark: char -> bool): (k: nat)
    ensures k <= |s|
    ensures forall i :: 0 <= i < k ==> !isMark(s[i])
    ensures k < |s| ==> isMark(s[k])
  {
    if s == [] then 0
    else if isMark(s[0]) then 0
    else 1 + FindFirst(s[1..], isMark)
  }

  /** A numeral without sign or exponent: digits, optionally a point and
      more digits, at least one digit in all. */
  function Mantissa(m: string): (r: Num)
    ensures r.Finite? ==> r.value >= 0.0
  {
    var dot := FindFirst(m, IsPoint);
    var whole := m[..dot];
    var fraction := if dot < |m| then m[dot + 1..] else "";
    if AllDigits(whole) && AllDigits(fraction) && |whole| + |fraction| > 0 then
      Finite(DigitsValue(whole) as real + Shift(DigitsValue(fraction) as real, true, |fraction|))
    else NaN
  }

  /** The exponent after `e` or `E`: an optional sign and at least one digit. */
  function Exponent(x: string): (r: ExponentPart)
  {
    var negative := |x| > 0 && x[0] == '-';
    var digits := if |x| > 0 && (x[0] == '-' || x[0] == '+') then x[1..] else x;
    if |digits| > 0 && AllDigits(digits) then Given(negative, DigitsValue(digits)) else Absent
  }

  datatype ExponentPart = Absent | Given(negative: bool, magnitude: nat)

  /** An unsigned numeral with an optional exponent. */
  function Unsigned(t: string): (r: Num)
    ensures r.Finite? ==> r.value >= 0.0
  {
    var e := FindFirst(t, IsExponentMark);
    var m := Mantissa(t[..e]);
    if m.NaN? then NaN
    else if e == |t| then m
    else
      match Exponent(t[e + 1..])
      case Absent => NaN
      case Given(negative, k) =>
        Finite(Shift(m.value, negative, k))
  }

  /** `Number(s)`. */
  function ToNumber(s: string): (r: Num)
    ensures s == "" ==> r == Finite(0.0)
    ensures r.Finite? && r.value < 0.0 ==> s[0] == '-'
  {
    if s == "" then Finite(0.0)
    else if s[0] == '-' then
      match Unsigned(s[1..])
      case NaN => NaN
      case Finite(v) => Finite(-v)
    else if s[0] == '+' then Unsigned(s[1..])
    else Unsigned(s)
  }

  /** `Number(s) < 0`; `NaN` compares false. */
  predicate IsNegative(s: string)
  {
    ToNumber(s).Finite? && ToNumber(s).value < 0.0
  }

  /** `Number(s) < 0` exactly when `s` is a minus sign before an unsigned
      numeral with a positive value: a `+` or no sign never reads negative. */
  lemma NegativeIff(s: string)
    ensures IsNegative(s) <==>
      |s| > 0 && s[0] == '-' && Unsigned(s[1..]).Finite? && Unsigned(s[1..]).value > 0.0
  {
  }

  /** The decimal numeral of a natural number. */
  function Numeral(n: nat): (s: string)
    ensures AllDigits(s) && |s| > 0
  {
    if n < 10 then ['0' + n as char]
    else Numeral(n / 10) + ['0' + (n % 10) as char]
  }

  lemma {:induction false} NumeralValue(n: nat)
    ensures DigitsValue(Numeral(n)) == n
  {
    if n >= 10 {
      var s := Numeral(n);
      assert s[..|s| - 1] == Numeral(n / 10);
      NumeralValue(n / 10);
    }
  }

  /** Digits hold neither a point nor an exponent mark. */
  lemma {:induction false} NoMarkInDigits(s: string)
    requires AllDigits(s)
    ensures FindFirst(s, IsPoint) == |s|
    ensures FindFirst(s, IsExponentMark) == |s|
  {
    if s != [] {
      assert AllDigits(s[1..]) by {
        assert forall i :: 0 <= i < |s[1..]| ==> s[1..][i] == s[i + 1];
      }
      NoMarkInDigits(s[1..]);
    }
  }

  /** A plain digit string is read as its value. */
  lemma MantissaOfDigits(s: string)
    requires AllDigits(s) && |s| > 0
    ensures Mantissa(s) == Finite(DigitsValue(s) as real)
  {
    NoMarkInDigits(s);
    var dot := FindFirst(s, IsPoint);
    assert dot == |s|;
    assert s[..dot] == s;
    var fraction: string := "";
    assert DigitsValue(fraction) == 0;
    assert Pow10(|fraction|) == 1;
  }

  lemma UnsignedOfDigits(s: string)
    requires AllDigits(s) && |s| > 0
    ensures Unsigned(s) == Finite(DigitsValue(s) as real)
  {
    NoMarkInDigits(s);
    MantissaOfDigits(s);
    assert s[..|s|] == s;
  }

  /** Reading a written natural number gives it back, with or without a
      minus sign: `-n` is negative exactly when `n` is not zero. */
  lemma NumeralRoundTrip(n: nat)
    ensures ToNumber(Numeral(n)) == Finite(n as real)
    ensures ToNumber("-" + Numeral(n)) == Finite(-(n as real))
    ensures IsNegative("-" + Numeral(n)) <==> n > 0
  {
    var s := Numeral(n);
    NumeralValue(n);
    UnsignedOfDigits(s);
    assert IsDigit(s[0]);
    assert ToNumber(s) == Unsigned(s);
    assert ("-" + s)[1..] == s;
  }
}
