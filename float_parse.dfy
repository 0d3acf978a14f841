/**
 * `AutoDataRebalance.is_positive_number`: does an option string parse as a
 * float strictly greater than zero? Python's `float()` is modelled on plain
 * decimal literals: an optional sign, then digits with at most one decimal
 * point and at least one digit (`"5"`, `"0.9"`, `"+.5"`, `"5."`).
 */
module FloatParse {

  import opened Results

  predicate IsDigit(c: char) {
    '0' <= c <= '9'
  }

  predicate AllDigits(s: string) {
    forall i | 0 <= i < |s| :: IsDigit(s[i])
  }

  /** Some digit of `s` is not `'0'`. */
  predicate HasNonZeroDigit(s: string) {
    exists i | 0 <= i < |s| :: '1' <= s[i] <= '9'
  }

  function DigitValue(c: char): nat
    requires IsDigit(c)
  {
    c as int - '0' as int
  }

  /** The value of a string of digits read as a whole number. */
  function Whole(s: string): nat
    requires AllDigits(s)
  {
    if s == [] then 0 else 10 * Whole(s[..|s| - 1]) + DigitValue(s[|s| - 1])
  }

  /** The value of a string of digits read as the digits after a decimal point. */
  function Fraction(s: string): real
    requires AllDigits(s)
  {
    if s == [] then 0.0 else (DigitValue(s[0]) as real + Fraction(s[1..])) / 10.0
  }

  /** The position of the first `'.'` in `s`, or `|s|` when there is none. */
  function DotIndex(s: string): (k: nat)
    ensures k <= |s|
    ensures forall i | 0 <= i < k :: s[i] != '.'
    ensures k < |s| ==> s[k] == '.'
  {
    if s == [] || s[0] == '.' then 0 else 1 + DotIndex(s[1..])
  }

  /** A literal without sign: digits, at most one point, at least one digit. */
  function ParseUnsigned(s: string): Option<real> {
    var k := DotIndex(s);
    var whole := s[..k];
    var fraction := if k < |s| then s[k + 1..] else "";
    if AllDigits(whole) && AllDigits(fraction) && (whole != [] || fraction != [])
    then Some(Whole(whole) as real + Fraction(fraction))
    else None
  }

  /** `float(value)`: `None` where Python raises `ValueError`. */
  function ParseFloat(s: string): Option<real> {
    if s != [] && (s[0] == '+' || s[0] == '-') then
      match ParseUnsigned(s[1..])
      case None => None
      case Some(r) => Some(if s[0] == '-' then -r else r)
    else
      ParseUnsigned(s)
  }

  /**
   * `is_positive_number(value)`: false on a parse failure, otherwise whether
   * the number is `> 0`. Equivalently: the string is a literal, carries no
   * minus sign and has a non-zero digit. A positive string is never empty,
   * so it is truthy wherever the caller tests it.
   */
  function IsPositiveNumber(value: string): (positive: bool)
    ensures positive <==> ParseFloat(value).Some? && value[0] != '-' && HasNonZeroDigit(value)
    ensures positive ==> value != ""
  {
    match ParseFloat(value)
    case None => false
    case Some(number) =>
      SignedPositive(value);
      number > 0.0
  }

  lemma {:induction false} WholePositive(s: string)
    requires AllDigits(s)
    ensures Whole(s) > 0 <==> HasNonZeroDigit(s)
  {
    if s != [] {
      var init := s[..|s| - 1];
      WholePositive(init);
      if HasNonZeroDigit(init) {
        var i :| 0 <= i < |init| && '1' <= init[i] <= '9';
        assert s[i] == init[i];
      }
    }
  }

  lemma {:induction false} FractionPositive(s: string)
    requires AllDigits(s)
    ensures Fraction(s) >= 0.0
    ensures Fraction(s) > 0.0 <==> HasNonZeroDigit(s)
  {
    if s != [] {
      var tail := s[1..];
      FractionPositive(tail);
      if HasNonZeroDigit(tail) {
        var i :| 0 <= i < |tail| && '1' <= tail[i] <= '9';
        assert s[i + 1] == tail[i];
      }
      if HasNonZeroDigit(s) && s[0] == '0' {
        var i :| 0 <= i < |s| && '1' <= s[i] <= '9';
        assert tail[i - 1] == s[i];
      }
    }
  }

  /** An unsigned literal denotes a non-negative number, positive exactly when it has a non-zero digit. */
  lemma UnsignedPositive(s: string)
    requires ParseUnsigned(s).Some?
    ensures ParseUnsigned(s).value >= 0.0
    ensures ParseUnsigned(s).value > 0.0 <==> HasNonZeroDigit(s)
  {
    var k := DotIndex(s);
    var whole := s[..k];
    var fraction := if k < |s| then s[k + 1..] else "";
    WholePositive(whole);
    FractionPositive(fraction);
    if HasNonZeroDigit(whole) {
      var i :| 0 <= i < |whole| && '1' <= whole[i] <= '9';
      assert s[i] == whole[i];
    }
    if HasNonZeroDigit(fraction) {
      var i :| 0 <= i < |fraction| && '1' <= fraction[i] <= '9';
      assert s[k + 1 + i] == fraction[i];
    }
    if HasNonZeroDigit(s) {
      var i :| 0 <= i < |s| && '1' <= s[i] <= '9';
      if i < k {
        assert whole[i] == s[i];
      } else {
        assert i != k;
        assert fraction[i - k - 1] == s[i];
      }
    }
  }

  lemma SignedPositive(s: string)
    requires ParseFloat(s).Some?
    ensures ParseFloat(s).value > 0.0 <==> s[0] != '-' && HasNonZeroDigit(s)
  {
    if s != [] && (s[0] == '+' || s[0] == '-') {
      var rest := s[1..];
      UnsignedPositive(rest);
      if HasNonZeroDigit(rest) {
        var i :| 0 <= i < |rest| && '1' <= rest[i] <= '9';
        assert s[i + 1] == rest[i];
      }
      if HasNonZeroDigit(s) {
        var i :| 0 <= i < |s| && '1' <= s[i] <= '9';
        assert rest[i - 1] == s[i];
      }
    } else {
      UnsignedPositive(s);
    }
  }

  /** `"0.9"` is accepted; `"-1"`, `"-5"`, `"abc"`, `"0"` and `""` are refused. */
  lemma IsPositiveNumberExamples()
    ensures IsPositiveNumber("0.9")
    ensures !IsPositiveNumber("-1") && !IsPositiveNumber("-5")
    ensures !IsPositiveNumber("abc") && !IsPositiveNumber("0") && !IsPositiveNumber("")
  {
    assert "0.9"[2] == '9';
    assert DotIndex("abc") == 3;
  }
}
