/**
  The conversion `Number(amountValue)` that the invoice form applies to the
  amount field, restricted to plain decimal literals and computed exactly in
  `real`: an optional sign, then digits with an optional fraction
  (`12`, `12.`, `12.5`, `.5`). `None` stands for NaN.
 */
module AmountNumber {
  import opened Wrappers

  predicate IsDigit(c: char) { '0' <= c <= '9' }

  predicate AllDigits(s: string) { forall i :: 0 <= i < |s| ==> IsDigit(s[i]) }

  /** Some character of `s` is one of `1`..`9`. */
  predicate HasNonzeroDigit(s: string) { exists i :: 0 <= i < |s| && '1' <= s[i] <= '9' }

  function DigitValue(c: char): (d: nat)
    requires IsDigit(c)
    ensures d < 10
  {
    c as int - '0' as int
  }

  function DigitChar(d: nat): (c: char)
    requires d < 10
    ensures IsDigit(c) && DigitValue(c) == d
  {
    ('0' as int + d) as char
  }

  /** The value of a string of decimal digits, most significant first. */
  function NaturalValue(s: string): nat
    requires AllDigits(s)
    decreases |s|
  {
    if s == [] then 0 else 10 * NaturalValue(s[..|s| - 1]) + DigitValue(s[|s| - 1])
  }

  /** The value of the digits after a decimal point: `FractionValue("05") == 0.05`. */
  function FractionValue(s: string): (r: real)
    requires AllDigits(s)
    ensures 0.0 <= r < 1.0
  {
    if s == [] then 0.0 else (DigitValue(s[0]) as real + FractionValue(s[1..])) / 10.0
  }

  /** Position of the first `.` in `s`, or `|s|` when there is none. */
  function DotIndex(s: string): (k: nat)
    ensures k <= |s|
    ensures k < |s| ==> s[k] == '.'
    ensures forall i :: 0 <= i < k ==> s[i] != '.'
  {
    if s == [] || s[0] == '.' then 0 else 1 + DotIndex(s[1..])
  }

  /** The digits before the first `.` (all of `s` when there is none). */
  function WholePart(s: string): string
  {
    s[..DotIndex(s)]
  }

  /** The characters after the first `.` (empty when there is none). */
  function FractionPart(s: string): string
  {
    var k := DotIndex(s);
    if k < |s| then s[k + 1..] else ""
  }

  /** An unsigned decimal literal: digits, optionally a point and more digits,
      with at least one digit in all. */
  function ParseUnsigned(s: string): Option<real>
  {
    var whole, frac := WholePart(s), FractionPart(s);
    if AllDigits(whole) && AllDigits(frac) && (|whole| > 0 || |frac| > 0) then
      Some(NaturalValue(whole) as real + FractionValue(frac))
    else
      None
  }

  /** `Number(s)` on decimal literals; the empty string converts to 0 as in
      JavaScript. */
  function ToNumber(s: string): (r: Option<real>)
    ensures r.Some? && (s == [] || s[0] != '-') ==> r.value >= 0.0
    ensures r.Some? && s != [] && s[0] == '-' ==> r.value <= 0.0
    ensures s == [] ==> r == Some(0.0)
  {
    if s == [] then Some(0.0)
    else if s[0] == '-' then
      match ParseUnsigned(s[1..])
      case Some(x) => Some(-x)
      case None => None
    else if s[0] == '+' then ParseUnsigned(s[1..])
    else ParseUnsigned(s)
  }

  // ---------------------------------------------------------------------
  // When a literal is positive

  lemma {:induction false} NaturalValuePositive(s: string)
    requires AllDigits(s)
    ensures NaturalValue(s) > 0 <==> HasNonzeroDigit(s)
    decreases |s|
  {
    if s != [] {
      var init := s[..|s| - 1];
      NaturalValuePositive(init);
      if HasNonzeroDigit(init) {
        var i :| 0 <= i < |init| && '1' <= init[i] <= '9';
        assert s[i] == init[i];
      }
      if HasNonzeroDigit(s) && !('1' <= s[|s| - 1] <= '9') {
        var i :| 0 <= i < |s| && '1' <= s[i] <= '9';
        assert init[i] == s[i];
      }
    }
  }

  lemma {:induction false} FractionValuePositive(s: string)
    requires AllDigits(s)
    ensures FractionValue(s) > 0.0 <==> HasNonzeroDigit(s)
  {
    if s != [] {
      var tail := s[1..];
      FractionValuePositive(tail);
      if HasNonzeroDigit(tail) {
        var i :| 0 <= i < |tail| && '1' <= tail[i] <= '9';
        assert s[i + 1] == tail[i];
      }
      if HasNonzeroDigit(s) && !('1' <= s[0] <= '9') {
        var i :| 0 <= i < |s| && '1' <= s[i] <= '9';
        assert tail[i - 1] == s[i];
      }
    }
  }

  /** A nonzero digit of `s` lies before or after the first point, never on it. */
  lemma NonzeroDigitSplit(s: string)
    ensures HasNonzeroDigit(s) <==> HasNonzeroDigit(WholePart(s)) || HasNonzeroDigit(FractionPart(s))
  {
  }

  /** An unsigned literal denotes a positive number exactly when it has a
      nonzero digit. */
  lemma UnsignedPositive(s: string)
    requires ParseUnsigned(s).Some?
    ensures ParseUnsigned(s).value > 0.0 <==> HasNonzeroDigit(s)
  {
    NaturalValuePositive(WholePart(s));
    FractionValuePositive(FractionPart(s));
    NonzeroDigitSplit(s);
  }

  /** A leading sign character is not a digit. */
  lemma NonzeroDigitAfterSign(s: string)
    requires s != [] && !IsDigit(s[0])
    ensures HasNonzeroDigit(s) <==> HasNonzeroDigit(s[1..])
  {
  }

  /** A string converts to a number greater than zero exactly when it is a
      decimal literal without a minus sign that has a nonzero digit. */
  lemma PositiveNumberIff(s: string)
    ensures (ToNumber(s).Some? && ToNumber(s).value > 0.0)
        <==> (ToNumber(s).Some? && s != [] && s[0] != '-' && HasNonzeroDigit(s))
  {
    if s != [] {
      if s[0] == '-' || s[0] == '+' {
        NonzeroDigitAfterSign(s);
        if ParseUnsigned(s[1..]).Some? {
          UnsignedPositive(s[1..]);
        }
      } else if ParseUnsigned(s).Some? {
        UnsignedPositive(s);
      }
    }
  }

  // ---------------------------------------------------------------------
  // Rendering amounts with two decimals, and the intended two-decimal format

  /** Decimal digits of `n`, without leading zeros. */
  function NaturalDigits(n: nat): (s: string)
    ensures AllDigits(s) && |s| > 0
  {
    if n < 10 then [DigitChar(n)] else NaturalDigits(n / 10) + [DigitChar(n % 10)]
  }

  lemma {:induction false} NaturalDigitsValue(n: nat)
    ensures NaturalValue(NaturalDigits(n)) == n
  {
    var s := NaturalDigits(n);
    if n >= 10 {
      NaturalDigitsValue(n / 10);
      assert s[..|s| - 1] == NaturalDigits(n / 10);
    }
  }

  /** An amount of `cents` written in the form the amount input uses: `10.50`. */
  function FormatCents(cents: nat): string
  {
    NaturalDigits(cents / 100) + "." + [DigitChar(cents % 100 / 10), DigitChar(cents % 10)]
  }

  /** The two-decimal amount format that the amount input's `pattern` and
      `step="0.01"` evidently intend: digits, then optionally a point and one
      or two digits. The browser never applies it: the attribute is written
      with doubled backslashes, `pattern` does not apply to a number input,
      and the form is `noValidate`. */
  function MatchesAmountPattern(s: string): (r: bool)
    ensures r ==> s != [] && IsDigit(s[0]) && IsDigit(s[|s| - 1])
    ensures r ==> |FractionPart(s)| <= 2
  {
    var whole := WholePart(s);
    |whole| > 0 && AllDigits(whole) &&
    (DotIndex(s) == |s| || (AllDigits(FractionPart(s)) && 1 <= |FractionPart(s)| <= 2))
  }

  /** The two-decimal format by its characters: a leading digit, only digits
      elsewhere except for at most one point, which is followed by one or two
      digits. */
  lemma AmountPatternIff(s: string)
    ensures MatchesAmountPattern(s) <==>
      s != [] && IsDigit(s[0]) &&
      (forall i :: 0 <= i < |s| && !IsDigit(s[i]) ==> s[i] == '.' && |s| - 3 <= i <= |s| - 2) &&
      (forall i, j :: 0 <= i < j < |s| ==> !(s[i] == '.' && s[j] == '.'))
  {
  }

  lemma DotIndexOfFormat(cents: nat)
    ensures DotIndex(FormatCents(cents)) == |NaturalDigits(cents / 100)|
  {
    var w := NaturalDigits(cents / 100);
    var s := FormatCents(cents);
    assert forall i :: 0 <= i < |w| ==> s[i] == w[i];
    assert s[|w|] == '.';
  }

  /** Every two-decimal rendering is in the intended two-decimal format and converts
      back to the amount it was made from. */
  lemma FormatCentsRoundTrip(cents: nat)
    ensures MatchesAmountPattern(FormatCents(cents))
    ensures ToNumber(FormatCents(cents)) == Some(cents as real / 100.0)
  {
    var w := NaturalDigits(cents / 100);
    var a, b := cents % 100 / 10, cents % 10;
    var s := FormatCents(cents);
    DotIndexOfFormat(cents);
    assert WholePart(s) == w;
    assert FractionPart(s) == [DigitChar(a), DigitChar(b)];
    NaturalDigitsValue(cents / 100);
    assert FractionValue([DigitChar(b)]) == b as real / 10.0;
    assert FractionValue(FractionPart(s)) == (a as real + b as real / 10.0) / 10.0;
    assert cents % 100 == 10 * a + b;
    assert cents == 100 * (cents / 100) + cents % 100;
    assert s[0] == w[0];
    assert IsDigit(s[0]);
  }

  /** Every string in the intended two-decimal format is a literal `ToNumber` accepts. */
  lemma PatternIsDecimal(s: string)
    requires MatchesAmountPattern(s)
    ensures ToNumber(s).Some?
  {
  }
}
