/**
 * The four phase-1 "key" functions. Three of them read the decimal text of
 * the prior candle's open value digit by digit; a character that is not a
 * decimal digit makes the integer conversion fail, which the model reports
 * as `None` (the backtest then skips that pair). The fourth truncates the
 * number itself to an integer and never fails.
 */
module KeyFunctions {
  import opened Market

  /** The candidate keys, in the order in which they are evaluated. */
  datatype Key = SumLast3 | FirstDigitParity | DecimalPattern | LastIntegerDigit

  const KeyOrder: seq<Key> := [SumLast3, FirstDigitParity, DecimalPattern, LastIntegerDigit]

  predicate IsDigit(c: char) {
    '0' <= c <= '9'
  }

  function DigitValue(c: char): (d: int)
    requires IsDigit(c)
    ensures 0 <= d <= 9
  {
    (c as int) - ('0' as int)
  }

  predicate AllDigits(s: string) {
    forall i :: 0 <= i < |s| ==> IsDigit(s[i])
  }

  function DigitSum(s: string): (n: int)
    requires AllDigits(s)
    ensures 0 <= n <= 9 * |s|
  {
    if |s| == 0 then 0 else DigitSum(s[..|s| - 1]) + DigitValue(s[|s| - 1])
  }

  /** The text with every '.' removed. */
  function WithoutDots(s: string): (r: string)
    ensures |r| <= |s|
    ensures forall i :: 0 <= i < |r| ==> r[i] != '.'
    ensures (forall i :: 0 <= i < |s| ==> s[i] != '.') ==> r == s
  {
    if |s| == 0 then []
    else if s[|s| - 1] == '.' then WithoutDots(s[..|s| - 1])
    else WithoutDots(s[..|s| - 1]) + [s[|s| - 1]]
  }

  /** The part after the last '.', or the whole text when it has none. */
  function AfterLastDot(s: string): (r: string)
    ensures |r| <= |s|
    ensures r == s[|s| - |r|..]
    ensures |r| < |s| ==> s[|s| - |r| - 1] == '.'
    ensures forall i :: 0 <= i < |r| ==> r[i] != '.'
    ensures (forall i :: 0 <= i < |s| ==> s[i] != '.') ==> r == s
  {
    if |s| == 0 then []
    else if s[|s| - 1] == '.' then []
    else AfterLastDot(s[..|s| - 1]) + [s[|s| - 1]]
  }

  /** The last three characters, or all of them when there are fewer. */
  function LastThree(s: string): (r: string)
    ensures |r| == if |s| < 3 then |s| else 3
    ensures r == s[|s| - |r|..]
  {
    if |s| < 3 then s else s[|s| - 3..]
  }

  /** Truncation toward zero, as Python's int() of a float. */
  function TruncateTowardZero(x: real): (n: int)
    ensures x >= 0.0 ==> n as real <= x < n as real + 1.0
    ensures x < 0.0 ==> n as real - 1.0 < x <= n as real
    ensures x >= 0.0 ==> n >= 0
    ensures x < 0.0 ==> n <= 0
  {
    if x >= 0.0 then x.Floor else -((-x).Floor)
  }

  /**
   * The scalar a key gives for an open value with decimal text `text`, or
   * None when one of the characters it converts is not a digit.
   */
  function KeyValue(key: Key, open: real, text: string): (v: Option<real>)
    ensures v.Some? ==> 0.0 <= v.value <= 1.0
    ensures key == LastIntegerDigit ==> v.Some?
    ensures key == SumLast3 ==> (v.Some? <==> AllDigits(LastThree(WithoutDots(text))))
    ensures key == FirstDigitParity ==>
              (v.Some? <==> |WithoutDots(text)| > 0 && IsDigit(WithoutDots(text)[0]))
    ensures key == DecimalPattern ==> (v.Some? <==> AllDigits(AfterLastDot(text)))
  {
    match key
    case SumLast3 =>
      var tail := LastThree(WithoutDots(text));
      if AllDigits(tail) then Some((DigitSum(tail) % 2) as real) else None
    case FirstDigitParity =>
      var digits := WithoutDots(text);
      if |digits| > 0 && IsDigit(digits[0]) then Some((DigitValue(digits[0]) % 2) as real) else None
    case DecimalPattern =>
      var fraction := AfterLastDot(text);
      if AllDigits(fraction) then Some(((DigitSum(fraction) % 10) as real) / 10.0) else None
    case LastIntegerDigit =>
      var n := TruncateTowardZero(open);
      var magnitude := if n < 0 then -n else n;
      Some(((magnitude % 10) % 2) as real)
  }

  /** The last-three-digits key predicts green exactly for an odd sum of the last three digits. */
  lemma SumLast3PredictsGreen(open: real, text: string)
    requires KeyValue(SumLast3, open, text).Some?
    ensures KeyValue(SumLast3, open, text).value > 0.5 <==> DigitSum(LastThree(WithoutDots(text))) % 2 == 1
  {
  }

  /** Removing the dots works piece by piece: each part keeps its other characters, in order. */
  lemma {:induction false} WithoutDotsConcat(a: string, b: string)
    ensures WithoutDots(a + b) == WithoutDots(a) + WithoutDots(b)
  {
    if |b| == 0 {
      assert a + b == a;
    } else {
      var init, last := b[..|b| - 1], b[|b| - 1];
      WithoutDotsConcat(a, init);
      assert (a + b)[..|a + b| - 1] == a + init;
      assert (a + b)[|a + b| - 1] == last;
      var tail := if last == '.' then [] else [last];
      assert WithoutDots(a + b) == WithoutDots(a + init) + tail;
      assert WithoutDots(b) == WithoutDots(init) + tail;
    }
  }

  /** A single character survives the removal exactly when it is not a dot. */
  lemma WithoutDotsSingle(c: char)
    ensures WithoutDots([c]) == (if c == '.' then [] else [c])
  {
    assert [c][..0] == [];
  }


  /** The first-digit key predicts green exactly when the first digit of the dotless text is odd. */
  lemma FirstDigitParityPredictsGreen(open: real, text: string)
    requires KeyValue(FirstDigitParity, open, text).Some?
    ensures KeyValue(FirstDigitParity, open, text).value > 0.5 <==> DigitValue(WithoutDots(text)[0]) % 2 == 1
  {
  }

  /** The fraction key predicts green exactly when its digit sum ends in 6, 7, 8 or 9. */
  lemma DecimalPatternPredictsGreen(open: real, text: string)
    requires KeyValue(DecimalPattern, open, text).Some?
    ensures KeyValue(DecimalPattern, open, text).value > 0.5 <==> DigitSum(AfterLastDot(text)) % 10 >= 6
  {
    var m := DigitSum(AfterLastDot(text)) % 10;
    assert KeyValue(DecimalPattern, open, text).value == (m as real) / 10.0;
  }

  /** The integer-part key predicts green exactly for an odd integer part. */
  lemma LastIntegerDigitPredictsGreen(open: real, text: string)
    ensures KeyValue(LastIntegerDigit, open, text).value > 0.5 <==> TruncateTowardZero(open) % 2 != 0
  {
    var n := TruncateTowardZero(open);
    var magnitude := if n < 0 then -n else n;
    LastDigitParity(magnitude);
    assert magnitude % 2 == 0 <==> n % 2 == 0 by {
      assert n == magnitude || n == -magnitude;
    }
  }

  /** The last decimal digit of a number has the number's parity. */
  lemma LastDigitParity(m: nat)
    ensures (m % 10) % 2 == m % 2
  {
    var q, r := m / 10, m % 10;
    var h, b := m / 2, m % 2;
    var t, u := r / 2, r % 2;
    assert m == 10 * q + r && m == 2 * h + b && r == 2 * t + u;
    assert b - u == 2 * (5 * q + t - h);
  }

  /** A negative open value renders with a leading '-', so the first-digit key cannot be read. */
  lemma NegativeTextFailsFirstDigit(open: real)
    ensures KeyValue(FirstDigitParity, open, "-0.5").None?
  {
    assert WithoutDots("-0.5") == "-05";
  }

  /** Exponent notation ("1e-05") defeats both the last-three-digits key and the fraction key. */
  lemma ExponentTextFailsSumLast3(open: real)
    ensures KeyValue(SumLast3, open, "1e-05").None?
    ensures KeyValue(DecimalPattern, open, "1e-05").None?
  {
    var t := "1e-05";
    assert forall i :: 0 <= i < |t| ==> t[i] != '.';
    assert WithoutDots(t) == t;
    assert LastThree(t)[0] == '-';
    var f := AfterLastDot(t);
    assert f == t;
    assert !IsDigit(f[1]);
  }
}
