/**
 * The text of an axis label: the user's label, followed by ` ×1e<exp>` when the
 * exponent the tick formatter last reported is not zero. The exponent is written
 * as JavaScript converts a number to a string; the suffix can be read back.
 */
module AxisLabel {
  import opened Wrappers
  import opened Utilities

  const Digits: string := "0123456789"

  /** The separator between a name and its exponent. */
  const ExponentMark: string := " ×1e"

  predicate IsDigit(c: char) {
    '0' as int <= c as int <= '9' as int
  }

  /** The decimal digits of n, most significant first, without leading zeros. */
  function NatText(n: nat): (s: string)
    ensures |s| > 0
    ensures forall k :: 0 <= k < |s| ==> IsDigit(s[k])
    ensures n > 0 ==> s[0] != '0'
  {
    if n < 10 then [Digits[n]]
    else NatText(n / 10) + [Digits[n % 10]]
  }

  /** The number a string of decimal digits denotes. */
  function NatValue(s: string): nat
    requires forall k :: 0 <= k < |s| ==> IsDigit(s[k])
  {
    if |s| == 0 then 0
    else
      var last := s[|s| - 1];
      assert IsDigit(last);
      NatValue(s[..|s| - 1]) * 10 + (last as int - '0' as int)
  }

  lemma {:induction false} NatTextRoundTrip(n: nat)
    ensures NatValue(NatText(n)) == n
    decreases n
  {
    var s := NatText(n);
    if n >= 10 {
      NatTextRoundTrip(n / 10);
      assert s[..|s| - 1] == NatText(n / 10);
    }
  }

  /** `String(i)` for an integer. */
  function IntText(i: int): (s: string)
    ensures |s| > 0
  {
    if i < 0 then "-" + NatText(-i) else NatText(i)
  }

  /** The integer an `IntText` string denotes, or `None` if it is not one. */
  function IntValue(s: string): Option<int> {
    if |s| > 0 && s[0] == '-' && |s| > 1 && (forall k :: 1 <= k < |s| ==> IsDigit(s[k])) then
      Some(-(NatValue(s[1..]) as int))
    else if |s| > 0 && forall k :: 0 <= k < |s| ==> IsDigit(s[k]) then
      Some(NatValue(s))
    else None
  }

  lemma IntTextRoundTrip(i: int)
    ensures IntValue(IntText(i)) == Some(i)
  {
    if i < 0 {
      NegativeTextRoundTrip(-i);
    } else {
      NonNegativeTextRoundTrip(i);
    }
  }

  /** A negative integer: a minus sign, then the digits of its magnitude. */
  lemma NegativeTextRoundTrip(n: nat)
    requires n > 0
    ensures IntValue(IntText(-(n as int))) == Some(-(n as int))
  {
    var digits := NatText(n);
    var s := IntText(-(n as int));
    assert s == "-" + digits && s[1..] == digits;
    assert forall k :: 1 <= k < |s| ==> IsDigit(s[k]) by {
      forall k | 1 <= k < |s|
        ensures IsDigit(s[k])
      {
        assert s[k] == digits[k - 1];
      }
    }
    NatTextRoundTrip(n);
  }

  /** A non-negative integer: its digits alone. */
  lemma NonNegativeTextRoundTrip(n: nat)
    ensures IntValue(IntText(n)) == Some(n)
  {
    var s := IntText(n);
    assert s == NatText(n);
    assert s[0] != '-' by {
      assert IsDigit(s[0]);
    }
    NatTextRoundTrip(n);
  }

  /** `String(exp)` for an exponent: its digits, "-Infinity" or "NaN". */
  function MagnitudeText(m: Magnitude): string {
    match m
    case Finite(e) => IntText(e)
    case NegInfinity => "-Infinity"
    case NotANumber => "NaN"
  }

  /** The exponent a `MagnitudeText` string denotes. */
  function MagnitudeValue(s: string): Option<Magnitude> {
    if s == "-Infinity" then Some(NegInfinity)
    else if s == "NaN" then Some(NotANumber)
    else match IntValue(s)
      case Some(e) => Some(Finite(e))
      case None => None
  }

  lemma MagnitudeTextRoundTrip(m: Magnitude)
    ensures MagnitudeValue(MagnitudeText(m)) == Some(m)
  {
    match m
    case Finite(e) =>
      IntTextRoundTrip(e);
      var s := IntText(e);
      assert s != "-Infinity" by {
        if e < 0 {
          assert IsDigit(s[1]);
        } else {
          assert IsDigit(s[0]);
        }
      }
      assert s != "NaN" by {
        if e < 0 {
          assert s[0] == '-';
        } else {
          assert IsDigit(s[0]);
        }
      }
    case NegInfinity =>
    case NotANumber =>
  }

  /**
   * The text shown for axis label `name` when the formatter last reported `exp`:
   * the label alone when the exponent is zero, otherwise the name followed by
   * the exponent mark and the exponent.
   */
  function LabelText(name: string, exp: Magnitude): (t: string)
    ensures name <= t
    ensures exp == Finite(0) <==> |t| == |name|
  {
    if exp != Finite(0) then name + ExponentMark + MagnitudeText(exp) else name
  }

  /** Reads the exponent back from what follows the name in the shown text. */
  function SuffixExponent(suffix: string): Option<Magnitude> {
    if suffix == "" then Some(Finite(0))
    else if |suffix| > |ExponentMark| && suffix[..|ExponentMark|] == ExponentMark then
      match MagnitudeValue(suffix[|ExponentMark|..])
      case Some(Finite(0)) => None
      case other => other
    else None
  }

  /**
   * The shown text records the exponent faithfully: knowing the name, the
   * exponent is recovered from the text, so two different exponents never
   * produce the same axis label.
   */
  lemma {:induction false} LabelTextRecordsExponent(name: string, exp: Magnitude)
    ensures SuffixExponent(LabelText(name, exp)[|name|..]) == Some(exp)
  {
    var t := LabelText(name, exp);
    if exp != Finite(0) {
      var text := MagnitudeText(exp);
      assert |text| > 0 by {
        match exp
        case Finite(e) =>
        case NegInfinity =>
        case NotANumber =>
      }
      assert t[|name|..] == ExponentMark + text;
      MarkThenText(text);
      MagnitudeTextRoundTrip(exp);
    } else {
      assert t[|name|..] == "";
    }
  }

  /** The exponent mark followed by `text` splits back into the two. */
  lemma MarkThenText(text: string)
    ensures |ExponentMark + text| == |ExponentMark| + |text|
    ensures (ExponentMark + text)[..|ExponentMark|] == ExponentMark
    ensures (ExponentMark + text)[|ExponentMark|..] == text
  {
  }

  lemma LabelTextInjective(name: string, a: Magnitude, b: Magnitude)
    requires LabelText(name, a) == LabelText(name, b)
    ensures a == b
  {
    LabelTextRecordsExponent(name, a);
    LabelTextRecordsExponent(name, b);
  }

  lemma LabelTextExamples()
    ensures LabelText("Mass", Finite(3)) == "Mass ×1e3"
    ensures LabelText("Mass", Finite(-6)) == "Mass ×1e-6"
    ensures LabelText("Mass", Finite(0)) == "Mass"
  {
  }
}
