/**
 * SI tick-label arithmetic of the charts' axis formatter: the base-10 order of
 * magnitude of a number, the SI-grouped exponent of a set of ticks, and the
 * tick formatter that rescales a tick by that exponent and rounds it to a
 * precision fine enough to tell adjacent ticks apart.
 *
 * Numbers are exact reals. JavaScript's non-finite results are kept where the
 * source produces them: the exponent of zero is -Infinity (`NegInfinity`),
 * division by 10^-Infinity yields NaN or +/-Infinity, and `toFixed(Infinity)`
 * and `toFixed` with more than 100 digits throw a RangeError (a label of `None`).
 */
module Utilities {
  import opened Wrappers
  import opened Extent

  // ---------------------------------------------------------------------------
  // Powers of ten
  // ---------------------------------------------------------------------------

  function Pow10Nat(n: nat): (r: real)
    ensures r >= 1.0
  {
    if n == 0 then 1.0 else 10.0 * Pow10Nat(n - 1)
  }

  /** 10^e for any integer e (`Math.pow(10, e)` on exact reals). */
  function Pow10(e: int): (r: real)
    ensures r > 0.0
  {
    if e >= 0 then Pow10Nat(e) else 1.0 / Pow10Nat(-e)
  }

  lemma Pow10Step(e: int)
    ensures Pow10(e + 1) == 10.0 * Pow10(e)
  {
    if e < -1 {
      var n := -e - 1;
      assert Pow10Nat(n + 1) == 10.0 * Pow10Nat(n);
      calc {
        10.0 * Pow10(e);
        10.0 * (1.0 / Pow10Nat(n + 1));
        10.0 / (10.0 * Pow10Nat(n));
        1.0 / Pow10Nat(n);
      }
    }
  }

  lemma {:induction false} Pow10Monotonic(a: int, b: int)
    requires a < b
    ensures Pow10(a) < Pow10(b)
    decreases b - a
  {
    Pow10Step(a);
    if a + 1 < b {
      Pow10Monotonic(a + 1, b);
    }
  }

  lemma Pow10AtMost(a: int, b: int)
    requires a <= b
    ensures Pow10(a) <= Pow10(b)
  {
    if a < b {
      Pow10Monotonic(a, b);
    }
  }

  lemma Pow10Reciprocal(p: nat)
    ensures Pow10(-(p as int)) * Pow10(p) == 1.0
  {
  }

  // ---------------------------------------------------------------------------
  // exponent
  // ---------------------------------------------------------------------------

  /**
   * A base-10 exponent as JavaScript computes it: an integer, -Infinity for
   * zero, or NaN when there were no ticks to take it from.
   */
  datatype Magnitude = NegInfinity | Finite(e: int) | NotANumber

  /** The order of magnitude of a ≥ 1. */
  function ExponentAbove(a: real): (e: int)
    requires a >= 1.0
    ensures e >= 0 && Pow10(e) <= a < Pow10(e + 1)
    decreases a.Floor
  {
    if a < 10.0 then 0
    else
      FloorShrinks(a);
      var e' := ExponentAbove(a / 10.0);
      Pow10Step(e');
      Pow10Step(e' + 1);
      e' + 1
  }

  /** The order of magnitude of 0 < a < 1. */
  function ExponentBelow(a: real): (e: int)
    requires 0.0 < a < 1.0
    ensures e < 0 && Pow10(e) <= a < Pow10(e + 1)
    decreases (1.0 / a).Floor
  {
    if a * 10.0 >= 1.0 then -1
    else
      assert 1.0 / (a * 10.0) == (1.0 / a) / 10.0;
      FloorShrinks(1.0 / a);
      var e' := ExponentBelow(a * 10.0);
      Pow10Step(e' - 1);
      Pow10Step(e');
      e' - 1
  }

  lemma FloorShrinks(b: real)
    requires b >= 10.0
    ensures 0 <= (b / 10.0).Floor < b.Floor
  {
  }

  /**
   * `exponent(x)`: the base-10 exponent of |x|, the e with 10^e <= |x| < 10^(e+1);
   * -Infinity for zero, where the logarithm is -Infinity.
   */
  function Exponent(x: real): (m: Magnitude)
    ensures m == NegInfinity <==> x == 0.0
    ensures m.Finite? ==> Pow10(m.e) <= Abs(x) < Pow10(m.e + 1)
  {
    if x == 0.0 then NegInfinity
    else if Abs(x) >= 1.0 then Finite(ExponentAbove(Abs(x)))
    else Finite(ExponentBelow(Abs(x)))
  }

  /** The exponent is the only integer bracketing |x| between consecutive powers of ten. */
  lemma ExponentUnique(x: real, e: int)
    ensures Exponent(x) == Finite(e) <==> x != 0.0 && Pow10(e) <= Abs(x) < Pow10(e + 1)
  {
    if x != 0.0 && Pow10(e) <= Abs(x) < Pow10(e + 1) {
      var f := Exponent(x).e;
      if f < e {
        Pow10AtMost(f + 1, e);
      } else if e < f {
        Pow10AtMost(e + 1, f);
      }
    }
  }

  /** A larger magnitude never has a smaller exponent. */
  lemma ExponentMonotonic(x: real, y: real)
    requires 0.0 < Abs(x) <= Abs(y)
    ensures Exponent(x).e <= Exponent(y).e
  {
    var ex, ey := Exponent(x).e, Exponent(y).e;
    if ey < ex {
      Pow10AtMost(ey + 1, ex);
    }
  }

  /** Only |x| matters: `exponent(x) == exponent(-x)`. */
  lemma ExponentSymmetric(x: real)
    ensures Exponent(-x) == Exponent(x)
  {
    if x != 0.0 {
      ExponentUnique(-x, Exponent(x).e);
    }
  }

  /** The documented example: 123000 is 1.23e5. */
  lemma ExponentExamples()
    ensures Exponent(123000.0) == Finite(5)
    ensures Exponent(0.0045) == Finite(-3)
  {
    assert Pow10(5) == 100000.0 && Pow10(6) == 1000000.0;
    ExponentUnique(123000.0, 5);
    assert Pow10(-3) == 0.001 && Pow10(-2) == 0.01;
    ExponentUnique(0.0045, -3);
  }

  // ---------------------------------------------------------------------------
  // ticksExponent
  // ---------------------------------------------------------------------------

  /** `d3.max([a, b])`: -Infinity loses to any integer exponent, NaN is skipped. */
  function MaxMagnitude(a: Magnitude, b: Magnitude): (m: Magnitude)
    ensures m == a || m == b
    ensures a.NotANumber? ==> m == b
    ensures b.NotANumber? ==> m == a
    ensures a.Finite? ==> m.Finite? && a.e <= m.e
    ensures b.Finite? ==> m.Finite? && b.e <= m.e
  {
    match (a, b)
    case (NotANumber, _) => b
    case (_, NotANumber) => a
    case (NegInfinity, _) => b
    case (_, NegInfinity) => a
    case (Finite(x), Finite(y)) => if x < y then b else a
  }

  /** The larger of the exponents of the least and greatest tick. */
  function ExtremeExponent(ticks: seq<real>): Magnitude
    requires |ticks| > 0
  {
    MaxMagnitude(Exponent(Max(ticks)), Exponent(Min(ticks)))
  }

  /**
   * `ticksExponent(ticks)`: the exponent of the extremes rounded down to a
   * multiple of three (SI prefixes); -Infinity when the extremes are both zero,
   * and NaN when there are no ticks (the extent of an empty array is undefined).
   */
  function TicksExponent(ticks: seq<real>): (r: Magnitude)
    ensures r.NotANumber? <==> |ticks| == 0
    ensures r.NegInfinity? <==> |ticks| > 0 && ExtremeExponent(ticks).NegInfinity?
    ensures r.Finite? ==> |ticks| > 0 && r.e % 3 == 0 && r.e <= ExtremeExponent(ticks).e < r.e + 3
  {
    if |ticks| == 0 then NotANumber
    else match ExtremeExponent(ticks)
      case NegInfinity => NegInfinity
      case Finite(e) => Finite(3 * (e / 3))
  }

  /**
   * The exponent chosen for the ticks is that of the largest nonzero tick, rounded
   * down to a multiple of three: no nonzero tick needs a higher SI group, one tick
   * sits in the chosen group, and only an all-zero tick set gives -Infinity.
   */
  lemma TicksExponentIsLargestTickExponent(ticks: seq<real>)
    requires |ticks| > 0
    ensures TicksExponent(ticks).NegInfinity? <==> forall i :: 0 <= i < |ticks| ==> ticks[i] == 0.0
    ensures TicksExponent(ticks).Finite? ==>
      (forall i :: 0 <= i < |ticks| && ticks[i] != 0.0 ==> Exponent(ticks[i]).e < TicksExponent(ticks).e + 3)
      && (exists i :: 0 <= i < |ticks| && ticks[i] != 0.0 && TicksExponent(ticks).e <= Exponent(ticks[i]).e)
  {
    var lo, hi := Min(ticks), Max(ticks);
    var m := ExtremeExponent(ticks);
    if m.Finite? {
      forall i | 0 <= i < |ticks| && ticks[i] != 0.0
        ensures Exponent(ticks[i]).e <= m.e
      {
        if Abs(ticks[i]) <= Abs(hi) {
          ExponentMonotonic(ticks[i], hi);
        } else {
          assert Abs(ticks[i]) <= Abs(lo);
          ExponentMonotonic(ticks[i], lo);
        }
      }
      if m == Exponent(hi) {
        var i :| 0 <= i < |ticks| && ticks[i] == hi;
        assert ticks[i] != 0.0;
      } else {
        var i :| 0 <= i < |ticks| && ticks[i] == lo;
        assert ticks[i] != 0.0;
      }
    } else {
      assert lo == 0.0 && hi == 0.0;
      forall i | 0 <= i < |ticks| ensures ticks[i] == 0.0 {
        assert lo <= ticks[i] <= hi;
      }
    }
  }

  // ---------------------------------------------------------------------------
  // siTickFormatter
  // ---------------------------------------------------------------------------

  /**
   * The number of decimals for two adjacent rescaled ticks u0 and u1:
   * the negated exponent of their difference when that is negative, else 0.
   * `None` when they coincide: the exponent is -Infinity, its absolute value
   * +Infinity, and `toFixed` refuses it.
   */
  function Digits(u0: real, u1: real): (d: Option<nat>)
    ensures d.Some? <==> u0 != u1
    ensures d.Some? ==> Pow10(-(d.value as int)) <= Abs(u0 - u1)
    ensures d.Some? && d.value > 0 ==> Abs(u0 - u1) < Pow10(1 - d.value)
  {
    match Exponent(u0 - u1)
    case NegInfinity => None
    case Finite(k) =>
      if k < 0 then Some(-k)
      else Some(0)
  }

  /** The documented examples: (0.998, 0.999) needs three decimals, (12.5, 23.5) none. */
  lemma DigitsExamples()
    ensures Digits(0.998, 0.999) == Some(3)
    ensures Digits(12.5, 23.5) == Some(0)
  {
    assert Pow10(-3) == 0.001 && Pow10(-2) == 0.01;
    ExponentUnique(0.998 - 0.999, -3);
    assert Pow10(1) == 10.0 && Pow10(2) == 100.0;
    ExponentUnique(12.5 - 23.5, 1);
  }

  /** `value / Math.pow(10, exp)` as a JavaScript number. */
  datatype Number = Num(r: real) | NaN | PosInfinity | NegInfinityValue

  function Rescale(value: real, exp: Magnitude): (n: Number)
    ensures exp.Finite? ==> n == Num(value / Pow10(exp.e))
  {
    match exp
    case Finite(e) => Num(value / Pow10(e))
    // Math.pow(10, -Infinity) is 0
    case NegInfinity => if value == 0.0 then NaN else if value > 0.0 then PosInfinity else NegInfinityValue
    case NotANumber => NaN
  }

  /**
   * The precision of the labels for `ticks`: `None` when `toFixed` would be
   * handed an infinite digit count. With fewer than two ticks, or with ticks
   * rescaled to NaN, the difference is NaN, `NaN < 0` is false and 0 is used.
   */
  function Precision(ticks: seq<real>): (p: Option<nat>)
    ensures p.None? <==> |ticks| >= 2 && ticks[0] == ticks[1] && TicksExponent(ticks).Finite?
    ensures p.Some? && |ticks| >= 2 && TicksExponent(ticks).Finite? ==>
      var q := Pow10(TicksExponent(ticks).e);
      Pow10(-(p.value as int)) <= Abs(ticks[0] / q - ticks[1] / q)
      && (p.value > 0 ==> Abs(ticks[0] / q - ticks[1] / q) < Pow10(1 - p.value))
  {
    if |ticks| < 2 then Some(0)
    else if TicksExponent(ticks).NegInfinity? then Some(0)
    else
      var e := TicksExponent(ticks).e;
      DivisionInjective(ticks[0], ticks[1], Pow10(e));
      Digits(ticks[0] / Pow10(e), ticks[1] / Pow10(e))
  }

  lemma DivisionInjective(a: real, b: real, q: real)
    requires q > 0.0
    ensures a / q == b / q <==> a == b
  {
    if a / q == b / q {
      assert a == (a / q) * q && b == (b / q) * q;
    }
  }

  /**
   * A label as `Number.prototype.toFixed` writes it: the digits of `units` with a
   * decimal point before the last `precision` of them, prefixed by '-' when the
   * number was negative; or the text of a non-finite number.
   */
  datatype Rendering = Fixed(negative: bool, units: nat, precision: nat) | NotFinite(text: string)

  /** The number a fixed-point label denotes. */
  function LabelValue(l: Rendering): real
    requires l.Fixed?
  {
    (if l.negative then -(l.units as real) else l.units as real) / Pow10(l.precision)
  }

  /** The signed count of 10^-p units nearest to v, ties away from zero (`toFixed`). */
  function RoundUnits(v: real, p: nat): (n: int)
    ensures Abs(n as real - v * Pow10(p)) <= 0.5
    ensures v >= 0.0 ==> n >= 0
    ensures v < 0.0 ==> n <= 0
  {
    var s := v * Pow10(p);
    if s >= 0.0 then (s + 0.5).Floor else -((-s + 0.5).Floor)
  }

  /** The signed count of last-digit units a fixed-point label shows. */
  function SignedUnits(l: Rendering): int
    requires l.Fixed?
  {
    if l.negative then -(l.units as int) else l.units as int
  }

  /** `v.toFixed(p)` for a finite v. */
  function ToFixed(v: real, p: nat): (l: Rendering)
    ensures l.Fixed? && l.precision == p && l.negative == (v < 0.0)
    ensures SignedUnits(l) == RoundUnits(v, p)
  {
    var n := RoundUnits(v, p);
    Fixed(v < 0.0, if n < 0 then -n else n, p)
  }

  /** `toFixed` on any JavaScript number. */
  function Render(x: Number, p: nat): (l: Rendering)
    ensures l.Fixed? <==> x.Num?
  {
    match x
    case Num(v) => ToFixed(v, p)
    case NaN => NotFinite("NaN")
    case PosInfinity => NotFinite("Infinity")
    case NegInfinityValue => NotFinite("-Infinity")
  }

  /** The most digits `toFixed` accepts after the decimal point. */
  const MaxFixedDigits: nat := 100

  /** What one call of the formatter does: the exponent handed to the callback (if any) and the label. */
  datatype FormatCall = FormatCall(reported: Option<Magnitude>, text: Option<Rendering>)

  /**
   * One call `formatter(value, tickNumber)` of the function `siTickFormatter`
   * returns, given the ticks the scale generates at that moment. The callback,
   * when one was supplied, receives the exponent before the label is rendered;
   * `text` is `None` when `toFixed` throws: the first two ticks coincide, or
   * they are so close that more than 100 digits would be needed.
   */
  function FormatTick(ticks: seq<real>, value: real, hasCallback: bool): (r: FormatCall)
    ensures r.reported.Some? <==> hasCallback
    ensures r.reported.Some? ==> r.reported.value == TicksExponent(ticks)
    ensures r.text.None? <==>
      (|ticks| >= 2 && ticks[0] == ticks[1] && TicksExponent(ticks).Finite?)
      || (Precision(ticks).Some? && Precision(ticks).value > MaxFixedDigits)
    ensures r.text.Some? && r.text.value.Fixed? ==> TicksExponent(ticks).Finite?
    ensures r.text.Some? && TicksExponent(ticks).Finite? ==>
      r.text.value == ToFixed(value / Pow10(TicksExponent(ticks).e), Precision(ticks).value)
  {
    var exp := TicksExponent(ticks);
    var reported := if hasCallback then Some(exp) else None;
    match Precision(ticks)
    case None => FormatCall(reported, None)
    case Some(p) =>
      if p > MaxFixedDigits then FormatCall(reported, None)
      else FormatCall(reported, Some(Render(Rescale(value, exp), p)))
  }

  /**
   * The callback receives exactly the exponent the label was scaled by: read as a
   * decimal number and multiplied by 10^exp (the axis label's `×1e<exp>`), the
   * label is the tick value to within half a unit of its last digit.
   */
  lemma {:induction false} LabelMatchesReportedExponent(ticks: seq<real>, value: real)
    ensures var r := FormatTick(ticks, value, true);
      r.text.Some? && r.text.value.Fixed? ==>
        r.reported.Some? && r.reported.value.Finite? &&
        Abs(LabelValue(r.text.value) - value / Pow10(r.reported.value.e))
          <= Pow10(-(r.text.value.precision as int)) / 2.0
  {
    var r := FormatTick(ticks, value, true);
    if r.text.Some? && r.text.value.Fixed? {
      var e := TicksExponent(ticks).e;
      var p := r.text.value.precision;
      RoundingError(value / Pow10(e), p);
    }
  }

  lemma RoundingError(v: real, p: nat)
    ensures Abs(LabelValue(ToFixed(v, p)) - v) <= Pow10(-(p as int)) / 2.0
  {
    var n := RoundUnits(v, p);
    var l := ToFixed(v, p);
    var q := Pow10(p);
    assert LabelValue(l) == n as real / q;
    Pow10Reciprocal(p);
    assert Pow10(-(p as int)) == 1.0 / q;
    assert LabelValue(l) - v == (n as real - v * q) / q;
    DivideBound(n as real - v * q, q);
  }

  lemma DivideBound(d: real, q: real)
    requires q > 0.0 && Abs(d) <= 0.5
    ensures Abs(d / q) <= (1.0 / q) / 2.0
  {
  }

  /** Values at least one last-digit unit apart are rounded to different counts of units. */
  lemma RoundUnitsSeparates(v: real, w: real, p: nat)
    requires v * Pow10(p) + 1.0 <= w * Pow10(p)
    ensures RoundUnits(v, p) < RoundUnits(w, p)
  {
  }

  /**
   * The formatter's promise for evenly spaced ticks: no two of them get the same
   * label, because the precision makes one last-digit unit at most the spacing.
   */
  lemma {:induction false} EvenlySpacedTicksGetDistinctLabels(ticks: seq<real>, step: real, i: nat, j: nat, hasCallback: bool)
    requires |ticks| >= 2 && step > 0.0
    requires forall k :: 0 <= k < |ticks| ==> ticks[k] == ticks[0] + (k as real) * step
    requires i < j < |ticks|
    ensures Precision(ticks).Some?
    ensures Precision(ticks).value <= MaxFixedDigits ==>
      FormatTick(ticks, ticks[i], hasCallback).text.Some?
      && FormatTick(ticks, ticks[i], hasCallback).text != FormatTick(ticks, ticks[j], hasCallback).text
  {
    var a, b := ticks[i], ticks[j];
    assert ticks[1] == ticks[0] + step;
    assert b == a + ((j - i) as real) * step by {
      assert a == ticks[0] + (i as real) * step && b == ticks[0] + (j as real) * step;
    }
    TicksStepApart(ticks, step, a, b, j - i, hasCallback);
  }

  lemma TicksStepApart(ticks: seq<real>, step: real, a: real, b: real, n: nat, hasCallback: bool)
    requires |ticks| >= 2 && step > 0.0 && ticks[1] == ticks[0] + step
    requires n >= 1 && b == a + (n as real) * step
    ensures Precision(ticks).Some?
    ensures Precision(ticks).value <= MaxFixedDigits ==>
      FormatTick(ticks, a, hasCallback).text.Some?
      && FormatTick(ticks, a, hasCallback).text != FormatTick(ticks, b, hasCallback).text
  {
    DistinctTicksHaveExponent(ticks);
    var q := Pow10(TicksExponent(ticks).e);
    var p := Precision(ticks).value;
    assert Precision(ticks).Some?;
    SpacingScales(ticks[0], ticks[1], 1, step, q);
    var u := ticks[0] / q - ticks[1] / q;
    assert ticks[1] / q - ticks[0] / q == step / q;
    assert u == -(step / q) && step / q > 0.0;
    assert Abs(u) == step / q;
    assert Pow10(-(p as int)) <= step / q;
    SpacingScales(a, b, n, step, q);
    assert Pow10(-(p as int)) <= b / q - a / q;
    if p <= MaxFixedDigits {
      SeparatedTicksGetDistinctLabels(ticks, a, b, hasCallback);
    }
  }

  /** Two values whose rescaled distance is at least one last-digit unit get different labels. */
  lemma SeparatedTicksGetDistinctLabels(ticks: seq<real>, a: real, b: real, hasCallback: bool)
    requires TicksExponent(ticks).Finite? && Precision(ticks).Some?
    requires Precision(ticks).value <= MaxFixedDigits
    requires Pow10(-(Precision(ticks).value as int))
      <= b / Pow10(TicksExponent(ticks).e) - a / Pow10(TicksExponent(ticks).e)
    ensures FormatTick(ticks, a, hasCallback).text.Some?
    ensures FormatTick(ticks, a, hasCallback).text != FormatTick(ticks, b, hasCallback).text
  {
    var q := Pow10(TicksExponent(ticks).e);
    var p := Precision(ticks).value;
    UnitFitsSpacing(a / q, b / q, b / q - a / q, p);
  }

  /** Ticks that are not all equal have a finite SI exponent. */
  lemma DistinctTicksHaveExponent(ticks: seq<real>)
    requires |ticks| >= 2 && ticks[0] != ticks[1]
    ensures TicksExponent(ticks).Finite?
  {
    assert Min(ticks) <= ticks[0] <= Max(ticks) && Min(ticks) <= ticks[1] <= Max(ticks);
  }

  /** Ticks n steps apart, rescaled by q, are at least one rescaled step apart. */
  lemma SpacingScales(a: real, b: real, n: nat, step: real, q: real)
    requires n >= 1 && step > 0.0 && q > 0.0 && b == a + (n as real) * step
    ensures b / q - a / q >= step / q
    ensures n == 1 ==> b / q - a / q == step / q
    ensures step / q > 0.0
  {
    assert b / q - a / q == ((n as real) * step) / q;
    assert (n as real) * step >= step;
  }

  /** Values one last-digit unit apart are rounded to different labels. */
  lemma UnitFitsSpacing(v: real, w: real, d: real, p: nat)
    requires Pow10(-(p as int)) <= d <= w - v
    ensures ToFixed(v, p) != ToFixed(w, p)
  {
    Pow10Reciprocal(p);
    var q := Pow10(p);
    assert (w - v) * q >= Pow10(-(p as int)) * q;
    assert v * q + 1.0 <= w * q;
    RoundUnitsSeparates(v, w, p);
  }

  /**
   * What the formatter does with the documented ticks: [0.998, 0.999] are first
   * rescaled by the SI exponent -3 (to 998 and 999), so they need no decimals;
   * [12.5, 23.5, 34.5] keep exponent 0 and also need none.
   */
  lemma FormatterExampleMilli()
    ensures TicksExponent([0.998, 0.999]) == Finite(-3) && Precision([0.998, 0.999]) == Some(0)
  {
    var t := [0.998, 0.999];
    assert Min(t) == 0.998 && Max(t) == 0.999;
    assert Pow10(-1) == 0.1 && Pow10(0) == 1.0;
    ExponentUnique(0.998, -1);
    ExponentUnique(0.999, -1);
    assert TicksExponent(t) == Finite(-3);
    assert Pow10(-3) == 0.001;
    assert t[0] / Pow10(-3) == 998.0 && t[1] / Pow10(-3) == 999.0;
    assert Pow10(1) == 10.0;
    ExponentUnique(998.0 - 999.0, 0);
  }

  lemma FormatterExampleUnits()
    ensures TicksExponent([12.5, 23.5, 34.5]) == Finite(0) && Precision([12.5, 23.5, 34.5]) == Some(0)
  {
    var s := [12.5, 23.5, 34.5];
    assert Min(s) == 12.5 && Max(s) == 34.5;
    assert Pow10(1) == 10.0 && Pow10(2) == 100.0;
    ExponentUnique(12.5, 1);
    ExponentUnique(34.5, 1);
    assert TicksExponent(s) == Finite(0);
    assert Pow10(0) == 1.0;
    assert s[0] / Pow10(0) == 12.5 && s[1] / Pow10(0) == 23.5;
    ExponentUnique(12.5 - 23.5, 1);
  }
}
