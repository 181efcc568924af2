/**
 * The `LineChart` plotable (the same in the distributed bundle and the
 * source): a named array of points, each with coordinates `x`, `y` and
 * optional (lower, upper) uncertainties `xerr`, `yerr`. The constructor fills
 * in missing uncertainties, rewriting the caller's array in place; the
 * domain methods give the extent of the error bars, padded by 5% per side.
 */
module LineChartPlot {
  import opened Wrappers
  import opened Extent
  import Axes

  /** A pair of (lower, upper) uncertainties. */
  type Error = (real, real)

  datatype Point = Point(x: real, y: real, xerr: Option<Error>, yerr: Option<Error>)

  /** The configuration object; a missing key is `None`. */
  datatype Config = Config(
    color: Option<string>,
    interpolation: Option<string>,
    showPoints: Option<bool>,
    showUncertainties: Option<bool>)

  const DefaultColor: string := "#261196"
  const DefaultInterpolation: string := "basis"

  /** The uncertainty given to a point that has none. */
  const NoError: Error := (0.0, 0.0)

  /** One step of the constructor loop: missing uncertainties become [0, 0]. */
  function Prepared(p: Point): (r: Point)
    ensures r.x == p.x && r.y == p.y && r.xerr.Some? && r.yerr.Some?
    ensures p.xerr.Some? ==> r.xerr == p.xerr
    ensures p.yerr.Some? ==> r.yerr == p.yerr
    ensures p.xerr.None? ==> r.xerr == Some(NoError)
    ensures p.yerr.None? ==> r.yerr == Some(NoError)
  {
    Point(p.x, p.y, if p.xerr.Some? then p.xerr else Some(NoError),
          if p.yerr.Some? then p.yerr else Some(NoError))
  }

  /** Every point has both uncertainties. */
  predicate IsPrepared(points: seq<Point>) {
    forall i :: 0 <= i < |points| ==> points[i].xerr.Some? && points[i].yerr.Some?
  }

  /** The array the constructor leaves: each point prepared, in the same order. */
  function PreparedAll(points: seq<Point>): (r: seq<Point>)
    ensures |r| == |points| && IsPrepared(r)
    ensures forall i :: 0 <= i < |points| ==> r[i] == Prepared(points[i])
  {
    seq(|points|, i requires 0 <= i < |points| => Prepared(points[i]))
  }

  /** An array that already has all its uncertainties is left as it is. */
  lemma {:induction false} PreparedAllKeepsPrepared(points: seq<Point>)
    requires IsPrepared(points)
    ensures PreparedAll(points) == points
  {
    var r := PreparedAll(points);
    forall i | 0 <= i < |points|
      ensures r[i] == points[i]
    {
      assert points[i].xerr.Some? && points[i].yerr.Some?;
    }
  }

  /** The constructor loop, rewriting each element of `data` in place. */
  method Prepare(data: array<Point>)
    modifies data
    ensures data[..] == PreparedAll(old(data[..]))
  {
    var i := 0;
    while i < data.Length
      invariant 0 <= i <= data.Length
      invariant forall k :: 0 <= k < i ==> data[k] == Prepared(old(data[k]))
      invariant forall k :: i <= k < data.Length ==> data[k] == old(data[k])
    {
      var datum := data[i];
      if datum.xerr.None? {
        datum := datum.(xerr := Some(NoError));
      }
      if datum.yerr.None? {
        datum := datum.(yerr := Some(NoError));
      }
      data[i] := datum;
      i := i + 1;
    }
  }

  /** A coordinate with its (lower, upper) error bar. */
  type Bar = (real, Error)

  function Bottoms(bars: seq<Bar>): (r: seq<real>)
    ensures |r| == |bars| && forall i :: 0 <= i < |bars| ==> r[i] == bars[i].0 - bars[i].1.0
  {
    seq(|bars|, i requires 0 <= i < |bars| => bars[i].0 - bars[i].1.0)
  }

  function Tops(bars: seq<Bar>): (r: seq<real>)
    ensures |r| == |bars| && forall i :: 0 <= i < |bars| ==> r[i] == bars[i].0 + bars[i].1.1
  {
    seq(|bars|, i requires 0 <= i < |bars| => bars[i].0 + bars[i].1.1)
  }

  /**
   * The domain of one axis: from the lowest error-bar bottom to the highest
   * error-bar top, padded by 5% of that distance on each side.
   */
  function BarDomain(bars: seq<Bar>): (r: seq<real>)
    requires |bars| > 0
    ensures |r| == 2
    ensures forall i :: 0 <= i < |bars| ==> r[0] <= Bottoms(bars)[i] && Tops(bars)[i] <= r[1]
    ensures r == Padded(Min(Bottoms(bars)), Max(Tops(bars)))
  {
    Padded(Min(Bottoms(bars)), Max(Tops(bars)))
  }

  /**
   * With non-negative uncertainties, every coordinate and both ends of its
   * error bar lie inside the domain, and the domain is an interval.
   */
  lemma {:induction false} BarsInsideDomain(bars: seq<Bar>)
    requires |bars| > 0
    requires forall i :: 0 <= i < |bars| ==> bars[i].1.0 >= 0.0 && bars[i].1.1 >= 0.0
    ensures BarDomain(bars)[0] <= BarDomain(bars)[1]
    ensures forall i :: 0 <= i < |bars| ==>
      BarDomain(bars)[0] <= Bottoms(bars)[i] <= bars[i].0 <= Tops(bars)[i] <= BarDomain(bars)[1]
  {
    var lo, hi := Min(Bottoms(bars)), Max(Tops(bars));
    assert lo <= Bottoms(bars)[0] <= Tops(bars)[0] <= hi;
  }

  function XBars(points: seq<Point>): (r: seq<Bar>)
    requires IsPrepared(points)
    ensures |r| == |points| && forall i :: 0 <= i < |points| ==> r[i] == (points[i].x, points[i].xerr.value)
  {
    seq(|points|, i requires 0 <= i < |points| => (points[i].x, points[i].xerr.value))
  }

  function YBars(points: seq<Point>): (r: seq<Bar>)
    requires IsPrepared(points)
    ensures |r| == |points| && forall i :: 0 <= i < |points| ==> r[i] == (points[i].y, points[i].yerr.value)
  {
    seq(|points|, i requires 0 <= i < |points| => (points[i].y, points[i].yerr.value))
  }

  /** `xDomain`: the padded extent of `x - xerr[0]` and `x + xerr[1]`. */
  function XDomain(points: seq<Point>): (r: seq<real>)
    requires |points| > 0 && IsPrepared(points)
    ensures |r| == 2
    ensures forall i :: 0 <= i < |points| ==>
      r[0] <= points[i].x - points[i].xerr.value.0 && points[i].x + points[i].xerr.value.1 <= r[1]
  {
    var bars := XBars(points);
    assert forall i :: 0 <= i < |points| ==> Bottoms(bars)[i] == points[i].x - points[i].xerr.value.0;
    assert forall i :: 0 <= i < |points| ==> Tops(bars)[i] == points[i].x + points[i].xerr.value.1;
    BarDomain(bars)
  }

  /** `yDomain`: the padded extent of `y - yerr[0]` and `y + yerr[1]`. */
  function YDomain(points: seq<Point>): (r: seq<real>)
    requires |points| > 0 && IsPrepared(points)
    ensures |r| == 2
    ensures forall i :: 0 <= i < |points| ==>
      r[0] <= points[i].y - points[i].yerr.value.0 && points[i].y + points[i].yerr.value.1 <= r[1]
  {
    var bars := YBars(points);
    assert forall i :: 0 <= i < |points| ==> Bottoms(bars)[i] == points[i].y - points[i].yerr.value.0;
    assert forall i :: 0 <= i < |points| ==> Tops(bars)[i] == points[i].y + points[i].yerr.value.1;
    BarDomain(bars)
  }

  /** Right after the constructor (all uncertainties [0, 0]) each point lies inside both domains. */
  lemma PreparedPointsInsideDomains(points: seq<Point>, i: nat)
    requires i < |points|
    requires forall k :: 0 <= k < |points| ==> points[k].xerr.None? && points[k].yerr.None?
    ensures XDomain(PreparedAll(points))[0] <= points[i].x <= XDomain(PreparedAll(points))[1]
    ensures YDomain(PreparedAll(points))[0] <= points[i].y <= YDomain(PreparedAll(points))[1]
  {
    var prepared := PreparedAll(points);
    assert prepared[i].xerr == Some(NoError) && prepared[i].yerr == Some(NoError);
  }

  class LineChart {
    const name: string
    /** The caller's array, rewritten by the constructor. */
    const data: array<Point>
    const color: string
    const interpolation: string
    const showPoints: bool
    const showUncertainties: bool

    /** The constructor: configuration defaults, then the preparation loop over `data`. */
    constructor(name: string, data: array<Point>, config: Config)
      modifies data
      ensures this.name == name && this.data == data
      ensures color == (if config.color.Some? then config.color.value else DefaultColor)
      ensures interpolation == (if config.interpolation.Some? then config.interpolation.value else DefaultInterpolation)
      ensures showPoints == (config.showPoints.Some? && config.showPoints.value)
      ensures showUncertainties == (config.showUncertainties.Some? && config.showUncertainties.value)
      ensures data[..] == PreparedAll(old(data[..]))
    {
      this.name := name;
      this.data := data;
      color := if config.color.Some? then config.color.value else DefaultColor;
      interpolation := if config.interpolation.Some? then config.interpolation.value else DefaultInterpolation;
      showPoints := config.showPoints.Some? && config.showPoints.value;
      showUncertainties := config.showUncertainties.Some? && config.showUncertainties.value;
      new;
      Prepare(data);
    }

    /** The line chart as a chart registers it: `draw`, `name`, x and y domains, no z domain. */
    function AsPlotable(): (p: Axes.Plotable)
      reads data
      requires data.Length > 0 && IsPrepared(data[..])
      ensures Axes.Accepts(p) && p.name == Some(name) && p.zDomain.None?
      ensures p.xDomain == Some(XDomain(data[..])) && p.yDomain == Some(YDomain(data[..]))
    {
      Axes.Plotable(Some(name), true, Some(XDomain(data[..])), Some(YDomain(data[..])), None)
    }
  }
}
