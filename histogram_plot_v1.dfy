/**
 * The `Histogram` plotable of the older source revision: a named array of
 * bins, each with a lower edge `x`, an upper edge `dx` and contents `y`, and
 * an `axes` accessor through which a chart hands itself to the plotable.
 * Drawing needs that chart.
 */
module HistogramPlotV1 {
  import opened Wrappers
  import opened Extent
  import AxesV1

  datatype Bin = Bin(x: real, dx: real, y: real)

  function Lows(bins: seq<Bin>): (r: seq<real>)
    ensures |r| == |bins| && forall i :: 0 <= i < |bins| ==> r[i] == bins[i].x
  {
    seq(|bins|, i requires 0 <= i < |bins| => bins[i].x)
  }

  function Highs(bins: seq<Bin>): (r: seq<real>)
    ensures |r| == |bins| && forall i :: 0 <= i < |bins| ==> r[i] == bins[i].dx
  {
    seq(|bins|, i requires 0 <= i < |bins| => bins[i].dx)
  }

  function Contents(bins: seq<Bin>): (r: seq<real>)
    ensures |r| == |bins| && forall i :: 0 <= i < |bins| ==> r[i] == bins[i].y
  {
    seq(|bins|, i requires 0 <= i < |bins| => bins[i].y)
  }

  /**
   * `xDomain` as written: from the lowest lower edge to the highest upper
   * edge, padded on each side by 5% of the spread of the lower edges only.
   */
  function XDomainAsWritten(bins: seq<Bin>): (r: seq<real>)
    requires |bins| > 0
    ensures |r| == 2
    ensures Min(Lows(bins)) - r[0] == r[1] - Max(Highs(bins)) == LowsPadding(bins)
  {
    var padding := LowsPadding(bins);
    [Min(Lows(bins)) - padding, Max(Highs(bins)) + padding]
  }

  /** Five per cent of the spread of the lower edges. */
  function LowsPadding(bins: seq<Bin>): (p: real)
    requires |bins| > 0
    ensures p >= 0.0
  {
    0.05 * Abs(Min(Lows(bins)) - Max(Lows(bins)))
  }

  /**
   * A single bin [0, 1] gets no padding at all as written; padding by 5% of
   * the distance from the lowest lower edge to the highest upper edge, as the
   * later revision does, gives [-0.05, 1.05].
   */
  lemma XDomainAsWrittenSkipsPadding()
    ensures XDomainAsWritten([Bin(0.0, 1.0, 3.0)]) == [0.0, 1.0]
    ensures XDomain([Bin(0.0, 1.0, 3.0)]) == [-0.05, 1.05]
  {
  }

  /**
   * `xDomain` as intended: from the lowest lower edge to the highest upper
   * edge, padded on each side by 5% of that distance; every bin lies inside.
   */
  function XDomain(bins: seq<Bin>): (r: seq<real>)
    requires |bins| > 0
    ensures |r| == 2
    ensures forall i :: 0 <= i < |bins| ==> r[0] <= bins[i].x && bins[i].dx <= r[1]
    ensures r == Padded(Min(Lows(bins)), Max(Highs(bins)))
  {
    Padded(Min(Lows(bins)), Max(Highs(bins)))
  }

  /**
   * For bins whose lower edges lie below their upper edges, the two agree
   * exactly when the highest lower edge is also the highest upper edge, that
   * is, only when the top bin has no width.
   */
  lemma XDomainAsWrittenDiffers(bins: seq<Bin>)
    requires |bins| > 0 && forall i :: 0 <= i < |bins| ==> bins[i].x <= bins[i].dx
    ensures XDomainAsWritten(bins) == XDomain(bins) <==> Max(Lows(bins)) == Max(Highs(bins))
  {
    var lo, top, hi := Min(Lows(bins)), Max(Lows(bins)), Max(Highs(bins));
    assert lo <= top && lo <= hi by {
      assert lo <= Lows(bins)[0] <= Highs(bins)[0] <= hi;
    }
    var w, d := XDomainAsWritten(bins), XDomain(bins);
    assert w == [lo - 0.05 * (top - lo), hi + 0.05 * (top - lo)] by {
      assert LowsPadding(bins) == 0.05 * (top - lo);
    }
    assert d == [lo - 0.05 * (hi - lo), hi + 0.05 * (hi - lo)];
    SamePaddingSameDomain(w, d, lo, hi, top - lo, hi - lo);
  }

  /**
   * Two widenings of [lo, hi], by 5% of `a` and by 5% of `b` on each side,
   * agree exactly when `a` and `b` do.
   */
  lemma SamePaddingSameDomain(w: seq<real>, d: seq<real>, lo: real, hi: real, a: real, b: real)
    requires w == [lo - 0.05 * a, hi + 0.05 * a] && d == [lo - 0.05 * b, hi + 0.05 * b]
    ensures w == d <==> a == b
  {
    if w == d {
      assert w[0] == d[0];
    }
  }

  /** `yDomain`: from the least contents to 5% above the greatest. */
  function YDomain(bins: seq<Bin>): (r: seq<real>)
    requires |bins| > 0
    ensures |r| == 2 && Least(Contents(bins), r[0]) && Greatest(Contents(bins), r[1] / 1.05)
  {
    var yExtent := Span(Contents(bins));
    [yExtent[0], 1.05 * yExtent[1]]
  }

  /** With non-negative contents, every bin's contents lie inside the y domain. */
  lemma ContentsInsideYDomain(bins: seq<Bin>, i: nat)
    requires i < |bins| && forall k :: 0 <= k < |bins| ==> bins[k].y >= 0.0
    ensures YDomain(bins)[0] <= bins[i].y <= YDomain(bins)[1]
  {
    var r := YDomain(bins);
    assert Contents(bins)[i] == bins[i].y <= r[1] / 1.05;
  }

  class Histogram {
    const name: string
    const data: seq<Bin>
    /** The chart set through the `axes` accessor. */
    var axes: Option<object>

    constructor(name: string, data: seq<Bin>)
      ensures this.name == name && this.data == data && axes.None?
    {
      this.name := name;
      this.data := data;
      axes := None;
    }

    /** `axes(newAxes)`: the setter; the getter then returns `newAxes`. */
    method SetAxes(newAxes: Option<object>)
      modifies this
      ensures axes == newAxes
    {
      axes := newAxes;
    }

    /**
     * `draw(g, transition)`, as far as its guards go: nothing is drawn when
     * it is called without arguments or before an axes object has been set.
     */
    method Draw(layerGiven: bool) returns (drawn: bool)
      ensures drawn <==> layerGiven && axes.Some?
    {
      if !layerGiven {
        return false;
      }
      if axes.None? {
        return false;
      }
      return true;
    }

    /**
     * The histogram as a chart registers it: every capability, no z domain,
     * and the x domain as written, padded by the spread of the lower edges.
     */
    function AsPlotable(): (p: AxesV1.Plotable)
      reads this
      requires |data| > 0
      ensures AxesV1.Accepts(p) && p.name == Some(name) && p.zDomain.None? && p.axes == axes
      ensures p.xDomain == Some(XDomainAsWritten(data)) && p.yDomain == Some(YDomain(data))
    {
      AxesV1.Plotable(Some(name), true, true, Some(XDomainAsWritten(data)), Some(YDomain(data)), None, axes)
    }
  }
}
