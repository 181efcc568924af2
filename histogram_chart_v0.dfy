/**
 * The `Histogram` chart of the oldest revision, a base chart with its own x
 * and y scales. Binding data caches the bins; `transform` takes the bins,
 * taken to be sorted by x, and sets the x domain from the first and the last bin
 * and the y domain from the extent of the contents.
 */
module HistogramChartV0 {
  import opened Wrappers
  import opened Extent
  import opened HistogramPlotV1
  import HistogramChartV1
  import Base
  import Axes

  /** The x domain `transform` sets: the lower edge of the first bin and the upper edge of the last. */
  function XScaleDomain(bins: seq<Bin>): (r: seq<real>)
    requires |bins| > 0
    ensures |r| == 2 && r[0] in Lows(bins) && r[1] in Highs(bins)
  {
    assert Lows(bins)[0] == bins[0].x && Highs(bins)[|bins| - 1] == bins[|bins| - 1].dx;
    [bins[0].x, bins[|bins| - 1].dx]
  }

  /** Both edges ascend from bin to bin. */
  predicate Ascending(bins: seq<Bin>) {
    forall i, j :: 0 <= i <= j < |bins| ==> bins[i].x <= bins[j].x && bins[i].dx <= bins[j].dx
  }

  /**
   * For bins in ascending order, as `transform` expects, the first and the
   * last bin give the extent of the edges: the domain the later revision
   * computes from all bins.
   */
  lemma AscendingGivesExtent(bins: seq<Bin>)
    requires |bins| > 0 && Ascending(bins)
    ensures XScaleDomain(bins) == HistogramChartV1.XScaleDomain(bins)
  {
    var r, e := XScaleDomain(bins), HistogramChartV1.XScaleDomain(bins);
    var first, last := bins[0], bins[|bins| - 1];
    assert Least(Lows(bins), first.x) by {
      assert Lows(bins)[0] == first.x;
    }
    assert Greatest(Highs(bins), last.dx) by {
      assert Highs(bins)[|bins| - 1] == last.dx;
    }
    var i :| 0 <= i < |bins| && Lows(bins)[i] == e[0];
    var j :| 0 <= j < |bins| && Highs(bins)[j] == e[1];
    assert Lows(bins)[0] <= e[0];
    assert e[1] <= Highs(bins)[|bins| - 1];
  }

  /**
   * The y domain as written: the lowest contents and 5% above the highest.
   * The lower end `yLow`, zero unless some contents are not positive, is
   * computed beside it and never used.
   */
  function YScaleDomainAsWritten(bins: seq<Bin>): (r: seq<real>)
    requires |bins| > 0
    ensures |r| == 2 && Least(Contents(bins), r[0]) && Greatest(Contents(bins), r[1] / 1.05)
  {
    var yExtent := Span(Contents(bins));
    [yExtent[0], 1.05 * yExtent[1]]
  }

  /**
   * For contents 2 and 5 the y axis as written starts at 2, where the
   * comment beside it and the later revision start it at zero.
   */
  lemma YScaleDomainAsWrittenSkipsZero()
    ensures YScaleDomainAsWritten([Bin(0.0, 1.0, 2.0), Bin(1.0, 2.0, 5.0)]) == [2.0, 5.25]
    ensures HistogramChartV1.YScaleDomain([Bin(0.0, 1.0, 2.0), Bin(1.0, 2.0, 5.0)]) == [0.0, 5.25]
  {
    var bins := [Bin(0.0, 1.0, 2.0), Bin(1.0, 2.0, 5.0)];
    var c := Contents(bins);
    assert c == [2.0, 5.0];
    assert Least(c, 2.0) && Greatest(c, 5.0);
  }

  /** The two agree exactly when some contents are not positive. */
  lemma YScaleDomainAsWrittenAgrees(bins: seq<Bin>)
    requires |bins| > 0
    ensures YScaleDomainAsWritten(bins) == HistogramChartV1.YScaleDomain(bins)
      <==> exists i :: 0 <= i < |bins| && bins[i].y <= 0.0
  {
    var w, d := YScaleDomainAsWritten(bins), HistogramChartV1.YScaleDomain(bins);
    var c := Contents(bins);
    if exists i :: 0 <= i < |bins| && bins[i].y <= 0.0 {
      var i :| 0 <= i < |bins| && bins[i].y <= 0.0;
      assert w[0] <= c[i] <= 0.0;
      assert w == d;
    } else {
      var k :| 0 <= k < |c| && c[k] == w[0];
      assert w[0] > 0.0 && w[0] != d[0];
    }
  }

  class HistogramChart {
    /** The base chart this chart extends. */
    const base: Base.BaseChart
    /** `chart.data`, the bins cached when the bars layer binds them. */
    var data: seq<Bin>
    var xDomain: seq<real>
    var yDomain: seq<real>

    ghost predicate Valid()
      reads this, base
    {
      base.Valid()
    }

    /** `initialize`: the scales start with d3's default domain [0, 1]. */
    constructor(widthAttribute: Option<real>, heightAttribute: Option<real>)
      ensures Valid() && fresh(base) && data == []
      ensures xDomain == Axes.UnitDomain && yDomain == Axes.UnitDomain
    {
      base := new Base.BaseChart(widthAttribute, heightAttribute);
      data := [];
      xDomain, yDomain := Axes.UnitDomain, Axes.UnitDomain;
    }

    /** `dataBind` of the bars layer: cache the bins. */
    method BindData(input: seq<Bin>)
      modifies this
      ensures data == input && xDomain == old(xDomain) && yDomain == old(yDomain)
    {
      data := input;
    }

    /**
     * `transform(data)`: without bins, reading the first bin's edge throws
     * a TypeError (`ok` false) and nothing changes. Otherwise the x domain
     * spans the first to the last bin, the y domain spans the contents as
     * written (its unused `yLow` left aside), and the bins
     * are handed on unchanged; the cached bins are not touched.
     */
    method Transform(input: seq<Bin>) returns (ok: bool, output: seq<Bin>)
      requires Valid()
      modifies this
      ensures Valid()
      ensures ok <==> |input| > 0
      ensures !ok ==> unchanged(this)
      ensures ok ==> output == input && data == old(data)
      ensures ok ==> xDomain == XScaleDomain(input) && yDomain == YScaleDomainAsWritten(input)
    {
      if |input| == 0 {
        return false, [];
      }
      var lowBin, highBin := input[0], input[|input| - 1];
      xDomain := [lowBin.x, highBin.dx];
      yDomain := YScaleDomainAsWritten(input);
      return true, input;
    }
  }
}
