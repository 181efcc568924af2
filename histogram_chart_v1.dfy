/**
 * The `Histogram` chart of the older source revision, an axes chart whose
 * `transform` takes the bins it is drawn with, caches them and sets the x
 * and y scale domains from them: x from the lowest lower edge to the highest
 * upper edge, y from zero (or the lowest contents, when some are not
 * positive) to 5% above the highest contents.
 */
module HistogramChartV1 {
  import opened Wrappers
  import opened Extent
  import opened HistogramPlotV1
  import Axes
  import AxesV1

  /** The x domain `transform` sets: the lowest lower edge and the highest upper edge. */
  function XScaleDomain(bins: seq<Bin>): (r: seq<real>)
    requires |bins| > 0
    ensures |r| == 2 && Least(Lows(bins), r[0]) && Greatest(Highs(bins), r[1])
  {
    [Span(Lows(bins))[0], Span(Highs(bins))[1]]
  }

  /**
   * The y domain `transform` sets. Its lower end is zero when all contents
   * are positive and the lowest contents otherwise, so it is never above
   * zero nor above any contents; its upper end is 5% above the highest.
   */
  function YScaleDomain(bins: seq<Bin>): (r: seq<real>)
    requires |bins| > 0
    ensures |r| == 2 && r[0] <= 0.0
    ensures forall i :: 0 <= i < |bins| ==> r[0] <= bins[i].y
    ensures r[0] == 0.0 || Least(Contents(bins), r[0])
    ensures r[0] == 0.0 <==> forall i :: 0 <= i < |bins| ==> bins[i].y >= 0.0
    ensures Greatest(Contents(bins), r[1] / 1.05)
  {
    var yExtent := Span(Contents(bins));
    var yLow := if yExtent[0] > 0.0 then 0.0 else yExtent[0];
    assert yExtent[0] in Contents(bins);
    [yLow, 1.05 * yExtent[1]]
  }

  /**
   * Unless every bin has negative contents, every bin's contents lie inside
   * the y domain, and every bin's edges inside the x domain.
   */
  lemma BinsInsideDomains(bins: seq<Bin>, i: nat)
    requires i < |bins| && exists k :: 0 <= k < |bins| && bins[k].y >= 0.0
    ensures XScaleDomain(bins)[0] <= bins[i].x && bins[i].dx <= XScaleDomain(bins)[1]
    ensures YScaleDomain(bins)[0] <= bins[i].y <= YScaleDomain(bins)[1]
  {
    var k :| 0 <= k < |bins| && bins[k].y >= 0.0;
    var top := YScaleDomain(bins)[1] / 1.05;
    assert Contents(bins)[k] <= top && Contents(bins)[i] <= top;
    assert Lows(bins)[i] == bins[i].x && Highs(bins)[i] == bins[i].dx;
  }

  class HistogramChart {
    /** The axes chart this chart extends: its scales hold the domains. */
    const axes: AxesV1.AxesChart
    /** `chart.data`, the bins cached by the last `transform`. */
    var data: seq<Bin>

    ghost predicate Valid()
      reads this, axes, axes.base
    {
      axes.Valid()
    }

    /** `initialize`, on top of the axes chart's, given the container's size attributes. */
    constructor(widthAttribute: Option<real>, heightAttribute: Option<real>)
      ensures Valid() && fresh(axes) && fresh(axes.base) && data == []
      ensures axes.xDomain == Axes.UnitDomain && axes.yDomain == Axes.UnitDomain
      ensures axes.plotables == map[] && !axes.clearButton
    {
      axes := new AxesV1.AxesChart(widthAttribute, heightAttribute);
      data := [];
    }

    /**
     * `transform(data)`: cache the bins and set the x and y domains from
     * them. It then calls `drawAxes`, which no chart of this revision
     * defines, so it throws a TypeError (`ok` false) and never hands the
     * bins on; the cache and the domains keep their new values.
     */
    method Transform(input: seq<Bin>) returns (ok: bool)
      requires Valid() && |input| > 0
      modifies this, axes
      ensures Valid()
      ensures !ok && data == input
      ensures axes.xDomain == XScaleDomain(input) && axes.yDomain == YScaleDomain(input)
      ensures axes.zDomain == old(axes.zDomain)
      ensures axes.originalDomains == old(axes.originalDomains) && axes.clearButton == old(axes.clearButton)
      ensures axes.plotables == old(axes.plotables) && axes.layers == old(axes.layers)
      ensures axes.LabelState() == old(axes.LabelState())
    {
      data := input;
      axes.UpdateScaleDomain(XScaleDomain(input), YScaleDomain(input));
      ok := false;
    }
  }
}
