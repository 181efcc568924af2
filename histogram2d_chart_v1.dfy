/**
 * The two-dimensional histogram charts of the older source revision
 * (`Histogram2D`, and its earlier copy `2DHistogram`, whose `transform` is
 * the same): axes charts whose `transform` takes an object holding the tiles
 * under `data`, caches the tiles and sets the x, y and z scale domains from
 * them, with the stops of the plotable `Histogram2D` of that revision.
 */
module Histogram2DChartV1 {
  import opened Wrappers
  import opened Extent
  import opened Histogram2DPlotV1
  import Axes
  import AxesV1

  /** What the chart is drawn with: an object whose `data` key holds the tiles. */
  datatype Payload = Payload(data: seq<Tile>)

  class Histogram2DChart {
    /** The axes chart this chart extends; its z scale is the chart's colour scale. */
    const axes: AxesV1.AxesChart
    /** `chart.data`, the tiles cached by the last `transform`. */
    var data: seq<Tile>

    ghost predicate Valid()
      reads this, axes, axes.base
    {
      axes.Valid()
    }

    /** `initialize`, on top of the axes chart's, given the container's size attributes. */
    constructor(widthAttribute: Option<real>, heightAttribute: Option<real>)
      ensures Valid() && fresh(axes) && fresh(axes.base) && data == []
      ensures axes.xDomain == Axes.UnitDomain && axes.yDomain == Axes.UnitDomain
      ensures axes.zDomain == Axes.UnitDomain
    {
      axes := new AxesV1.AxesChart(widthAttribute, heightAttribute);
      data := [];
    }

    /**
     * `transform(data)`: cache the tiles, set the x and y domains to their
     * extents and the z domain to [0, zMax/2, zMax]; the domains are those
     * of the `Histogram2D` plotable of this revision on the same tiles. It
     * then calls `drawAxes`, which no chart of this revision defines, so it
     * throws a TypeError (`ok` false) before drawing the colour label or
     * handing the input on.
     */
    method Transform(input: Payload) returns (ok: bool)
      requires Valid() && |input.data| > 0
      modifies this, axes
      ensures Valid()
      ensures !ok && data == input.data
      ensures axes.xDomain == XDomain(data) && axes.yDomain == YDomain(data)
      ensures axes.zDomain == ZDomain(data)
      ensures axes.originalDomains == old(axes.originalDomains) && axes.clearButton == old(axes.clearButton)
      ensures axes.plotables == old(axes.plotables) && axes.layers == old(axes.layers)
      ensures axes.LabelState() == old(axes.LabelState())
    {
      data := input.data;
      axes.UpdateScaleDomain(XDomain(data), YDomain(data));
      axes.SetZDomain(ZDomain(data));
      ok := false;
    }
  }
}
