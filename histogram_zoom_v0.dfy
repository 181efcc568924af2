/**
 * The `HistogramZoom` chart of the oldest revision: a histogram chart with
 * an x-only brush. While brushing, the bars with an edge inside the brush
 * extent are marked selected; ending a non-empty stroke zooms the x domain
 * to the extent (caching the domain shown before the first zoom and
 * creating a "Clear zoom" button) and unmarks every bar.
 */
module HistogramZoomV0 {
  import opened Wrappers
  import Zoom
  import Axes
  import HistogramZoomV1
  import HistogramChartV0
  import HistogramPlotV1

  /** A brush extent `[x0, x1]`. */
  type Extent = (real, real)

  /** The `selected` class of a bar: its lower or its upper edge lies in the extent. */
  predicate Selected(extent: Extent, bar: HistogramPlotV1.Bin) {
    (extent.0 <= bar.x <= extent.1) || (extent.0 <= bar.dx <= extent.1)
  }

  /**
   * For a well-formed bar and extent, a bar is selected exactly when it
   * overlaps the extent, except a bar reaching past both ends of the extent,
   * which has neither edge inside it.
   */
  lemma SelectedMeansEdgeInside(extent: Extent, bar: HistogramPlotV1.Bin)
    requires extent.0 <= extent.1 && bar.x <= bar.dx
    ensures Selected(extent, bar) <==>
      bar.x <= extent.1 && extent.0 <= bar.dx && !(bar.x < extent.0 && extent.1 < bar.dx)
  {
  }

  class HistogramZoom {
    /** The histogram chart this chart extends. */
    const chart: HistogramChartV0.HistogramChart
    /** The `selected` class of each bar of the bound bins. */
    var selected: seq<bool>
    /** `xScale.originalDomain`, the x domain cached by the first zoom. */
    var originalDomain: Option<seq<real>>
    /** Whether the "Clear zoom" button exists. */
    var clearButton: bool

    ghost predicate Valid()
      reads this, chart, chart.base
    {
      chart.Valid() && (clearButton ==> originalDomain.Some?)
    }

    /** The zoom state: the x domain, the cached original and the button. */
    function ZoomState(): Zoom.State<seq<real>>
      reads this, chart
    {
      Zoom.State(chart.xDomain, originalDomain, clearButton)
    }

    constructor(widthAttribute: Option<real>, heightAttribute: Option<real>)
      ensures Valid() && fresh(chart) && fresh(chart.base) && selected == []
      ensures ZoomState() == Zoom.State(Axes.UnitDomain, None, false)
    {
      chart := new HistogramChartV0.HistogramChart(widthAttribute, heightAttribute);
      selected := [];
      originalDomain, clearButton := None, false;
    }

    /** The `brush` handler: mark each bar of the bound bins by whether it is selected. */
    method Brush(extent: Extent)
      modifies this
      ensures |selected| == |chart.data|
      ensures forall i :: 0 <= i < |chart.data| ==> (selected[i] <==> Selected(extent, chart.data[i]))
      ensures ZoomState() == old(ZoomState())
    {
      var bars := chart.data;
      selected := seq(|bars|, i requires 0 <= i < |bars| => Selected(extent, bars[i]));
    }

    /** `updateScaleDomain(newDomain)`: set the x domain (and redraw the bars). */
    method UpdateScaleDomain(newDomain: seq<real>)
      requires Valid()
      modifies chart
      ensures Valid()
      ensures chart.xDomain == newDomain && chart.yDomain == old(chart.yDomain) && chart.data == old(chart.data)
    {
      chart.xDomain := newDomain;
    }

    /**
     * The `brushend` handler, given the brush extent (`None` for an empty
     * brush, which changes nothing): zoom, then unmark every bar.
     */
    method BrushEnd(brush: Option<Extent>)
      requires Valid()
      modifies this, chart
      ensures Valid()
      ensures ZoomState() == Zoom.BrushEnd(old(ZoomState()), HistogramZoomV1.BrushDomain(brush))
      ensures brush.None? ==> selected == old(selected)
      ensures brush.Some? ==> |selected| == |chart.data| && forall i :: 0 <= i < |selected| ==> !selected[i]
      ensures chart.yDomain == old(chart.yDomain) && chart.data == old(chart.data)
    {
      if brush.None? {
        return;
      }
      if !clearButton {
        originalDomain := Some(chart.xDomain);
        clearButton := true;
      }
      UpdateScaleDomain([brush.value.0, brush.value.1]);
      selected := seq(|chart.data|, _ => false);
    }

    /** A click on "Clear zoom": restore the cached x domain and remove the button. */
    method ClearZoom()
      requires Valid() && clearButton
      modifies this, chart
      ensures Valid()
      ensures ZoomState() == Zoom.Clear(old(ZoomState()))
      ensures chart.yDomain == old(chart.yDomain) && chart.data == old(chart.data)
    {
      UpdateScaleDomain(originalDomain.value);
      clearButton := false;
    }
  }
}
