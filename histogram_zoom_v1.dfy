/**
 * The `HistogramZoom` chart of the older source revision: a histogram chart
 * with an x-only brush. Ending a non-empty brush stroke zooms the x domain
 * to the brush extent, caching the domain shown before the first zoom and
 * creating a "Clear zoom" button; a click on the button restores the cached
 * domain. Both go through `updateScaleDomain`, which sets the x domain and
 * then calls `drawAxes`, defined by no chart of this revision: the TypeError
 * it throws ends each handler there, so the click never removes the button.
 */
module HistogramZoomV1 {
  import opened Wrappers
  import Zoom
  import Axes
  import HistogramChartV1

  /** The x domain a brush extent `[x0, x1]` sets, `None` for an empty brush. */
  function BrushDomain(brush: Option<(real, real)>): (d: Option<seq<real>>)
    ensures d.Some? <==> brush.Some?
    ensures brush.Some? ==> d.value == [brush.value.0, brush.value.1]
  {
    match brush
    case None => None
    case Some((x0, x1)) => Some([x0, x1])
  }

  /**
   * A click on "Clear zoom" as written: the cached x domain is restored, but
   * the handler throws before it removes the button, which stays.
   */
  function ClearAsWritten(s: Zoom.State<seq<real>>): (r: Zoom.State<seq<real>>)
    requires s.button && Zoom.Valid(s)
    ensures r.domain == s.original.value && r.original == s.original && r.button
    ensures Zoom.Valid(r)
  {
    Zoom.State(s.original.value, s.original, true)
  }

  /**
   * After any run of brush strokes that zooms at least once, the click as
   * written restores the domain shown before the first zoom, as the intended
   * `Zoom.Clear` does, but leaves the button where `Zoom.Clear` removes it.
   */
  lemma ClearAsWrittenKeepsButton(s: Zoom.State<seq<real>>, brushes: seq<Option<seq<real>>>)
    requires Zoom.Valid(s) && !s.button
    requires exists i :: 0 <= i < |brushes| && brushes[i].Some?
    ensures Zoom.Session(s, brushes).button && Zoom.Valid(Zoom.Session(s, brushes))
    ensures ClearAsWritten(Zoom.Session(s, brushes)).domain == s.domain
    ensures ClearAsWritten(Zoom.Session(s, brushes)).button && !Zoom.Clear(Zoom.Session(s, brushes)).button
  {
    Zoom.ClearUndoesZooms(s, brushes);
  }

  class HistogramZoom {
    /** The histogram chart this chart extends. */
    const chart: HistogramChartV1.HistogramChart
    /** `xScale.originalDomain`, the x domain cached by the first zoom. */
    var originalDomain: Option<seq<real>>
    /** Whether the "Clear zoom" button exists. */
    var clearButton: bool

    ghost predicate Valid()
      reads this, chart, chart.axes, chart.axes.base
    {
      chart.Valid() && (clearButton ==> originalDomain.Some?)
    }

    /** The zoom state: the x domain, the cached original and the button. */
    function ZoomState(): Zoom.State<seq<real>>
      reads this, chart.axes
    {
      Zoom.State(chart.axes.xDomain, originalDomain, clearButton)
    }

    constructor(widthAttribute: Option<real>, heightAttribute: Option<real>)
      ensures Valid() && fresh(chart) && fresh(chart.axes) && fresh(chart.axes.base)
      ensures ZoomState() == Zoom.State(Axes.UnitDomain, None, false)
    {
      chart := new HistogramChartV1.HistogramChart(widthAttribute, heightAttribute);
      originalDomain, clearButton := None, false;
    }

    /**
     * `updateScaleDomain(newDomain)`: set the x domain, then throw at the
     * call of `drawAxes` (`ok` false) before redrawing the histogram; nothing
     * else changes.
     */
    method UpdateScaleDomain(newDomain: seq<real>) returns (ok: bool)
      requires Valid()
      modifies chart.axes
      ensures Valid() && !ok
      ensures chart.axes.xDomain == newDomain && chart.axes.yDomain == old(chart.axes.yDomain)
      ensures chart.axes.zDomain == old(chart.axes.zDomain)
      ensures chart.axes.plotables == old(chart.axes.plotables) && chart.axes.layers == old(chart.axes.layers)
      ensures chart.axes.LabelState() == old(chart.axes.LabelState())
      ensures chart.axes.originalDomains == old(chart.axes.originalDomains)
      ensures chart.axes.clearButton == old(chart.axes.clearButton)
    {
      chart.axes.UpdateScaleDomain(newDomain, chart.axes.yDomain);
      ok := false;
    }

    /**
     * The `brushend` handler, given the brush extent (`None` for an empty
     * brush): an empty brush returns normally; otherwise the zoom step's
     * state is reached and `updateScaleDomain` throws (`ok` false).
     */
    method BrushEnd(brush: Option<(real, real)>) returns (ok: bool)
      requires Valid()
      modifies this, chart.axes
      ensures Valid()
      ensures ok <==> brush.None?
      ensures ZoomState() == Zoom.BrushEnd(old(ZoomState()), BrushDomain(brush))
      ensures chart.axes.yDomain == old(chart.axes.yDomain) && chart.data == old(chart.data)
      ensures chart.axes.plotables == old(chart.axes.plotables) && chart.axes.layers == old(chart.axes.layers)
      ensures chart.axes.LabelState() == old(chart.axes.LabelState())
      ensures chart.axes.originalDomains == old(chart.axes.originalDomains)
      ensures chart.axes.clearButton == old(chart.axes.clearButton)
    {
      if brush.None? {
        return true;
      }
      if !clearButton {
        originalDomain := Some(chart.axes.xDomain);
        clearButton := true;
      }
      ok := UpdateScaleDomain([brush.value.0, brush.value.1]);
    }

    /**
     * A click on "Clear zoom": restore the cached x domain; the throw in
     * `updateScaleDomain` (`ok` false) comes before the button's removal.
     */
    method ClearZoom() returns (ok: bool)
      requires Valid() && clearButton
      modifies chart.axes
      ensures Valid() && !ok
      ensures ZoomState() == ClearAsWritten(old(ZoomState()))
      ensures chart.axes.yDomain == old(chart.axes.yDomain) && chart.data == old(chart.data)
      ensures chart.axes.plotables == old(chart.axes.plotables) && chart.axes.layers == old(chart.axes.layers)
      ensures chart.axes.LabelState() == old(chart.axes.LabelState())
      ensures chart.axes.originalDomains == old(chart.axes.originalDomains)
      ensures chart.axes.clearButton == old(chart.axes.clearButton)
    {
      ok := UpdateScaleDomain(originalDomain.value);
    }
  }
}
