/**
 * `AxesChart` as the older source revision writes it: the same registry,
 * domains, labels and brush zoom as the bundled chart, but every plotable
 * must also have an `axes` accessor, through which the chart hands itself to
 * the plotable; there are no ornaments and no configuration, the SI tick
 * formatters are always installed, drawing changes no state, and the z
 * stops are computed differently.
 */
module AxesV1 {
  import opened Wrappers
  import opened Extent
  import opened Utilities
  import opened AxisLabel
  import Zoom
  import Base
  import Axes

  /**
   * A plotable as this chart sees it: which of `draw` and `axes` it has, its
   * `name`, what its domain methods return (`None` when undefined), and the
   * chart its `axes` accessor holds.
   */
  datatype Plotable = Plotable(
    name: Option<string>,
    hasDraw: bool,
    hasAxes: bool,
    xDomain: Option<Values>,
    yDomain: Option<Values>,
    zDomain: Option<Values>,
    axes: Option<object>)

  /** The capability check of `addPlotable`: `draw`, `name`, `axes`, `xDomain` and `yDomain`. */
  predicate Accepts(p: Plotable) {
    p.hasDraw && p.name.Some? && p.hasAxes && p.xDomain.Some? && p.yDomain.Some?
  }

  function XValues(m: map<string, Plotable>): (r: map<string, Values>)
    requires forall n :: n in m ==> Accepts(m[n])
    ensures r.Keys == m.Keys
    ensures forall n :: n in r ==> Accepts(m[n]) && r[n] == m[n].xDomain.value
  {
    map n | n in m :: assert Accepts(m[n]); m[n].xDomain.value
  }

  function YValues(m: map<string, Plotable>): (r: map<string, Values>)
    requires forall n :: n in m ==> Accepts(m[n])
    ensures r.Keys == m.Keys
    ensures forall n :: n in r ==> Accepts(m[n]) && r[n] == m[n].yDomain.value
  {
    map n | n in m :: assert Accepts(m[n]); m[n].yDomain.value
  }

  /** The z-domain arrays of the plotables that define `zDomain`. */
  function ZValues(m: map<string, Plotable>): (r: map<string, Values>)
    ensures forall n :: n in r <==> n in m && m[n].zDomain.Some?
    ensures forall n :: n in r ==> r[n] == m[n].zDomain.value
  {
    map n | n in m && m[n].zDomain.Some? :: m[n].zDomain.value
  }

  /** The z domain this revision sets: the z extent, with half its upper end in the middle. */
  ghost function ZDomainOf(m: map<string, Plotable>): (r: seq<real>)
    ensures |r| == 3 && r[0] == DomainOf(ZValues(m))[0] && r[2] == DomainOf(ZValues(m))[1]
    ensures 2.0 * r[1] == r[2]
  {
    var z := DomainOf(ZValues(m));
    HalvedTopStops(z[0], z[1])
  }

  /** The three domain scans of `setDomain`, over a registry. */
  method ScanAll(m: map<string, Plotable>) returns (x: seq<real>, y: seq<real>, z: seq<real>)
    requires forall n :: n in m ==> Accepts(m[n])
    ensures x == DomainOf(XValues(m)) && y == DomainOf(YValues(m)) && z == ZDomainOf(m)
  {
    x := ScanDomain(XValues(m));
    y := ScanDomain(YValues(m));
    var extent := ScanDomain(ZValues(m));
    z := HalvedTopStops(extent[0], extent[1]);
  }

  class AxesChart {
    const base: Base.BaseChart

    var xLabel: string
    var yLabel: string
    var xExponent: Magnitude
    var yExponent: Magnitude
    /** The text shown in the axis-label elements. */
    var xLabelText: string
    var yLabelText: string

    var plotables: map<string, Plotable>
    /** The names that own a layer. */
    var layers: set<string>

    var xDomain: seq<real>
    var yDomain: seq<real>
    var zDomain: seq<real>

    var originalDomains: Option<Axes.Domains>
    var clearButton: bool

    /**
     * Every stored plotable passed the capability check, sits under its own
     * name with a layer, and holds this chart as its axes; the button has a
     * domain to restore.
     */
    ghost predicate Valid()
      reads this, base
    {
      base.Valid()
      && base.margins == Base.DefaultMargins
      && layers == plotables.Keys
      && (forall n :: n in plotables ==>
            Accepts(plotables[n]) && plotables[n].name == Some(n) && plotables[n].axes == Some(this as object))
      && (clearButton ==> originalDomains.Some?)
    }

    function ZoomState(): Zoom.State<Axes.Domains>
      reads this
    {
      Zoom.State((xDomain, yDomain), originalDomains, clearButton)
    }

    function LabelState(): Axes.Labels
      reads this
    {
      Axes.Labels(xLabel, yLabel, xExponent, yExponent, xLabelText, yLabelText)
    }

    /** `initialize`, given the container's size attributes. */
    constructor(widthAttribute: Option<real>, heightAttribute: Option<real>)
      ensures Valid() && fresh(base)
      ensures base.width == Base.InitialSize(widthAttribute, Base.DefaultMargins.left, Base.DefaultMargins.right)
      ensures base.height == Base.InitialSize(heightAttribute, Base.DefaultMargins.top, Base.DefaultMargins.bottom)
      ensures LabelState() == Axes.Labels("", "", Finite(0), Finite(0), "", "")
      ensures plotables == map[] && layers == {}
      ensures xDomain == Axes.UnitDomain && yDomain == Axes.UnitDomain && zDomain == Axes.UnitDomain
      ensures !clearButton && originalDomains.None?
    {
      base := new Base.BaseChart(widthAttribute, heightAttribute);
      xLabel, yLabel := "", "";
      xExponent, yExponent := Finite(0), Finite(0);
      xLabelText, yLabelText := "", "";
      plotables, layers := map[], {};
      // the z scale keeps d3's default domain until `setDomain` runs
      xDomain, yDomain, zDomain := Axes.UnitDomain, Axes.UnitDomain, Axes.UnitDomain;
      originalDomains, clearButton := None, false;
    }

    /**
     * `setDomain`: the x and y domains become [least, greatest] over every
     * value the plotables' domain methods return, [0, 1] with no plotables;
     * the z domain is the extent over the plotables defining `zDomain`, with
     * half its upper end as the middle stop.
     */
    method SetDomain()
      requires Valid()
      modifies this
      ensures Valid()
      ensures xDomain == DomainOf(XValues(plotables)) && yDomain == DomainOf(YValues(plotables))
      ensures zDomain == ZDomainOf(plotables)
      ensures plotables == old(plotables) && layers == old(layers)
      ensures originalDomains == old(originalDomains) && clearButton == old(clearButton)
      ensures LabelState() == old(LabelState())
    {
      var x, y, z := ScanAll(plotables);
      xDomain, yDomain, zDomain := x, y, z;
    }

    /**
     * `addPlotable`: an object lacking `draw`, `name`, `axes`, `xDomain` or
     * `yDomain` is refused and nothing changes; otherwise it is given this
     * chart as its axes, stored under its name (replacing a plotable of that
     * name) with a layer, and the domains are recomputed.
     */
    method AddPlotable(p: Plotable) returns (added: bool)
      requires Valid()
      modifies this
      ensures Valid()
      ensures added <==> Accepts(p)
      ensures !added ==> unchanged(this)
      ensures added ==>
        plotables == old(plotables)[p.name.value := p.(axes := Some(this as object))]
        && layers == old(layers) + {p.name.value}
        && xDomain == DomainOf(XValues(plotables)) && yDomain == DomainOf(YValues(plotables))
        && zDomain == ZDomainOf(plotables)
        && originalDomains == old(originalDomains) && clearButton == old(clearButton)
        && LabelState() == old(LabelState())
    {
      if !Accepts(p) {
        return false;
      }
      var name := p.name.value;
      plotables := plotables[name := p.(axes := Some(this as object))];
      layers := layers + {name};
      SetDomain();
      return true;
    }

    /**
     * `removePlotable`: throws a TypeError (`ok` false, nothing changes) when
     * no layer has that name; otherwise deletes the name from the plotables
     * and the layers and recomputes the domains.
     */
    method RemovePlotable(name: string) returns (ok: bool)
      requires Valid()
      modifies this
      ensures Valid()
      ensures ok <==> name in old(layers)
      ensures !ok ==> unchanged(this)
      ensures ok ==>
        plotables == old(plotables) - {name} && layers == old(layers) - {name}
        && xDomain == DomainOf(XValues(plotables)) && yDomain == DomainOf(YValues(plotables))
        && zDomain == ZDomainOf(plotables)
        && originalDomains == old(originalDomains) && clearButton == old(clearButton)
        && LabelState() == old(LabelState())
    {
      if name !in layers {
        return false;
      }
      plotables := plotables - {name};
      layers := layers - {name};
      SetDomain();
      return true;
    }

    /** `xAxisLabel(newLabel)`: store the label and show it with the current exponent. */
    method SetXAxisLabel(newLabel: string)
      modifies this
      ensures LabelState() == old(LabelState()).(xLabel := newLabel, xText := LabelText(newLabel, xExponent))
      ensures plotables == old(plotables) && layers == old(layers) && zDomain == old(zDomain)
      ensures ZoomState() == old(ZoomState())
    {
      xLabel := newLabel;
      xLabelText := LabelText(newLabel, xExponent);
    }

    /** `yAxisLabel(newLabel)`. */
    method SetYAxisLabel(newLabel: string)
      modifies this
      ensures LabelState() == old(LabelState()).(yLabel := newLabel, yText := LabelText(newLabel, yExponent))
      ensures plotables == old(plotables) && layers == old(layers) && zDomain == old(zDomain)
      ensures ZoomState() == old(ZoomState())
    {
      yLabel := newLabel;
      yLabelText := LabelText(newLabel, yExponent);
    }

    /**
     * One call of the x-axis tick formatter, given the ticks the x scale
     * generates: the callback records the exponent and re-shows the label,
     * then the tick's text is returned (`None` when `toFixed` throws).
     */
    method FormatXTick(ticks: seq<real>, value: real) returns (text: Option<Rendering>)
      modifies this
      ensures xExponent == TicksExponent(ticks)
      ensures LabelState() == old(LabelState()).(xExponent := xExponent, xText := LabelText(xLabel, xExponent))
      ensures text == FormatTick(ticks, value, true).text
      ensures plotables == old(plotables) && layers == old(layers) && zDomain == old(zDomain)
      ensures ZoomState() == old(ZoomState())
    {
      var call := FormatTick(ticks, value, true);
      xExponent := call.reported.value;
      SetXAxisLabel(xLabel);
      text := call.text;
    }

    /** The y-axis tick formatter. */
    method FormatYTick(ticks: seq<real>, value: real) returns (text: Option<Rendering>)
      modifies this
      ensures yExponent == TicksExponent(ticks)
      ensures LabelState() == old(LabelState()).(yExponent := yExponent, yText := LabelText(yLabel, yExponent))
      ensures text == FormatTick(ticks, value, true).text
      ensures plotables == old(plotables) && layers == old(layers) && zDomain == old(zDomain)
      ensures ZoomState() == old(ZoomState())
    {
      var call := FormatTick(ticks, value, true);
      yExponent := call.reported.value;
      SetYAxisLabel(yLabel);
      text := call.text;
    }

    /** `updateScaleDomain`: set both domains (and draw). */
    method UpdateScaleDomain(newX: seq<real>, newY: seq<real>)
      requires Valid()
      modifies this
      ensures Valid()
      ensures xDomain == newX && yDomain == newY
      ensures originalDomains == old(originalDomains) && clearButton == old(clearButton)
      ensures plotables == old(plotables) && layers == old(layers) && zDomain == old(zDomain)
      ensures LabelState() == old(LabelState())
    {
      xDomain, yDomain := newX, newY;
    }

    /** `zScale.domain(newZ)`, as the two-dimensional charts call it. */
    method SetZDomain(newZ: seq<real>)
      requires Valid()
      modifies this
      ensures Valid()
      ensures zDomain == newZ && xDomain == old(xDomain) && yDomain == old(yDomain)
      ensures originalDomains == old(originalDomains) && clearButton == old(clearButton)
      ensures plotables == old(plotables) && layers == old(layers)
      ensures LabelState() == old(LabelState())
    {
      zDomain := newZ;
    }

    /** The `brushend` handler, given the brush extent (`None` for an empty brush). */
    method BrushEnd(brush: Option<Axes.Brush>)
      requires Valid()
      modifies this
      ensures Valid()
      ensures ZoomState() == Zoom.BrushEnd(old(ZoomState()), Axes.BrushDomains(brush))
      ensures plotables == old(plotables) && layers == old(layers) && zDomain == old(zDomain)
      ensures LabelState() == old(LabelState())
    {
      if brush.None? {
        return;
      }
      if !clearButton {
        originalDomains := Some((xDomain, yDomain));
        clearButton := true;
      }
      var b := brush.value;
      UpdateScaleDomain([b.x0, b.x1], [b.y0, b.y1]);
    }

    /** A click on "Clear zoom": restore the cached domains and remove the button. */
    method ClearZoom()
      requires Valid() && clearButton
      modifies this
      ensures Valid()
      ensures ZoomState() == Zoom.Clear(old(ZoomState()))
      ensures plotables == old(plotables) && layers == old(layers) && zDomain == old(zDomain)
      ensures LabelState() == old(LabelState())
    {
      UpdateScaleDomain(originalDomains.value.0, originalDomains.value.1);
      clearButton := false;
    }
  }
}
