/**
 * `AxesChart` as built into the distributed bundle: a chart with x, y and
 * (optionally) z axes, a registry of plotables and ornaments keyed by name,
 * scale domains computed from the plotables, axis labels carrying the SI
 * exponent of the ticks, brush zooming with a "Clear zoom" button, and a
 * one-off widening of the right margin for the colour scale.
 *
 * A plotable or ornament is represented by which of its properties are
 * defined and by what its domain methods return.
 */
module Axes {
  import opened Wrappers
  import opened Extent
  import opened Utilities
  import opened AxisLabel
  import Zoom
  import Base

  /**
   * A plotable as the chart sees it: its `name`, whether it has a `draw`
   * method, and the arrays its `xDomain`, `yDomain` and `zDomain` methods
   * return (`None` when the method is not defined).
   */
  datatype Plotable = Plotable(
    name: Option<string>,
    hasDraw: bool,
    xDomain: Option<Values>,
    yDomain: Option<Values>,
    zDomain: Option<Values>)

  /** The capability check of `addPlotable`: `draw`, `name`, `xDomain` and `yDomain` are defined. */
  predicate Accepts(p: Plotable) {
    p.hasDraw && p.name.Some? && p.xDomain.Some? && p.yDomain.Some?
  }

  /** The capability check of `addOrnament`: only `draw` and `name` are needed. */
  predicate AcceptsOrnament(p: Plotable) {
    p.hasDraw && p.name.Some?
  }

  datatype ScaleKind = Linear | Log | Time

  const LinearScale: string := "linear"
  const LogScale: string := "log"
  const TimeScale: string := "time"

  /** The configuration object; a missing key is `None`. */
  datatype Config = Config(
    xScale: Option<string>,
    yScale: Option<string>,
    zScale: Option<string>,
    xFormatExponent: Option<bool>,
    yFormatExponent: Option<bool>)

  function Setting(s: Option<string>): string {
    if s.Some? then s.value else LinearScale
  }

  /** The scale built for a setting: log or time when asked for (time only on x), else linear. */
  function ScaleFor(setting: string, timeAllowed: bool): (k: ScaleKind)
    ensures k == Log <==> setting == LogScale
    ensures k == Time <==> timeAllowed && setting == TimeScale
  {
    if timeAllowed && setting == TimeScale then Time
    else if setting == LogScale then Log
    else Linear
  }

  /** Whether the SI tick formatter is installed: a linear scale whose exponent formatting is on (default on). */
  function FormatsExponent(scale: Option<string>, flag: Option<bool>): bool {
    Setting(scale) == LinearScale && (flag.None? || flag.value)
  }

  /** The x-domain arrays of the registered plotables, by name. */
  function XValues(m: map<string, Plotable>): (r: map<string, Values>)
    requires forall n :: n in m ==> Accepts(m[n])
    ensures r.Keys == m.Keys
    ensures forall n :: n in r ==> Accepts(m[n]) && r[n] == m[n].xDomain.value
  {
    map n | n in m :: assert Accepts(m[n]); m[n].xDomain.value
  }

  function YValues(m: map<string, Plotable>): (r: map<string, Values>)
    requires forall n :: n in m ==> Accepts(m[n])
    ensures r.Keys == m.Keys
    ensures forall n :: n in r ==> Accepts(m[n]) && r[n] == m[n].yDomain.value
  {
    map n | n in m :: assert Accepts(m[n]); m[n].yDomain.value
  }

  /** The z-domain arrays of the plotables that define `zDomain`. */
  function ZValues(m: map<string, Plotable>): (r: map<string, Values>)
    ensures forall n :: n in r <==> n in m && m[n].zDomain.Some?
    ensures forall n :: n in r ==> r[n] == m[n].zDomain.value
  {
    map n | n in m && m[n].zDomain.Some? :: m[n].zDomain.value
  }

  /** Whether some plotable defines a z domain. */
  predicate HasZ(m: map<string, Plotable>) {
    exists n :: n in m && m[n].zDomain.Some?
  }

  /** A non-empty brush extent, `[[x0, y0], [x1, y1]]`. */
  datatype Brush = Brush(x0: real, y0: real, x1: real, y1: real)

  /** The x- and y-domains a zoom sets. */
  type Domains = (seq<real>, seq<real>)

  function BrushDomains(b: Option<Brush>): (d: Option<Domains>)
    ensures d.Some? <==> b.Some?
    ensures b.Some? ==> d.value.0 == [b.value.x0, b.value.x1] && d.value.1 == [b.value.y0, b.value.y1]
  {
    match b
    case None => None
    case Some(Brush(x0, y0, x1, y1)) => Some(([x0, x1], [y0, y1]))
  }

  /** Pixels taken from the plot width for the colour scale. */
  const ZScaleRoom: real := 70.0

  /** The margins for a chart with or without the colour scale. */
  function MarginsFor(hasZScale: bool): Base.Margins {
    Base.DefaultMargins.(right := Base.DefaultMargins.right + if hasZScale then ZScaleRoom else 0.0)
  }

  const UnitDomain: seq<real> := [0.0, 1.0]

  /** The label state: the labels, the exponents last reported, the shown texts. */
  datatype Labels = Labels(
    xLabel: string, yLabel: string,
    xExponent: Magnitude, yExponent: Magnitude,
    xText: string, yText: string)

  class AxesChart {
    const base: Base.BaseChart

    /** The scale kinds and the formatter choice are fixed by the configuration. */
    const xScale: ScaleKind
    const yScale: ScaleKind
    const zScale: ScaleKind
    /** Whether the SI tick formatters are installed on the x and y axes. */
    const formatsX: bool
    const formatsY: bool
    var animate: bool

    var xLabel: string
    var yLabel: string
    /** The exponents last reported by the tick formatters. */
    var xExponent: Magnitude
    var yExponent: Magnitude
    /** The text shown in the axis-label elements. */
    var xLabelText: string
    var yLabelText: string

    var plotables: map<string, Plotable>
    var ornaments: map<string, Plotable>
    /** The names that own a layer. */
    var layers: set<string>

    /** The scale domains. */
    var xDomain: seq<real>
    var yDomain: seq<real>
    var zDomain: seq<real>

    /** The domains cached by the first zoom (`originalDomain` on the scales). */
    var originalDomains: Option<Domains>
    /** Whether the "Clear zoom" button exists. */
    var clearButton: bool
    var hasZScale: bool

    /** Everything but the size state and the colour-scale flag. */
    ghost predicate Registered()
      reads this, base
    {
      base.Valid()
      && base.margins == MarginsFor(hasZScale)
      && (forall n :: n in plotables ==> Accepts(plotables[n]) && plotables[n].name == Some(n))
      && (forall n :: n in ornaments ==> AcceptsOrnament(ornaments[n]) && ornaments[n].name == Some(n))
      && (clearButton ==> originalDomains.Some?)
    }

    /** Between calls, a chart showing z data has made room for its colour scale. */
    ghost predicate Valid()
      reads this, base
    {
      Registered() && (HasZ(plotables) ==> hasZScale)
    }

    /** The zoom state: the x/y domains, the cached originals and the button. */
    function ZoomState(): Zoom.State<Domains>
      reads this
    {
      Zoom.State((xDomain, yDomain), originalDomains, clearButton)
    }

    function LabelState(): Labels
      reads this
    {
      Labels(xLabel, yLabel, xExponent, yExponent, xLabelText, yLabelText)
    }

    /** `initialize`, given the container's size attributes and the configuration. */
    constructor(widthAttribute: Option<real>, heightAttribute: Option<real>, config: Config)
      ensures Valid() && fresh(base)
      ensures base.width == Base.InitialSize(widthAttribute, Base.DefaultMargins.left, Base.DefaultMargins.right)
      ensures base.height == Base.InitialSize(heightAttribute, Base.DefaultMargins.top, Base.DefaultMargins.bottom)
      ensures xScale == ScaleFor(Setting(config.xScale), true)
      ensures yScale == ScaleFor(Setting(config.yScale), false)
      ensures zScale == ScaleFor(Setting(config.zScale), false)
      ensures formatsX == FormatsExponent(config.xScale, config.xFormatExponent)
      ensures formatsY == FormatsExponent(config.yScale, config.yFormatExponent)
      ensures animate && !hasZScale && !clearButton && originalDomains.None?
      ensures xLabel == "" && yLabel == "" && xExponent == Finite(0) && yExponent == Finite(0)
      ensures plotables == map[] && ornaments == map[] && layers == {}
      ensures xDomain == UnitDomain && yDomain == UnitDomain && zDomain == UnitDomain
    {
      base := new Base.BaseChart(widthAttribute, heightAttribute);
      xScale := ScaleFor(Setting(config.xScale), true);
      yScale := ScaleFor(Setting(config.yScale), false);
      zScale := ScaleFor(Setting(config.zScale), false);
      formatsX := FormatsExponent(config.xScale, config.xFormatExponent);
      formatsY := FormatsExponent(config.yScale, config.yFormatExponent);
      animate := true;
      xLabel, yLabel := "", "";
      xExponent, yExponent := Finite(0), Finite(0);
      xLabelText, yLabelText := "", "";
      plotables, ornaments, layers := map[], map[], {};
      // the z scale keeps d3's default domain until `setDomain` runs
      xDomain, yDomain, zDomain := UnitDomain, UnitDomain, UnitDomain;
      originalDomains, clearButton, hasZScale := None, false, false;
    }

    /**
     * `draw`, as far as it changes state: the first time a plotable with a z
     * domain is drawn, the right margin grows by 70px and the plot width
     * shrinks by as much, so the container keeps its width. The resulting
     * `change:width` handler draws again, which changes nothing further.
     */
    method Draw()
      requires Registered()
      modifies this, base
      ensures Valid()
      ensures hasZScale == (old(hasZScale) || HasZ(plotables))
      ensures old(hasZScale) || !HasZ(plotables) ==> unchanged(base)
      ensures !old(hasZScale) && HasZ(plotables) ==>
        base.width == old(base.width) - ZScaleRoom
        && base.events == old(base.events) + [Base.WidthChanged(old(base.width) - ZScaleRoom, old(base.width))]
        && base.containerWidth == old(base.containerWidth)
        && base.height == old(base.height) && base.containerHeight == old(base.containerHeight)
      ensures plotables == old(plotables) && ornaments == old(ornaments) && layers == old(layers)
      ensures xDomain == old(xDomain) && yDomain == old(yDomain) && zDomain == old(zDomain)
      ensures ZoomState() == old(ZoomState())
      ensures xLabelText == old(xLabelText) && yLabelText == old(yLabelText)
      ensures xLabel == old(xLabel) && yLabel == old(yLabel)
      ensures xExponent == old(xExponent) && yExponent == old(yExponent)
      ensures animate == old(animate)
    {
      if HasZ(plotables) && !hasZScale {
        hasZScale := true;
        base.SetRightMargin(base.margins.right + ZScaleRoom);
        base.SetWidth(base.width - ZScaleRoom);
      }
    }

    /**
     * `setDomain`: each of the x and y domains becomes [least, greatest] over
     * every value the plotables' domain methods return, or [0, 1] with no
     * plotables; the z domain is the same extent over the plotables that
     * define `zDomain`, spread over three colour stops whose middle one is
     * half the extent's width.
     */
    method SetDomain()
      requires Registered()
      modifies this
      ensures Registered()
      ensures xDomain == DomainOf(XValues(plotables))
      ensures yDomain == DomainOf(YValues(plotables))
      ensures zDomain == ZDomainOf(plotables)
      ensures plotables == old(plotables) && ornaments == old(ornaments) && layers == old(layers)
      ensures originalDomains == old(originalDomains) && clearButton == old(clearButton)
      ensures hasZScale == old(hasZScale)
      ensures xLabelText == old(xLabelText) && yLabelText == old(yLabelText)
      ensures xLabel == old(xLabel) && yLabel == old(yLabel)
      ensures xExponent == old(xExponent) && yExponent == old(yExponent)
      ensures animate == old(animate)
    {
      var x, y, stops := ScanAll(plotables);
      xDomain, yDomain, zDomain := x, y, stops;
    }

    /**
     * `addPlotable`: an object lacking `draw`, `name`, `xDomain` or `yDomain`
     * is refused and nothing changes; otherwise it is stored under its name
     * (replacing a plotable of that name), given a layer, and the domains are
     * recomputed before the chart is drawn.
     */
    method AddPlotable(p: Plotable) returns (added: bool)
      requires Valid()
      modifies this, base
      ensures Valid()
      ensures added <==> Accepts(p)
      ensures !added ==> unchanged(this) && unchanged(base)
      ensures added ==>
        plotables == old(plotables)[p.name.value := p]
        && layers == old(layers) + {p.name.value}
        && ornaments == old(ornaments)
        && xDomain == DomainOf(XValues(plotables))
        && yDomain == DomainOf(YValues(plotables))
        && zDomain == ZDomainOf(plotables)
        && originalDomains == old(originalDomains) && clearButton == old(clearButton)
        && hasZScale == (old(hasZScale) || p.zDomain.Some?)
        && LabelState() == old(LabelState())
        && animate == old(animate)
      ensures added && (old(hasZScale) || p.zDomain.None?) ==> unchanged(base)
      ensures added && !old(hasZScale) && p.zDomain.Some? ==>
        base.width == old(base.width) - ZScaleRoom
        && base.events == old(base.events) + [Base.WidthChanged(old(base.width) - ZScaleRoom, old(base.width))]
        && base.containerWidth == old(base.containerWidth)
        && base.height == old(base.height) && base.containerHeight == old(base.containerHeight)
    {
      if !Accepts(p) {
        return false;
      }
      var name := p.name.value;
      plotables := plotables[name := p];
      layers := layers + {name};
      SetDomain();
      HasZUpdate(old(plotables), name, p);
      Draw();
      return true;
    }

    /**
     * `removePlotable`: throws a TypeError (`ok` false, nothing changes) when
     * no layer has that name; otherwise deletes the name from the plotables
     * and the layers, recomputes the domains and draws.
     */
    method RemovePlotable(name: string) returns (ok: bool)
      requires Valid()
      modifies this, base
      ensures Valid()
      ensures ok <==> name in old(layers)
      ensures !ok ==> unchanged(this) && unchanged(base)
      ensures ok ==>
        plotables == old(plotables) - {name}
        && layers == old(layers) - {name}
        && ornaments == old(ornaments)
        && xDomain == DomainOf(XValues(plotables))
        && yDomain == DomainOf(YValues(plotables))
        && zDomain == ZDomainOf(plotables)
        && originalDomains == old(originalDomains) && clearButton == old(clearButton)
        && hasZScale == old(hasZScale) && unchanged(base)
        && LabelState() == old(LabelState())
        && animate == old(animate)
    {
      if name !in layers {
        return false;
      }
      plotables := plotables - {name};
      layers := layers - {name};
      SetDomain();
      HasZShrink(old(plotables), name);
      Draw();
      return true;
    }

    /**
     * `addOrnament`: needs only `draw` and `name`; the ornament gets a layer but
     * is kept apart from the plotables, so no domain changes.
     */
    method AddOrnament(o: Plotable) returns (added: bool)
      requires Valid()
      modifies this
      ensures Valid()
      ensures added <==> AcceptsOrnament(o)
      ensures !added ==> unchanged(this)
      ensures added ==> ornaments == old(ornaments)[o.name.value := o] && layers == old(layers) + {o.name.value}
      ensures plotables == old(plotables)
      ensures xDomain == old(xDomain) && yDomain == old(yDomain) && zDomain == old(zDomain)
      ensures ZoomState() == old(ZoomState()) && hasZScale == old(hasZScale)
      ensures LabelState() == old(LabelState()) && animate == old(animate)
    {
      if !AcceptsOrnament(o) {
        return false;
      }
      ornaments := ornaments[o.name.value := o];
      layers := layers + {o.name.value};
      return true;
    }

    /** `removeOrnament`: a TypeError when no layer has that name; else deletes the name. */
    method RemoveOrnament(name: string) returns (ok: bool)
      requires Valid()
      modifies this
      ensures Valid()
      ensures ok <==> name in old(layers)
      ensures !ok ==> unchanged(this)
      ensures ok ==> ornaments == old(ornaments) - {name} && layers == old(layers) - {name}
      ensures plotables == old(plotables)
      ensures xDomain == old(xDomain) && yDomain == old(yDomain) && zDomain == old(zDomain)
      ensures ZoomState() == old(ZoomState()) && hasZScale == old(hasZScale)
      ensures LabelState() == old(LabelState()) && animate == old(animate)
    {
      if name !in layers {
        return false;
      }
      ornaments := ornaments - {name};
      layers := layers - {name};
      return true;
    }

    /** `xAxisLabel(newLabel)`: store the label and show it with the current exponent. */
    method SetXAxisLabel(newLabel: string)
      modifies this
      ensures xLabel == newLabel && xLabelText == LabelText(newLabel, xExponent)
      ensures xExponent == old(xExponent) && yLabel == old(yLabel) && yLabelText == old(yLabelText)
      ensures yExponent == old(yExponent)
      ensures plotables == old(plotables) && ornaments == old(ornaments) && layers == old(layers)
      ensures xDomain == old(xDomain) && yDomain == old(yDomain) && zDomain == old(zDomain)
      ensures ZoomState() == old(ZoomState()) && hasZScale == old(hasZScale)
      ensures animate == old(animate)
    {
      xLabel := newLabel;
      xLabelText := LabelText(newLabel, xExponent);
    }

    /** `yAxisLabel(newLabel)`. */
    method SetYAxisLabel(newLabel: string)
      modifies this
      ensures yLabel == newLabel && yLabelText == LabelText(newLabel, yExponent)
      ensures yExponent == old(yExponent) && xLabel == old(xLabel) && xLabelText == old(xLabelText)
      ensures xExponent == old(xExponent)
      ensures plotables == old(plotables) && ornaments == old(ornaments) && layers == old(layers)
      ensures xDomain == old(xDomain) && yDomain == old(yDomain) && zDomain == old(zDomain)
      ensures ZoomState() == old(ZoomState()) && hasZScale == old(hasZScale)
      ensures animate == old(animate)
    {
      yLabel := newLabel;
      yLabelText := LabelText(newLabel, yExponent);
    }

    /** `animate(newAnimate)`. */
    method SetAnimate(newAnimate: bool)
      modifies this
      ensures animate == newAnimate && (Valid() <==> old(Valid()))
      ensures plotables == old(plotables) && ornaments == old(ornaments) && layers == old(layers)
      ensures xDomain == old(xDomain) && yDomain == old(yDomain) && zDomain == old(zDomain)
      ensures ZoomState() == old(ZoomState()) && hasZScale == old(hasZScale)
      ensures LabelState() == old(LabelState())
    {
      animate := newAnimate;
      assert plotables == old(plotables) && ornaments == old(ornaments) && hasZScale == old(hasZScale);
      assert Registered() == old(Registered());
    }

    /**
     * One call of the installed x-axis tick formatter, given the ticks the x
     * scale generates: its callback records the exponent and re-shows the
     * label, then the tick's text is returned (`None` when `toFixed` throws).
     */
    method FormatXTick(ticks: seq<real>, value: real) returns (text: Option<Rendering>)
      requires formatsX
      modifies this
      ensures xExponent == TicksExponent(ticks)
      ensures xLabel == old(xLabel) && xLabelText == LabelText(xLabel, xExponent)
      ensures text == FormatTick(ticks, value, true).text
      ensures LabelState() == old(LabelState()).(xExponent := xExponent, xText := LabelText(xLabel, xExponent))
      ensures Valid() <==> old(Valid())
      ensures plotables == old(plotables) && ornaments == old(ornaments) && layers == old(layers)
      ensures xDomain == old(xDomain) && yDomain == old(yDomain) && zDomain == old(zDomain)
      ensures ZoomState() == old(ZoomState()) && hasZScale == old(hasZScale)
      ensures animate == old(animate)
    {
      var call := FormatTick(ticks, value, true);
      xExponent := call.reported.value;
      SetXAxisLabel(xLabel);
      text := call.text;
    }

    /** The y-axis tick formatter. */
    method FormatYTick(ticks: seq<real>, value: real) returns (text: Option<Rendering>)
      requires formatsY
      modifies this
      ensures yExponent == TicksExponent(ticks)
      ensures yLabel == old(yLabel) && yLabelText == LabelText(yLabel, yExponent)
      ensures text == FormatTick(ticks, value, true).text
      ensures LabelState() == old(LabelState()).(yExponent := yExponent, yText := LabelText(yLabel, yExponent))
      ensures Valid() <==> old(Valid())
      ensures plotables == old(plotables) && ornaments == old(ornaments) && layers == old(layers)
      ensures xDomain == old(xDomain) && yDomain == old(yDomain) && zDomain == old(zDomain)
      ensures ZoomState() == old(ZoomState()) && hasZScale == old(hasZScale)
      ensures animate == old(animate)
    {
      var call := FormatTick(ticks, value, true);
      yExponent := call.reported.value;
      SetYAxisLabel(yLabel);
      text := call.text;
    }

    /** `updateScaleDomain`: set both domains and draw. */
    method UpdateScaleDomain(newX: seq<real>, newY: seq<real>)
      requires Valid()
      modifies this, base
      ensures Valid() && unchanged(base)
      ensures xDomain == newX && yDomain == newY
      ensures originalDomains == old(originalDomains) && clearButton == old(clearButton)
      ensures plotables == old(plotables) && ornaments == old(ornaments) && layers == old(layers)
      ensures zDomain == old(zDomain) && hasZScale == old(hasZScale)
      ensures LabelState() == old(LabelState()) && animate == old(animate)
    {
      xDomain, yDomain := newX, newY;
      Draw();
    }

    /**
     * The `brushend` handler, given the brush extent (`None` for an empty
     * brush): the zoom state machine's step.
     */
    method BrushEnd(brush: Option<Brush>)
      requires Valid()
      modifies this, base
      ensures Valid() && unchanged(base)
      ensures ZoomState() == Zoom.BrushEnd(old(ZoomState()), BrushDomains(brush))
      ensures plotables == old(plotables) && ornaments == old(ornaments) && layers == old(layers)
      ensures zDomain == old(zDomain) && hasZScale == old(hasZScale)
      ensures LabelState() == old(LabelState()) && animate == old(animate)
    {
      if brush.None? {
        return;
      }
      if !clearButton {
        originalDomains := Some((xDomain, yDomain));
        clearButton := true;
      }
      var b := brush.value;
      UpdateScaleDomain([b.x0, b.x1], [b.y0, b.y1]);
    }

    /** A click on "Clear zoom": restore the cached domains and remove the button. */
    method ClearZoom()
      requires Valid() && clearButton
      modifies this, base
      ensures Valid() && unchanged(base)
      ensures ZoomState() == Zoom.Clear(old(ZoomState()))
      ensures plotables == old(plotables) && ornaments == old(ornaments) && layers == old(layers)
      ensures zDomain == old(zDomain) && hasZScale == old(hasZScale)
      ensures LabelState() == old(LabelState()) && animate == old(animate)
    {
      UpdateScaleDomain(originalDomains.value.0, originalDomains.value.1);
      clearButton := false;
    }
  }

  /**
   * The z domain `setDomain` derives, as written: the ends of the z extent
   * with half its width, not its midpoint, as the middle stop.
   */
  ghost function ZDomainOf(m: map<string, Plotable>): (r: seq<real>)
    ensures |r| == 3 && r[0] == DomainOf(ZValues(m))[0] && r[2] == DomainOf(ZValues(m))[1]
    ensures r[1] == ZStops(r[0], r[2])[1] - r[0]
  {
    var z := DomainOf(ZValues(m));
    ZStopsAsWritten(z[0], z[1])
  }

  /** The three domain scans of `setDomain`, over a registry. */
  method ScanAll(m: map<string, Plotable>) returns (x: seq<real>, y: seq<real>, z: seq<real>)
    requires forall n :: n in m ==> Accepts(m[n])
    ensures x == DomainOf(XValues(m)) && y == DomainOf(YValues(m)) && z == ZDomainOf(m)
  {
    x := ScanDomain(XValues(m));
    y := ScanDomain(YValues(m));
    var extent := ScanDomain(ZValues(m));
    z := ZStopsAsWritten(extent[0], extent[1]);
  }

  /** Adding a plotable makes a z domain present exactly when it was, or the new one has one. */
  lemma HasZUpdate(m: map<string, Plotable>, name: string, p: Plotable)
    ensures HasZ(m[name := p]) == (HasZ(m - {name}) || p.zDomain.Some?)
    ensures HasZ(m - {name}) ==> HasZ(m)
  {
    var m' := m[name := p];
    if HasZ(m - {name}) {
      var n :| n in m - {name} && (m - {name})[n].zDomain.Some?;
      assert n in m' && m'[n].zDomain.Some?;
      assert n in m && m[n].zDomain.Some?;
    }
    if p.zDomain.Some? {
      assert name in m' && m'[name].zDomain.Some?;
    }
    if HasZ(m') {
      var n :| n in m' && m'[n].zDomain.Some?;
      if n != name {
        assert n in m - {name} && (m - {name})[n].zDomain.Some?;
      }
    }
  }

  /** Removing a plotable never makes a z domain appear. */
  lemma HasZShrink(m: map<string, Plotable>, name: string)
    ensures HasZ(m - {name}) ==> HasZ(m)
  {
    if HasZ(m - {name}) {
      var n :| n in m - {name} && (m - {name})[n].zDomain.Some?;
      assert n in m && m[n].zDomain.Some?;
    }
  }
}
