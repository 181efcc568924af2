# histograms: a Dafny model of the chart arithmetic

The histograms library draws one- and two-dimensional histograms and line charts with d3. Under the rendering calls it does a small amount of arithmetic and bookkeeping. That is what this project models:

- the SI tick-label formatter (`src/d3.chart.utilities.js`):
  - the base-10 exponent of a number;
  - the exponent of a set of ticks, grouped by three;
  - the precision that keeps adjacent labels apart.
- `BaseChart`: inner size, margins, the container size and the change events.
- `AxesChart`:
  - a name-keyed registry of plotables and ornaments, admitted by a capability check;
  - the `setDomain` loop that unions the plotables' extents, with `[0, 1]` when there are none;
  - the axis-label text with its `×1e<exp>` suffix;
  - the brush zoom and "Clear zoom" state machine;
  - the one-off widening of the right margin for the colour scale.
- The plotables: their constructor loops, which normalise the data in place, and their domain formulas.
- The older histogram charts: their `transform` methods, their zoom handlers and the brush-selection predicate.
- The `formatData` reshaping loop of the examples page.

The repository holds three revisions of this code, and each is modelled as written. That includes the three formulas and the undefined method listed under "## Findings"; the corrected formulas are modelled beside them, with their intended properties proved:

| revision | files | Dafny modules |
|---|---|---|
| the concatenated build | `dist/d3.chart.histograms.js` | `Axes`, `HistogramPlot`, `Histogram2DPlot`, `LineChartPlot` |
| the sources it was built from | `src/` | `AxesV1`, `HistogramPlotV1`, `Histogram2DPlotV1`, `HistogramChartV1`, `Histogram2DChartV1`, `HistogramZoomV1` |
| the oldest charts | the repository root | `HistogramChartV0`, `HistogramZoomV0` |

Some modules serve more than one revision:

- `Utilities` and `AxisLabel`: the build copies `src/d3.chart.utilities.js` unchanged.
- `Base`: both revisions of `BaseChart` share the same size logic.
- `LineChartPlot`: the `LineChart` plotable is the same in both revisions.
- `Extent`: `d3.extent` and the registry-wide extent fold.
- `Zoom`: the zoom state machine, shared by every zooming chart.
- `Examples`: `formatData`.

How the model represents the program:

- Numbers are exact reals. The sentinel values JavaScript produces (`-Infinity` for the exponent of zero, NaN, a `RangeError` from `toFixed`) are kept as datatype cases.
- Objects whose fields the code updates in place are classes:
  - `BaseChart`, the axes charts, the histogram charts and their zoom subclasses;
  - the plotables that hold an `axes` accessor.
- A chart subclass holds its parent chart as a `const` field.
- The arrays that the plotable constructors rewrite are Dafny arrays.
- The registry stores each plotable as a value. The value records which of the plotable's properties are defined and what its domain methods return.
- `src/d3.chart.2DHistogram.js` has the same `transform` as `src/d3.chart.Histogram2D.js`, so `Histogram2DChartV1.Histogram2DChart.Transform` models both.

## Model

| member | source | states |
|---|---|---|
| Extent.Span | src/d3.chart.AxesChart.js:371 | `d3.extent` of a non-empty array is a two-element array of its least and its greatest element |
| Extent.Padded | dist/d3.chart.histograms.js:1047-1053 | the widened interval contains [lo, hi] and has equal padding on both sides, each one twentieth of the distance between lo and hi; for lo <= hi it is ordered and 1.1 times as wide |
| Extent.Accumulate | src/d3.chart.AxesChart.js:371-374 | one step `d3.extent(values.concat(domain))` bounds every value of the array and of the accumulator, and both of its ends are among them |
| Extent.AccumulateStep | src/d3.chart.AxesChart.js:369-377 | folding one more registry entry into an exact extent accumulator keeps it exact (it bounds everything listed, and its ends are listed values) |
| Extent.DomainOfCompleteSpan | src/d3.chart.AxesChart.js:378-380 | once every entry has been folded in, the accumulator with its `[0, 1]` default is the domain |
| Extent.DomainUnique | src/d3.chart.AxesChart.js:362-382 | the domain of a registry is determined: two arrays that both bound everything listed and have listed values as ends are equal |
| Extent.DomainOf | src/d3.chart.AxesChart.js:378-380 | the reference domain has two ends, and it is `[0, 1]` for an empty registry |
| Extent.SpanOfIsSpan | src/d3.chart.AxesChart.js:369-377 | the extent fold is exact whatever order it takes the entries in |
| Extent.DomainOfIsDomain | src/d3.chart.AxesChart.js:362-382 | the reference domain bounds every listed value and its ends are listed values |
| Extent.DomainOfSingle | src/d3.chart.AxesChart.js:369-372 | with one registered array, the domain is that array's own extent |
| Extent.ScanDomain | dist/d3.chart.histograms.js:814-833 | the `setDomain` loop over one axis returns exactly the reference domain |
| Extent.ZStops | dist/d3.chart.histograms.js:834 | the corrected colour stops: the two ends, with the middle stop halfway between them and ordered when lo <= hi |
| Extent.ZStopsAsWritten | dist/d3.chart.histograms.js:834 | the stops as the build writes them: the middle stop is the halfway point less the lower end |
| Extent.ZStopsAsWrittenMisplacesMiddle | dist/d3.chart.histograms.js:1172 | for z in [10, 12] the stops as written are [10, 1, 12], whose extent reaches down to 1, where [10, 11, 12] was meant |
| Extent.HalvedTopStops | src/d3.chart.AxesChart.js:383 | the older stops `[z0, z1/2, z1]`: the ends, with twice the middle stop equal to the upper end |
| Extent.HalvedTopStopsMidpoint | src/d3.plotable.Histogram2D.js:16-19 | those stops are the halfway stops exactly when the range starts at zero, as every two-dimensional histogram's z domain does |
| Utilities.Exponent | src/d3.chart.utilities.js:17-19 | the exponent is -Infinity exactly for zero; otherwise it is the integer e with 10^e <= abs(x) < 10^(e+1) |
| Utilities.ExponentUnique | src/d3.chart.utilities.js:3-18 | `exponent(x) == e` if and only if x is nonzero and 10^e <= abs(x) < 10^(e+1) |
| Utilities.ExponentMonotonic | src/d3.chart.utilities.js:17-19 | a number of smaller magnitude never has a larger exponent |
| Utilities.ExponentSymmetric | src/d3.chart.utilities.js:18 | `exponent(-x) == exponent(x)` |
| Utilities.ExponentExamples | src/d3.chart.utilities.js:8-12 | `exponent(123000)` is 5 and `exponent(0.0045)` is -3 |
| Utilities.MaxMagnitude | src/d3.chart.utilities.js:38 | `d3.max` of two exponents returns one of them and is at least every finite one; NaN is skipped, so the other one is returned, and -Infinity loses to every integer |
| Utilities.TicksExponent | src/d3.chart.utilities.js:30-40 | NaN exactly for no ticks and -Infinity exactly when both extremes are zero; otherwise a multiple of three within three below the larger extreme exponent |
| Utilities.TicksExponentIsLargestTickExponent | src/d3.chart.utilities.js:21-24 | the chosen exponent is the largest nonzero tick's exponent rounded down to a multiple of three: no nonzero tick needs a higher group, some tick sits in it, and only all-zero ticks give -Infinity |
| Utilities.Digits | src/d3.chart.utilities.js:66-67 | the precision for two distinct scaled ticks is the least p whose unit 10^-p fits in their distance; it is undefined exactly for equal ticks |
| Utilities.DigitsExamples | src/d3.chart.utilities.js:44-47 | (0.998, 0.999) need three digits and (12.5, 23.5) need none |
| Utilities.Rescale | src/d3.chart.utilities.js:71 | with a finite exponent the label value is `value / 10^exp` |
| Utilities.Precision | src/d3.chart.utilities.js:63-67 | the digit count the formatter uses: undefined exactly when the first two ticks coincide under a finite exponent; otherwise 10^-p fits in the scaled spacing and 10^(1-p) does not (p > 0); 0 for fewer than two ticks |
| Utilities.RoundUnits | src/d3.chart.utilities.js:71 | `toFixed` rounds to the nearest multiple of 10^-p, within half a unit, keeping the sign |
| Utilities.ToFixed | src/d3.chart.utilities.js:71 | a finite number renders as fixed-point text with p digits, its sign, and the rounded count of units |
| Utilities.Render | src/d3.chart.utilities.js:71 | `toFixed` gives fixed-point text exactly for finite numbers |
| Utilities.FormatTick | src/d3.chart.utilities.js:62-72 | one formatter call reports `ticksExponent(ticks)` to the callback exactly when a callback exists; the label fails exactly when `toFixed` would throw; otherwise it is `value / 10^exp` at the chosen precision |
| Utilities.LabelMatchesReportedExponent | src/d3.chart.utilities.js:64-71 | the label, multiplied by 10 to the reported exponent, is the tick value to within half a unit of its last digit |
| Utilities.RoundingError | src/d3.chart.utilities.js:71 | a `toFixed` label is within half a last-digit unit of the number |
| Utilities.EvenlySpacedTicksGetDistinctLabels | src/d3.chart.utilities.js:44-48 | for equally spaced ticks with a positive step, any two distinct ticks get distinct labels |
| Utilities.TicksStepApart | src/d3.chart.utilities.js:66-71 | two values a whole number of steps apart get distinct labels under the ticks' precision |
| Utilities.SeparatedTicksGetDistinctLabels | src/d3.chart.utilities.js:65-71 | values whose scaled distance is at least one unit of the precision get distinct labels |
| Utilities.DistinctTicksHaveExponent | src/d3.chart.utilities.js:30-40 | ticks whose first two differ have a finite exponent |
| Utilities.FormatterExampleMilli | src/d3.chart.utilities.js:46-47 | the ticks [0.998, 0.999] get the exponent -3 and, rescaled to [998, 999], precision 0 |
| Utilities.FormatterExampleUnits | src/d3.chart.utilities.js:46-47 | ticks 12.5, 23.5, 34.5 get exponent 0 and precision 0 |
| AxisLabel.NatTextRoundTrip | src/d3.chart.AxesChart.js:278 | reading back the decimal digits of a natural number gives that number |
| AxisLabel.IntText | src/d3.chart.AxesChart.js:278 | the text of an integer exponent is never empty |
| AxisLabel.IntTextRoundTrip | src/d3.chart.AxesChart.js:278 | reading back the text of any integer exponent gives that integer |
| AxisLabel.NegativeTextRoundTrip | src/d3.chart.AxesChart.js:278 | the text of a negative exponent reads back as that exponent |
| AxisLabel.NonNegativeTextRoundTrip | src/d3.chart.AxesChart.js:278 | the text of a non-negative exponent reads back as that exponent |
| AxisLabel.MagnitudeTextRoundTrip | src/d3.chart.AxesChart.js:278 | the text of every exponent value, including -Infinity and NaN, reads back as that value |
| AxisLabel.LabelText | src/d3.chart.AxesChart.js:270-284 | the shown text starts with the label, and it is the bare label exactly when the exponent is zero |
| AxisLabel.LabelTextRecordsExponent | src/d3.chart.AxesChart.js:276-282 | the text after the label always reads back as the exponent (no suffix means zero) |
| AxisLabel.LabelTextInjective | src/d3.chart.AxesChart.js:276-282 | two exponents that give the same text under one label are equal |
| AxisLabel.LabelTextExamples | src/d3.chart.AxesChart.js:276-282 | "Mass" shows as "Mass ×1e3", "Mass ×1e-6" and "Mass" for exponents 3, -6 and 0 |
| Zoom.BrushEnd | src/d3.chart.AxesChart.js:139-184 | an empty brush changes nothing; otherwise the domain becomes the brush extent and the button exists; the domain is cached only when there was no button, else the cache is kept |
| Zoom.Clear | src/d3.chart.AxesChart.js:170-175 | a click restores the cached domain and removes the button, keeping the cache |
| Zoom.LaterZoomsKeepCache | src/d3.chart.AxesChart.js:146-150 | once the button exists, no run of brush strokes overwrites the cached domain |
| Zoom.EmptyBrushesChangeNothing | src/d3.chart.AxesChart.js:142-144 | a run of empty brush strokes leaves the state as it was |
| Zoom.ValidSession | src/d3.chart.AxesChart.js:146-175 | brush strokes never leave the button without a cached domain |
| Zoom.ClearUndoesZooms | src/d3.chart.AxesChart.js:146-181 | zoom then clear is a round trip: after any run of strokes with at least one zoom, the click restores the domain from before the first zoom |
| Base.InitialSize | src/d3.chart.BaseChart.js:27-33 | the initial inner size plus the two margins is the container attribute, or 200 without one |
| Base.BaseChart.constructor | src/d3.chart.BaseChart.js:13-37 | default margins (10, 40, 60, 10), the initial sizes, no events, and a container that wraps inner size and margins |
| Base.BaseChart.UpdateContainerWidth | src/d3.chart.BaseChart.js:69-72 | the container width becomes width plus left and right margins; nothing else changes |
| Base.BaseChart.UpdateContainerHeight | src/d3.chart.BaseChart.js:73-76 | the container height becomes height plus top and bottom margins; nothing else changes |
| Base.BaseChart.SetWidth | src/d3.chart.BaseChart.js:48-57 | the getter then returns the new width, the container follows, and one `change:width` event (new, old) is appended |
| Base.BaseChart.SetHeight | src/d3.chart.BaseChart.js:59-68 | the getter then returns the new height, the container follows, and one `change:height` event (new, old) is appended |
| Base.BaseChart.SetRightMargin | dist/d3.chart.histograms.js:595 | only the right margin changes |
| Axes.ScaleFor | dist/d3.chart.histograms.js:333-361 | the scale is logarithmic exactly for "log" and a time scale exactly for "time" on the x axis; otherwise linear |
| Axes.XValues | dist/d3.chart.histograms.js:823 | the x arrays of the registry, one per registered name |
| Axes.ZValues | dist/d3.chart.histograms.js:825-827 | the z arrays of exactly the plotables that define `zDomain` |
| Axes.BrushDomains | dist/d3.chart.histograms.js:524-526 | a brush `[[x0, y0], [x1, y1]]` sets x to [x0, x1] and y to [y0, y1]; an empty brush sets nothing |
| Axes.ZDomainOf | dist/d3.chart.histograms.js:831-834 | as written: the ends of the registry's z extent (`[0, 1]` without z domains), with half the extent's width, not its midpoint, as the middle stop |
| Axes.ScanAll | dist/d3.chart.histograms.js:814-835 | the three scans return the reference x and y domains of the registry and its as-written z stops |
| Axes.HasZUpdate | dist/d3.chart.histograms.js:586-589 | after storing a plotable, some plotable has a z domain exactly when one of the others had, or the new one has |
| Axes.HasZShrink | dist/d3.chart.histograms.js:586-589 | removing a plotable never makes a z domain appear |
| Axes.AxesChart.constructor | dist/d3.chart.histograms.js:294-372 | configuration defaults (linear scales, exponent formatting on, animation on), empty labels with exponent 0, empty registries, [0, 1] domains, no button, no colour-scale room; the scale kinds and formatter choice are constants, fixed here for the chart's lifetime |
| Axes.AxesChart.Draw | dist/d3.chart.histograms.js:577-634 | the first draw with a z plotable moves 70px from the plot width to the right margin, once, firing `change:width` and keeping the container width; nothing else changes |
| Axes.AxesChart.SetDomain | dist/d3.chart.histograms.js:814-835 | x and y become the reference domains of the registry, z its as-written stops over the z extent; nothing else changes |
| Axes.AxesChart.AddPlotable | dist/d3.chart.histograms.js:720-739 | accepted exactly when `draw`, `name`, `xDomain` and `yDomain` exist; a refusal changes nothing; otherwise the plotable replaces any of the same name, gets a layer, and the domains (z as written) follow; the first plotable with a z domain takes 70px from the width into the right margin with one `change:width` event, otherwise the size state is kept; labels, exponents, label texts and the animation flag are kept |
| Axes.AxesChart.RemovePlotable | dist/d3.chart.histograms.js:748-756 | fails (TypeError, no change) exactly when no layer has the name; otherwise deletes it from plotables and layers and recomputes the domains; the size state, labels, exponents, label texts and the animation flag are kept |
| Axes.AxesChart.AddOrnament | dist/d3.chart.histograms.js:774-789 | accepted exactly when `draw` and `name` exist; gets a layer but never touches plotables, domains or the zoom state; labels, exponents, label texts and the animation flag are kept |
| Axes.AxesChart.RemoveOrnament | dist/d3.chart.histograms.js:798-804 | fails exactly when no layer has the name; otherwise deletes it from ornaments and layers; plotables, domains, zoom state, labels, exponents, label texts and the animation flag are kept |
| Axes.AxesChart.SetXAxisLabel | dist/d3.chart.histograms.js:645-660 | stores the label and shows it with the current x exponent; the rest is kept |
| Axes.AxesChart.SetYAxisLabel | dist/d3.chart.histograms.js:671-686 | stores the label and shows it with the current y exponent; the rest is kept |
| Axes.AxesChart.SetAnimate | dist/d3.chart.histograms.js:697-704 | sets the animation flag and nothing else: registries, domains, zoom state, colour-scale flag, labels are kept, and so is the chart's validity |
| Axes.AxesChart.FormatXTick | dist/d3.chart.histograms.js:452-455 | an x tick formatter call records `ticksExponent(ticks)`, re-shows the label with it and returns the formatter's label; only that exponent and label text change, and the chart's validity is kept |
| Axes.AxesChart.FormatYTick | dist/d3.chart.histograms.js:456-459 | the same for the y axis, changing only the y exponent and label text |
| Axes.AxesChart.UpdateScaleDomain | dist/d3.chart.histograms.js:474-478 | sets both domains and draws; registries, cache, button, labels, exponents, label texts and the animation flag are kept, so a tick formatter call can follow |
| Axes.AxesChart.BrushEnd | dist/d3.chart.histograms.js:485-530 | the chart's zoom state takes exactly the `Zoom.BrushEnd` step for the brush extent; registries, z domain, labels, exponents, label texts and the animation flag are kept |
| Axes.AxesChart.ClearZoom | dist/d3.chart.histograms.js:516-521 | the chart's zoom state takes exactly the `Zoom.Clear` step; registries, z domain, labels, exponents, label texts and the animation flag are kept |
| AxesV1.ZDomainOf | src/d3.chart.AxesChart.js:375-383 | the ends of the registry's z extent (`[0, 1]` without z domains), with half the upper end as the middle stop |
| AxesV1.ScanAll | src/d3.chart.AxesChart.js:362-383 | the three scans return the reference x and y domains and the halved-top z stops |
| AxesV1.AxesChart.constructor | src/d3.chart.AxesChart.js:4-30 | empty labels with exponent 0, empty registry, [0, 1] domains, no button |
| AxesV1.AxesChart.SetDomain | src/d3.chart.AxesChart.js:362-384 | each domain becomes the registry's reference domain (z as `[z0, z1/2, z1]`); nothing else changes |
| AxesV1.AxesChart.AddPlotable | src/d3.chart.AxesChart.js:319-339 | accepted exactly when `draw`, `name`, `axes`, `xDomain` and `yDomain` exist; a refusal changes nothing; otherwise the registry's copy of the plotable holds this chart as its axes, it is stored under its name with a layer, and the domains follow |
| AxesV1.AxesChart.RemovePlotable | src/d3.chart.AxesChart.js:346-354 | fails exactly when no layer has the name; otherwise deletes it from plotables and layers and recomputes the domains |
| AxesV1.AxesChart.SetXAxisLabel | src/d3.chart.AxesChart.js:270-284 | the label state changes only in the x label and its shown text |
| AxesV1.AxesChart.SetYAxisLabel | src/d3.chart.AxesChart.js:293-307 | the label state changes only in the y label and its shown text |
| AxesV1.AxesChart.FormatXTick | src/d3.chart.AxesChart.js:110-113 | records `ticksExponent(ticks)` as the x exponent, re-shows the label, returns the formatter's label |
| AxesV1.AxesChart.FormatYTick | src/d3.chart.AxesChart.js:114-117 | the same for the y axis |
| AxesV1.AxesChart.UpdateScaleDomain | src/d3.chart.AxesChart.js:127-131 | sets both domains; everything else is kept |
| AxesV1.AxesChart.SetZDomain | src/d3.chart.Histogram2D.js:69 | sets the z domain; everything else is kept |
| AxesV1.AxesChart.BrushEnd | src/d3.chart.AxesChart.js:139-184 | the zoom state takes exactly the `Zoom.BrushEnd` step |
| AxesV1.AxesChart.ClearZoom | src/d3.chart.AxesChart.js:170-175 | the zoom state takes exactly the `Zoom.Clear` step |
| HistogramPlot.Prepared | dist/d3.chart.histograms.js:1035-1038 | edges kept; y raised to `yMinimum` exactly when below it; an existing `yerr` kept, a missing one becomes [0, 0] |
| HistogramPlot.PreparedAll | dist/d3.chart.histograms.js:1030-1040 | same length, same order, every bin prepared |
| HistogramPlot.PreparedAllIdempotent | dist/d3.chart.histograms.js:1030-1040 | preparing twice is preparing once |
| HistogramPlot.PreparedAllKeepsPrepared | dist/d3.chart.histograms.js:1030-1040 | an already prepared array is left as it is |
| HistogramPlot.Prepare | dist/d3.chart.histograms.js:1030-1040 | the in-place loop leaves the array equal to the prepared array |
| HistogramPlot.XDomain | dist/d3.chart.histograms.js:1047-1054 | every bin lies inside; it is the padded extent of lowest `xlow` and highest `xhigh` |
| HistogramPlot.XDomainOrdered | dist/d3.chart.histograms.js:1047-1054 | for well-formed bins the x domain is ordered |
| HistogramPlot.YDomain | dist/d3.chart.histograms.js:1055-1060 | the lower end is at most `yMinimum` and every error-bar top, and is one of them; the upper end is 1.05 times the highest top |
| HistogramPlot.PreparedBinsFitYDomain | dist/d3.chart.histograms.js:1030-1060 | after the constructor, with non-negative minimum and upper errors, each bin's contents and error-bar top lie inside the y domain |
| HistogramPlot.Histogram.constructor | dist/d3.chart.histograms.js:1015-1046 | the defaults ('#261196', 0, false) and the in-place preparation of the caller's array |
| HistogramPlot.Histogram.AsPlotable | dist/d3.chart.histograms.js:1041-1060 | passes the chart's capability checks and has no z domain |
| Histogram2DPlot.XDomain | dist/d3.chart.histograms.js:1157-1162 | the lowest `xlow` and the highest `xhigh` |
| Histogram2DPlot.YDomain | dist/d3.chart.histograms.js:1163-1168 | the lowest `ylow` and the highest `yhigh` |
| Histogram2DPlot.TilesInsideDomains | dist/d3.chart.histograms.js:1157-1168 | every tile lies inside the x and y domains |
| Histogram2DPlot.PositiveContents | dist/d3.chart.histograms.js:1170 | the filter keeps exactly the positive contents |
| Histogram2DPlot.ZDomainAsWritten | dist/d3.chart.histograms.js:1169-1173 | as written: undefined without positive contents, else the as-written stops over their extent |
| Histogram2DPlot.ZDomain | dist/d3.chart.histograms.js:1169-1173 | corrected: defined exactly when some tile is positive; the least and greatest positive contents with the halfway stop between |
| Histogram2DPlot.ZDomainCoversPositiveTiles | dist/d3.chart.histograms.js:1169-1173 | every positive content lies between the ends of the z domain |
| Histogram2DPlot.NonPositiveTileFiltered | dist/d3.chart.histograms.js:1170 | inserting a tile without positive contents anywhere leaves the filtered contents unchanged |
| Histogram2DPlot.NonPositiveTileIgnored | dist/d3.chart.histograms.js:1170-1172 | such a tile leaves both z domains unchanged |
| Histogram2DPlot.ZDomainAsWrittenMisplacesMiddle | dist/d3.chart.histograms.js:1172 | tiles with contents 10 and 12 give [10, 1, 12] as written and [10, 11, 12] corrected |
| Histogram2DPlot.AsPlotable | dist/d3.chart.histograms.js:1154-1173 | passes the capability check, with its x and y domains and its z domain as written |
| Histogram2DPlot.ChartZDomainStretches | dist/d3.chart.histograms.js:834 | registered alone, contents 10 and 12 give the chart the z scale [1, 5.5, 12]: `setDomain` applies the as-written formula again to the extent of the plotable's [10, 1, 12] |
| LineChartPlot.Prepared | src/d3.plotable.LineChart.js:52-61 | coordinates kept; existing errors kept, missing ones become [0, 0] |
| LineChartPlot.PreparedAll | src/d3.plotable.LineChart.js:52-61 | same length, same order, every point prepared |
| LineChartPlot.PreparedAllKeepsPrepared | src/d3.plotable.LineChart.js:52-61 | points that already have both errors are left as they are |
| LineChartPlot.Prepare | src/d3.plotable.LineChart.js:52-61 | the in-place loop leaves the array equal to the prepared array |
| LineChartPlot.BarDomain | src/d3.plotable.LineChart.js:73-77 | every error-bar end lies inside; it is the padded extent of the lowest bottom and highest top |
| LineChartPlot.BarsInsideDomain | src/d3.plotable.LineChart.js:73-87 | with non-negative errors the domain is ordered and holds each coordinate and both ends of its bar |
| LineChartPlot.XDomain | src/d3.plotable.LineChart.js:69-78 | contains every `x - xerr[0]` and `x + xerr[1]` |
| LineChartPlot.YDomain | src/d3.plotable.LineChart.js:79-88 | contains every `y - yerr[0]` and `y + yerr[1]` |
| LineChartPlot.PreparedPointsInsideDomains | src/d3.plotable.LineChart.js:52-88 | right after the constructor every point lies inside both domains |
| LineChartPlot.LineChart.constructor | src/d3.plotable.LineChart.js:34-61 | defaults ('#261196', 'basis', false, false) and the in-place error filling of the caller's array |
| LineChartPlot.LineChart.AsPlotable | src/d3.plotable.LineChart.js:62-88 | passes the capability check with its domains and no z domain |
| HistogramPlotV1.XDomainAsWritten | src/d3.plotable.Histogram.js:6-11 | as written: both sides padded by 5% of the spread of the lower edges only |
| HistogramPlotV1.LowsPadding | src/d3.plotable.Histogram.js:9 | the padding is never negative |
| HistogramPlotV1.XDomainAsWrittenSkipsPadding | src/d3.plotable.Histogram.js:9 | a single bin [0, 1] gets [0, 1] as written and [-0.05, 1.05] corrected |
| HistogramPlotV1.XDomain | src/d3.plotable.Histogram.js:6-11 | corrected: every bin inside; the padded extent of lowest `x` and highest `dx` |
| HistogramPlotV1.XDomainAsWrittenDiffers | src/d3.plotable.Histogram.js:9 | for well-formed bins, written and corrected agree exactly when the highest lower edge is the highest upper edge |
| HistogramPlotV1.YDomain | src/d3.plotable.Histogram.js:12-15 | the least contents, and 1.05 times the greatest |
| HistogramPlotV1.ContentsInsideYDomain | src/d3.plotable.Histogram.js:12-15 | with non-negative contents every bin lies inside the y domain |
| HistogramPlotV1.Histogram.constructor | src/d3.plotable.Histogram.js:2-5 | name and data stored, no axes |
| HistogramPlotV1.Histogram.SetAxes | src/d3.plotable.Histogram.js:44-49 | the getter then returns the new axes |
| HistogramPlotV1.Histogram.Draw | src/d3.plotable.Histogram.js:16-27 | draws exactly when called with a layer and an axes object is set |
| HistogramPlotV1.Histogram.AsPlotable | src/d3.plotable.Histogram.js:3-15 | passes the capability check, with its axes, its x domain as written, its y domain and no z domain |
| Histogram2DPlotV1.XDomain | src/d3.plotable.Histogram2D.js:6-10 | the lowest `xlow` and the highest `xup` |
| Histogram2DPlotV1.YDomain | src/d3.plotable.Histogram2D.js:11-15 | the lowest `ylow` and the highest `yup` |
| Histogram2DPlotV1.TilesInsideDomains | src/d3.plotable.Histogram2D.js:6-15 | every tile lies inside both domains |
| Histogram2DPlotV1.ZDomain | src/d3.plotable.Histogram2D.js:16-19 | starts at 0, ends at the greatest `val`, and its middle stop is halfway |
| Histogram2DPlotV1.ChartKeepsZDomain | src/d3.chart.AxesChart.js:369-383 | registered alone with some non-negative content, the chart's z domain is the plotable's own |
| Histogram2DPlotV1.Histogram2D.constructor | src/d3.plotable.Histogram2D.js:2-5 | name and data stored, no axes |
| Histogram2DPlotV1.Histogram2D.SetAxes | src/d3.plotable.Histogram2D.js:46-51 | the getter then returns the new axes |
| Histogram2DPlotV1.Histogram2D.Draw | src/d3.plotable.Histogram2D.js:20-28 | draws exactly when called with a layer and an axes object is set |
| Histogram2DPlotV1.Histogram2D.AsPlotable | src/d3.plotable.Histogram2D.js:3-19 | passes the capability check with its axes and three domains |
| HistogramChartV1.XScaleDomain | src/d3.chart.Histogram.js:124-129 | the least lower edge and the greatest upper edge |
| HistogramChartV1.YScaleDomain | src/d3.chart.Histogram.js:124-133 | the lower end is 0 exactly when no contents are negative, otherwise the least contents; it is below every bin; the upper end is 1.05 times the greatest contents |
| HistogramChartV1.BinsInsideDomains | src/d3.chart.Histogram.js:124-133 | with some non-negative contents every bin lies inside both domains |
| HistogramChartV1.HistogramChart.constructor | src/d3.chart.Histogram.js:4-21 | a fresh axes chart with [0, 1] domains, no plotables and no data |
| HistogramChartV1.HistogramChart.Transform | src/d3.chart.Histogram.js:119-137 | caches the input and sets exactly the x and y domains from it, then throws a TypeError at the undefined `drawAxes` (line 135) instead of returning the input |
| Histogram2DChartV1.Histogram2DChart.constructor | src/d3.chart.Histogram2D.js:4-33 | a fresh axes chart with [0, 1] domains and no data |
| Histogram2DChartV1.Histogram2DChart.Transform | src/d3.chart.Histogram2D.js:58-74 | caches the tiles and sets the x, y and z domains from them, then throws a TypeError at the undefined `drawAxes` (line 71) instead of returning the input |
| HistogramZoomV1.BrushDomain | src/d3.chart.HistogramZoom.js:69 | a non-empty brush sets the x domain to its extent |
| HistogramZoomV1.HistogramZoom.constructor | src/d3.chart.HistogramZoom.js:4-30 | zoom state [0, 1], no cache, no button |
| HistogramZoomV1.HistogramZoom.UpdateScaleDomain | src/d3.chart.HistogramZoom.js:18-22 | sets the x domain only, then throws a TypeError at the undefined `drawAxes` (line 20); the axes chart's plotables, layers, labels, cached domains and button are kept |
| HistogramZoomV1.HistogramZoom.BrushEnd | src/d3.chart.HistogramZoom.js:31-72 | returns normally exactly for an empty brush; the x-domain zoom state takes exactly the `Zoom.BrushEnd` step before `updateScaleDomain` throws; y, the data and the axes chart's plotables, layers, labels, cached domains and button are kept |
| HistogramZoomV1.HistogramZoom.ClearZoom | src/d3.chart.HistogramZoom.js:61-66 | restores the cached x domain and throws in `updateScaleDomain` before the button is removed: the state takes the `ClearAsWritten` step; y, the data and the axes chart's plotables, layers, labels, cached domains and button are kept |
| HistogramZoomV1.ClearAsWritten | src/d3.chart.HistogramZoom.js:61-66 | the click as written: the cached x domain comes back, the cache is kept, and the button stays |
| HistogramZoomV1.ClearAsWrittenKeepsButton | src/d3.chart.HistogramZoom.js:18-22 | after a run of strokes that zooms at least once, the click as written restores the pre-zoom domain like `Zoom.Clear` but leaves the button that `Zoom.Clear` removes |
| HistogramChartV0.XScaleDomain | d3.chart.Histogram.js:166-170 | the first bin's lower edge and the last bin's upper edge |
| HistogramChartV0.AscendingGivesExtent | d3.chart.Histogram.js:166 | for ascending bins, that is the extent of the edges |
| HistogramChartV0.YScaleDomainAsWritten | d3.chart.Histogram.js:171-175 | as written: the least contents, and 1.05 times the greatest |
| HistogramChartV0.YScaleDomainAsWrittenSkipsZero | d3.chart.Histogram.js:173-175 | contents 2 and 5 give [2, 5.25] as written and [0, 5.25] corrected |
| HistogramChartV0.YScaleDomainAsWrittenAgrees | d3.chart.Histogram.js:171-175 | written and corrected agree exactly when some contents are not positive |
| HistogramChartV0.HistogramChart.constructor | d3.chart.Histogram.js:4-10 | [0, 1] domains and no data |
| HistogramChartV0.HistogramChart.BindData | d3.chart.Histogram.js:51-52 | stores the data; the domains are kept |
| HistogramChartV0.HistogramChart.Transform | d3.chart.Histogram.js:165-178 | fails on empty input with no change; otherwise returns the input, keeps the data and sets the x domain and the y domain as written, from the least contents |
| HistogramZoomV0.SelectedMeansEdgeInside | d3.chart.HistogramZoom.js:26-34 | a bar is selected exactly when it overlaps the extent and does not strictly contain it |
| HistogramZoomV0.HistogramZoom.constructor | d3.chart.HistogramZoom.js:4-21 | zoom state [0, 1], no cache, no button, no selection |
| HistogramZoomV0.HistogramZoom.Brush | d3.chart.HistogramZoom.js:26-34 | each bar is marked selected exactly when one of its edges lies in the extent; the zoom state is kept |
| HistogramZoomV0.HistogramZoom.UpdateScaleDomain | d3.chart.HistogramZoom.js:17-21 | sets the x domain only |
| HistogramZoomV0.HistogramZoom.BrushEnd | d3.chart.HistogramZoom.js:35-78 | the zoom state takes exactly the `Zoom.BrushEnd` step; after a zoom no bar is selected |
| HistogramZoomV0.HistogramZoom.ClearZoom | d3.chart.HistogramZoom.js:65-70 | the zoom state takes exactly the `Zoom.Clear` step |
| Examples.RecordAt | examples/javascripts/examples.js:15-21 | record i takes its edges from `binning[i]`, its contents from `values[i]`, and an uncertainty exactly when `uncertainties[i]` exists |
| Examples.FormatData | examples/javascripts/examples.js:12-24 | fails (TypeError) exactly when `binning` is shorter than `values`; otherwise one record per value, in order |

## Left out

- Rendering is not modelled. This covers every d3 selection, SVG attribute, transition, clip path, axis construction, colour scale and colour label, and the drawing bodies of the plotables and charts. `src/d3.plotable.TextBox.js` is layout only and is not part of this model.
- Floating point is not modelled. Numbers are exact reals, so `Math.log(x)/Math.LN10` is the exact exponent and `toFixed` is exact rounding. Digit strings are represented by their units and precision.
- `d3.extent` and `d3.max` on empty arrays, and on arrays holding undefined, are not modelled. Domain arrays are non-empty, and the data-driven domains require non-empty data.
- Tick generation (`scale.ticks`) and the brush's own mechanics are not modelled. Ticks and brush extents are inputs.
- Event dispatch is not modelled. A change event is only recorded in `BaseChart.events`. The `change:width` handler's second draw is folded into `Axes.AxesChart.Draw`.
- Clip-path ids made with `Math.random` are not modelled.
- `histogram.js` (a page script) and `Gruntfile.js` (build configuration) are not part of this model.
- `Axes.AxesChart` and `AxesV1.AxesChart`: drawing an axis calls its tick formatter, whose callback records the exponent and re-shows the label (src/d3.chart.AxesChart.js:110-117). The model makes each such call a separate `FormatXTick` or `FormatYTick` step, so `Draw`, `UpdateScaleDomain`, `SetDomain`, `AddPlotable` and `RemovePlotable` leave the labels as they were. `AxesV1.AxesChart` has no `Draw` method, because its `draw` does nothing else but render.
- AddPlotable (`AxesV1.AxesChart.AddPlotable`): `plotable.axes(this)` is recorded only in the registry's copy of the plotable. The `HistogramPlotV1.Histogram` or `Histogram2DPlotV1.Histogram2D` object the caller holds keeps its own `axes` until `SetAxes` is called on it. The model does not capture that registration changes that object, whose `Draw` guard reads it.
- BrushEnd and ClearZoom (`HistogramZoomV1.HistogramZoom`): the zoom keeps its own cache and button. In the source these are `xScale.originalDomain` and the `.clear-button` element, which the brush handler of the axes chart it extends (src/d3.chart.AxesChart.js:139-184) also reads and writes. The model does not capture that sharing: `AxesV1.AxesChart.BrushEnd` and these handlers act on separate states.
- `Histogram2DChartV1.Histogram2DChart.constructor`: the assignment `margins.right = 100` is not modelled. It only affects layout. `AxesV1.AxesChart.Valid` keeps the default margins.
- `Examples.FormatData`: a binning entry shorter than two is not modelled, because entries are pairs.
- `HistogramPlotV1.Histogram.Draw` and `Histogram2DPlotV1.Histogram2D.Draw`: only the guards are modelled, not the drawing.
- `HistogramChartV1.HistogramChart.Transform` and `Histogram2DChartV1.Histogram2DChart.Transform` require non-empty data, because the source's extents of an empty array are undefined. `HistogramChartV0.HistogramChart.Transform` reads `data[0]` and therefore models the failure instead.
- `HistogramZoomV0.HistogramZoom.UpdateScaleDomain`: the axis and bar redraws are left out. `HistogramZoomV1.HistogramZoom.UpdateScaleDomain` throws before it would redraw.

## Findings

| source | as written | input that shows it | evidently intended | confidence | as-written member | corrected member |
|---|---|---|---|---|---|---|
| dist/d3.chart.histograms.js:1172 | the middle z stop is `(z1 - z0)/2`, half the width of the range, and `setDomain` at line 834 does the same | positive contents 10 and 12 give [10, 1, 12], so the colour scale's middle sits below both ends | the midpoint `z0 + (z1 - z0)/2`, giving [10, 11, 12] | not executed | Histogram2DPlot.ZDomainAsWrittenMisplacesMiddle | Histogram2DPlot.ZDomain |
| src/d3.plotable.Histogram.js:9 | the x padding is 5% of the spread of the lower edges `x` only | a single bin from 0 to 1 gets the domain [0, 1], with no padding at all | 5% of the distance from the lowest lower edge to the highest upper edge, giving [-0.05, 1.05], as the build does | not executed | HistogramPlotV1.XDomainAsWrittenSkipsPadding | HistogramPlotV1.XDomain |
| d3.chart.Histogram.js:173-175 | `yLow` is computed but the y domain uses the least contents instead | contents 2 and 5 give [2, 5.25] | a y axis starting at zero for positive contents, [0, 5.25], as the comment on line 172 and the later revision say | not executed | HistogramChartV0.YScaleDomainAsWrittenSkipsZero | HistogramChartV1.YScaleDomain |
| src/d3.chart.Histogram.js:135 | `transform` calls `drawAxes`, which no file of the `src` revision defines; so do src/d3.chart.Histogram2D.js:71, src/d3.chart.2DHistogram.js:65 and src/d3.chart.HistogramZoom.js:20, and each call throws a TypeError after the domains are set | one zoom, then a click on "Clear zoom": the x domain comes back, but the handler throws before `clearG.remove()`, so the button stays | redraw the axes, as the root revision's `drawAxes` (d3.chart.Histogram.js:179) does, and go on: `transform` returns its input and the click removes the button | not executed | HistogramZoomV1.ClearAsWrittenKeepsButton | Zoom.Clear |
