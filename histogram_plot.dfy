/**
 * The `Histogram` plotable of the distributed bundle: a named array of bins,
 * each with a lower and an upper edge (`xlow`, `xhigh`), contents `y` and an
 * optional (lower, upper) uncertainty `yerr`. The constructor clamps the
 * contents from below and fills in missing uncertainties, rewriting the
 * caller's array in place; the domain methods give the chart the x range of
 * the bins and the y range of their upper error bars.
 */
module HistogramPlot {
  import opened Wrappers
  import opened Extent
  import Axes

  datatype Bin = Bin(xlow: real, xhigh: real, y: real, yerr: Option<(real, real)>)

  /** The configuration object; a missing key is `None`. */
  datatype Config = Config(color: Option<string>, yMinimum: Option<real>, showUncertainties: Option<bool>)

  const DefaultColor: string := "#261196"
  const DefaultYMinimum: real := 0.0

  /** The uncertainty given to a bin that has none. */
  const NoError: (real, real) := (0.0, 0.0)

  /**
   * One step of the constructor loop: contents below `yMinimum` are raised to
   * it, and a missing uncertainty becomes [0, 0]; the edges are kept.
   */
  function Prepared(b: Bin, yMinimum: real): (r: Bin)
    ensures r.xlow == b.xlow && r.xhigh == b.xhigh
    ensures r.y >= yMinimum && r.y >= b.y
    ensures r.y == b.y <==> b.y >= yMinimum
    ensures r.yerr.Some? && (b.yerr.Some? ==> r.yerr == b.yerr)
    ensures b.yerr.None? ==> r.yerr == Some(NoError)
  {
    Bin(b.xlow, b.xhigh, if b.y > yMinimum then b.y else yMinimum,
        if b.yerr.Some? then b.yerr else Some(NoError))
  }

  /** Every bin has an uncertainty and contents of at least `yMinimum`. */
  predicate IsPrepared(bins: seq<Bin>, yMinimum: real) {
    forall i :: 0 <= i < |bins| ==> bins[i].y >= yMinimum && bins[i].yerr.Some?
  }

  /** The array the constructor leaves: each bin prepared, in the same order. */
  function PreparedAll(bins: seq<Bin>, yMinimum: real): (r: seq<Bin>)
    ensures |r| == |bins| && IsPrepared(r, yMinimum)
    ensures forall i :: 0 <= i < |bins| ==> r[i] == Prepared(bins[i], yMinimum)
  {
    seq(|bins|, i requires 0 <= i < |bins| => Prepared(bins[i], yMinimum))
  }

  /** Preparing is idempotent: an array the constructor has seen is left as it is. */
  lemma PreparedAllIdempotent(bins: seq<Bin>, yMinimum: real)
    ensures PreparedAll(PreparedAll(bins, yMinimum), yMinimum) == PreparedAll(bins, yMinimum)
  {
  }

  /** An already prepared array is a fixed point of the constructor loop. */
  lemma {:induction false} PreparedAllKeepsPrepared(bins: seq<Bin>, yMinimum: real)
    requires IsPrepared(bins, yMinimum)
    ensures PreparedAll(bins, yMinimum) == bins
  {
    var r := PreparedAll(bins, yMinimum);
    forall i | 0 <= i < |bins|
      ensures r[i] == bins[i]
    {
      assert bins[i].y >= yMinimum && bins[i].yerr.Some?;
    }
  }

  /** The constructor loop, rewriting each element of `data` in place. */
  method Prepare(data: array<Bin>, yMinimum: real)
    modifies data
    ensures data[..] == PreparedAll(old(data[..]), yMinimum)
  {
    var i := 0;
    while i < data.Length
      invariant 0 <= i <= data.Length
      invariant forall k :: 0 <= k < i ==> data[k] == Prepared(old(data[k]), yMinimum)
      invariant forall k :: i <= k < data.Length ==> data[k] == old(data[k])
    {
      var datum := data[i];
      datum := datum.(y := if datum.y > yMinimum then datum.y else yMinimum);
      if datum.yerr.None? {
        datum := datum.(yerr := Some(NoError));
      }
      data[i] := datum;
      i := i + 1;
    }
  }

  function XLows(bins: seq<Bin>): (r: seq<real>)
    ensures |r| == |bins| && forall i :: 0 <= i < |bins| ==> r[i] == bins[i].xlow
  {
    seq(|bins|, i requires 0 <= i < |bins| => bins[i].xlow)
  }

  function XHighs(bins: seq<Bin>): (r: seq<real>)
    ensures |r| == |bins| && forall i :: 0 <= i < |bins| ==> r[i] == bins[i].xhigh
  {
    seq(|bins|, i requires 0 <= i < |bins| => bins[i].xhigh)
  }

  /** The top of each bin's error bar, `y + yerr[1]`. */
  function Tops(bins: seq<Bin>): (r: seq<real>)
    requires forall i :: 0 <= i < |bins| ==> bins[i].yerr.Some?
    ensures |r| == |bins| && forall i :: 0 <= i < |bins| ==> r[i] == bins[i].y + bins[i].yerr.value.1
  {
    seq(|bins|, i requires 0 <= i < |bins| => bins[i].y + bins[i].yerr.value.1)
  }

  /**
   * `xDomain`: from the lowest lower edge to the highest upper edge, padded
   * by five per cent of that distance on each side; every bin lies inside.
   */
  function XDomain(bins: seq<Bin>): (r: seq<real>)
    requires |bins| > 0
    ensures |r| == 2
    ensures forall i :: 0 <= i < |bins| ==> r[0] <= bins[i].xlow && bins[i].xhigh <= r[1]
    ensures r == Padded(Min(XLows(bins)), Max(XHighs(bins)))
  {
    Padded(Min(XLows(bins)), Max(XHighs(bins)))
  }

  /** With well-formed bins the x domain is an interval 10% wider than the bins' range. */
  lemma XDomainOrdered(bins: seq<Bin>)
    requires |bins| > 0
    requires forall i :: 0 <= i < |bins| ==> bins[i].xlow <= bins[i].xhigh
    ensures XDomain(bins)[0] <= XDomain(bins)[1]
  {
    var lo, hi := Min(XLows(bins)), Max(XHighs(bins));
    assert lo <= XLows(bins)[0] == bins[0].xlow <= bins[0].xhigh == XHighs(bins)[0] <= hi;
  }

  /**
   * `yDomain`: from the lower of `yMinimum` and the lowest error-bar top, to
   * 5% above the highest error-bar top.
   */
  function YDomain(bins: seq<Bin>, yMinimum: real): (r: seq<real>)
    requires |bins| > 0 && forall i :: 0 <= i < |bins| ==> bins[i].yerr.Some?
    ensures |r| == 2
    ensures r[0] <= yMinimum && forall i :: 0 <= i < |bins| ==> r[0] <= Tops(bins)[i]
    ensures r[0] == yMinimum || r[0] in Tops(bins)
    ensures Greatest(Tops(bins), r[1] / 1.05)
  {
    var tops := Tops(bins);
    var lowest := Min(tops);
    [if yMinimum <= lowest then yMinimum else lowest, 1.05 * Max(tops)]
  }

  /**
   * After the constructor, with `yMinimum` and every upper uncertainty at
   * least zero, each bin's contents and error bar lie inside the y domain.
   */
  lemma {:induction false} PreparedBinsFitYDomain(bins: seq<Bin>, yMinimum: real)
    requires |bins| > 0 && IsPrepared(bins, yMinimum) && yMinimum >= 0.0
    requires forall i :: 0 <= i < |bins| ==> bins[i].yerr.value.1 >= 0.0
    ensures forall i :: 0 <= i < |bins| ==>
      YDomain(bins, yMinimum)[0] <= bins[i].y <= Tops(bins)[i] <= YDomain(bins, yMinimum)[1]
  {
    var r, tops := YDomain(bins, yMinimum), Tops(bins);
    var top := r[1] / 1.05;
    assert top >= tops[0] >= bins[0].y >= 0.0;
    forall i | 0 <= i < |bins|
      ensures r[0] <= bins[i].y <= tops[i] <= r[1]
    {
      assert tops[i] <= top <= 1.05 * top;
    }
  }

  class Histogram {
    const name: string
    /** The caller's array, rewritten by the constructor. */
    const data: array<Bin>
    const color: string
    const yMinimum: real
    const showUncertainties: bool

    /** The constructor: configuration defaults, then the preparation loop over `data`. */
    constructor(name: string, data: array<Bin>, config: Config)
      modifies data
      ensures this.name == name && this.data == data
      ensures color == (if config.color.Some? then config.color.value else DefaultColor)
      ensures yMinimum == (if config.yMinimum.Some? then config.yMinimum.value else DefaultYMinimum)
      ensures showUncertainties == (config.showUncertainties.Some? && config.showUncertainties.value)
      ensures data[..] == PreparedAll(old(data[..]), yMinimum)
    {
      this.name := name;
      this.data := data;
      color := if config.color.Some? then config.color.value else DefaultColor;
      yMinimum := if config.yMinimum.Some? then config.yMinimum.value else DefaultYMinimum;
      showUncertainties := config.showUncertainties.Some? && config.showUncertainties.value;
      new;
      Prepare(data, yMinimum);
    }

    /**
     * The histogram as a chart registers it: it has `draw` and `name`, its
     * domain methods return the x and y domains of its bins, and it has no
     * z domain.
     */
    function AsPlotable(): (p: Axes.Plotable)
      reads data
      requires data.Length > 0 && IsPrepared(data[..], yMinimum)
      ensures Axes.Accepts(p) && Axes.AcceptsOrnament(p)
      ensures p.name == Some(name) && p.zDomain.None?
      ensures p.xDomain == Some(XDomain(data[..])) && p.yDomain == Some(YDomain(data[..], yMinimum))
    {
      Axes.Plotable(Some(name), true, Some(XDomain(data[..])), Some(YDomain(data[..], yMinimum)), None)
    }
  }
}
