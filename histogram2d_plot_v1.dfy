/**
 * The `Histogram2D` plotable of the older source revision: a named array of
 * tiles with x edges `xlow`, `xup`, y edges `ylow`, `yup` and contents `val`,
 * and an `axes` accessor through which a chart hands itself to the plotable.
 * Its z domain starts at zero and puts half the greatest contents in the middle.
 */
module Histogram2DPlotV1 {
  import opened Wrappers
  import opened Extent
  import AxesV1

  datatype Tile = Tile(xlow: real, xup: real, ylow: real, yup: real, val: real)

  function XLows(tiles: seq<Tile>): (r: seq<real>)
    ensures |r| == |tiles| && forall i :: 0 <= i < |tiles| ==> r[i] == tiles[i].xlow
  {
    seq(|tiles|, i requires 0 <= i < |tiles| => tiles[i].xlow)
  }

  function XUps(tiles: seq<Tile>): (r: seq<real>)
    ensures |r| == |tiles| && forall i :: 0 <= i < |tiles| ==> r[i] == tiles[i].xup
  {
    seq(|tiles|, i requires 0 <= i < |tiles| => tiles[i].xup)
  }

  function YLows(tiles: seq<Tile>): (r: seq<real>)
    ensures |r| == |tiles| && forall i :: 0 <= i < |tiles| ==> r[i] == tiles[i].ylow
  {
    seq(|tiles|, i requires 0 <= i < |tiles| => tiles[i].ylow)
  }

  function YUps(tiles: seq<Tile>): (r: seq<real>)
    ensures |r| == |tiles| && forall i :: 0 <= i < |tiles| ==> r[i] == tiles[i].yup
  {
    seq(|tiles|, i requires 0 <= i < |tiles| => tiles[i].yup)
  }

  function Vals(tiles: seq<Tile>): (r: seq<real>)
    ensures |r| == |tiles| && forall i :: 0 <= i < |tiles| ==> r[i] == tiles[i].val
  {
    seq(|tiles|, i requires 0 <= i < |tiles| => tiles[i].val)
  }

  /** `xDomain`: the lowest lower x edge and the highest upper x edge. */
  function XDomain(tiles: seq<Tile>): (r: seq<real>)
    requires |tiles| > 0
    ensures |r| == 2 && Least(XLows(tiles), r[0]) && Greatest(XUps(tiles), r[1])
  {
    [Span(XLows(tiles))[0], Span(XUps(tiles))[1]]
  }

  /** `yDomain`: the lowest lower y edge and the highest upper y edge. */
  function YDomain(tiles: seq<Tile>): (r: seq<real>)
    requires |tiles| > 0
    ensures |r| == 2 && Least(YLows(tiles), r[0]) && Greatest(YUps(tiles), r[1])
  {
    [Span(YLows(tiles))[0], Span(YUps(tiles))[1]]
  }

  /** Every tile lies inside the x and y domains. */
  lemma TilesInsideDomains(tiles: seq<Tile>, i: nat)
    requires i < |tiles|
    ensures XDomain(tiles)[0] <= tiles[i].xlow && tiles[i].xup <= XDomain(tiles)[1]
    ensures YDomain(tiles)[0] <= tiles[i].ylow && tiles[i].yup <= YDomain(tiles)[1]
  {
    assert XLows(tiles)[i] == tiles[i].xlow && XUps(tiles)[i] == tiles[i].xup;
    assert YLows(tiles)[i] == tiles[i].ylow && YUps(tiles)[i] == tiles[i].yup;
  }

  /**
   * `zDomain`: zero, half the greatest contents, and the greatest contents.
   * Zero, not the least contents, is the first stop, so the middle stop lies
   * halfway along the range.
   */
  function ZDomain(tiles: seq<Tile>): (r: seq<real>)
    requires |tiles| > 0
    ensures |r| == 3 && r[0] == 0.0 && Greatest(Vals(tiles), r[2])
    ensures r == ZStops(0.0, r[2])
  {
    var zMax := Max(Vals(tiles));
    HalvedTopStopsMidpoint(0.0, zMax);
    [0.0, zMax / 2.0, zMax]
  }

  /**
   * A chart holding only this histogram, with contents not all negative,
   * recomputes exactly the histogram's own stops: the extent of
   * [0, zMax/2, zMax] is [0, zMax], whose halved-top stops are the same array.
   */
  lemma ChartKeepsZDomain(name: string, p: AxesV1.Plotable, tiles: seq<Tile>)
    requires |tiles| > 0 && p.zDomain == Some(ZDomain(tiles))
    requires exists i :: 0 <= i < |tiles| && tiles[i].val >= 0.0
    ensures AxesV1.ZDomainOf(map[name := p]) == ZDomain(tiles)
  {
    var z := ZDomain(tiles);
    var i :| 0 <= i < |tiles| && tiles[i].val >= 0.0;
    assert Vals(tiles)[i] <= z[2];
    assert AxesV1.ZValues(map[name := p]) == map[name := z];
    DomainOfSingle(name, z);
    assert Least(z, 0.0) && Greatest(z, z[2]);
  }

  class Histogram2D {
    const name: string
    const data: seq<Tile>
    /** The chart set through the `axes` accessor. */
    var axes: Option<object>

    constructor(name: string, data: seq<Tile>)
      ensures this.name == name && this.data == data && axes.None?
    {
      this.name := name;
      this.data := data;
      axes := None;
    }

    /** `axes(newAxes)`: the setter; the getter then returns `newAxes`. */
    method SetAxes(newAxes: Option<object>)
      modifies this
      ensures axes == newAxes
    {
      axes := newAxes;
    }

    /**
     * `draw(g, transition)`, as far as its guards go: nothing is drawn when
     * it is called without arguments or before an axes object has been set.
     */
    method Draw(layerGiven: bool) returns (drawn: bool)
      ensures drawn <==> layerGiven && axes.Some?
    {
      if !layerGiven {
        return false;
      }
      if axes.None? {
        return false;
      }
      return true;
    }

    /** The histogram as a chart registers it: every capability, with a z domain. */
    function AsPlotable(): (p: AxesV1.Plotable)
      reads this
      requires |data| > 0
      ensures AxesV1.Accepts(p) && p.name == Some(name) && p.axes == axes
      ensures p.xDomain == Some(XDomain(data)) && p.yDomain == Some(YDomain(data))
      ensures p.zDomain == Some(ZDomain(data))
    {
      AxesV1.Plotable(Some(name), true, true, Some(XDomain(data)), Some(YDomain(data)), Some(ZDomain(data)), axes)
    }
  }
}
