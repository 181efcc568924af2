/**
 * The `Histogram2D` plotable of the distributed bundle: a named array of
 * rectangular bins (tiles) with x and y edges and contents `z`, drawn with
 * colours from the chart's z scale. Its domain methods give the chart the x
 * and y ranges of the tiles and the colour stops for the positive contents.
 */
module Histogram2DPlot {
  import opened Wrappers
  import opened Extent
  import Axes

  datatype Tile = Tile(xlow: real, xhigh: real, ylow: real, yhigh: real, z: real)

  function XLows(tiles: seq<Tile>): (r: seq<real>)
    ensures |r| == |tiles| && forall i :: 0 <= i < |tiles| ==> r[i] == tiles[i].xlow
  {
    seq(|tiles|, i requires 0 <= i < |tiles| => tiles[i].xlow)
  }

  function XHighs(tiles: seq<Tile>): (r: seq<real>)
    ensures |r| == |tiles| && forall i :: 0 <= i < |tiles| ==> r[i] == tiles[i].xhigh
  {
    seq(|tiles|, i requires 0 <= i < |tiles| => tiles[i].xhigh)
  }

  function YLows(tiles: seq<Tile>): (r: seq<real>)
    ensures |r| == |tiles| && forall i :: 0 <= i < |tiles| ==> r[i] == tiles[i].ylow
  {
    seq(|tiles|, i requires 0 <= i < |tiles| => tiles[i].ylow)
  }

  function YHighs(tiles: seq<Tile>): (r: seq<real>)
    ensures |r| == |tiles| && forall i :: 0 <= i < |tiles| ==> r[i] == tiles[i].yhigh
  {
    seq(|tiles|, i requires 0 <= i < |tiles| => tiles[i].yhigh)
  }

  /** `xDomain`: the lowest lower x edge and the highest upper x edge. */
  function XDomain(tiles: seq<Tile>): (r: seq<real>)
    requires |tiles| > 0
    ensures |r| == 2 && Least(XLows(tiles), r[0]) && Greatest(XHighs(tiles), r[1])
  {
    [Min(XLows(tiles)), Max(XHighs(tiles))]
  }

  /** `yDomain`: the lowest lower y edge and the highest upper y edge. */
  function YDomain(tiles: seq<Tile>): (r: seq<real>)
    requires |tiles| > 0
    ensures |r| == 2 && Least(YLows(tiles), r[0]) && Greatest(YHighs(tiles), r[1])
  {
    [Min(YLows(tiles)), Max(YHighs(tiles))]
  }

  /** Every tile lies inside the x and y domains. */
  lemma TilesInsideDomains(tiles: seq<Tile>, i: nat)
    requires i < |tiles|
    ensures XDomain(tiles)[0] <= tiles[i].xlow && tiles[i].xhigh <= XDomain(tiles)[1]
    ensures YDomain(tiles)[0] <= tiles[i].ylow && tiles[i].yhigh <= YDomain(tiles)[1]
  {
    assert XLows(tiles)[i] == tiles[i].xlow && XHighs(tiles)[i] == tiles[i].xhigh;
    assert YLows(tiles)[i] == tiles[i].ylow && YHighs(tiles)[i] == tiles[i].yhigh;
  }

  /**
   * The contents of the tiles with positive contents (the `filter` of
   * `zDomain`), as the set of values its extent reads.
   */
  function PositiveContents(tiles: seq<Tile>): (r: seq<real>)
    ensures forall v :: v in r <==> exists i :: 0 <= i < |tiles| && tiles[i].z > 0.0 && tiles[i].z == v
    ensures |r| <= |tiles|
    decreases |tiles|
  {
    if |tiles| == 0 then []
    else
      var rest := PositiveContents(tiles[1..]);
      assert forall i :: 1 <= i < |tiles| ==> tiles[i] == tiles[1..][i - 1];
      assert forall i :: 0 <= i < |tiles| - 1 ==> tiles[1..][i] == tiles[i + 1];
      if tiles[0].z > 0.0 then [tiles[0].z] + rest else rest
  }

  /**
   * `zDomain` as written: the extent of the positive contents, with
   * `(zmax - zmin) / 2` as the middle stop. `None` when no tile has positive
   * contents (the extent of an empty array).
   */
  function ZDomainAsWritten(tiles: seq<Tile>): (r: Option<seq<real>>)
    ensures r.Some? <==> |PositiveContents(tiles)| > 0
    ensures r.Some? ==> r.value == ZStopsAsWritten(Min(PositiveContents(tiles)), Max(PositiveContents(tiles)))
  {
    var positive := PositiveContents(tiles);
    if |positive| == 0 then None
    else Some(ZStopsAsWritten(Min(positive), Max(positive)))
  }

  /**
   * `zDomain` as intended: the least and the greatest positive contents with
   * the point halfway between them as the middle stop.
   */
  function ZDomain(tiles: seq<Tile>): (r: Option<seq<real>>)
    ensures r.Some? <==> exists i :: 0 <= i < |tiles| && tiles[i].z > 0.0
    ensures r.Some? ==> |r.value| == 3 && r.value[0] <= r.value[1] <= r.value[2]
    ensures r.Some? ==> Least(PositiveContents(tiles), r.value[0]) && Greatest(PositiveContents(tiles), r.value[2])
    ensures r.Some? ==> r.value[1] - r.value[0] == r.value[2] - r.value[1]
  {
    var positive := PositiveContents(tiles);
    assert forall i :: 0 <= i < |tiles| && tiles[i].z > 0.0 ==> tiles[i].z in positive;
    if |positive| == 0 then None
    else
      assert positive[0] in positive;
      Some(ZStops(Min(positive), Max(positive)))
  }

  /** Every positive content lies within the ends of the z domain. */
  lemma ZDomainCoversPositiveTiles(tiles: seq<Tile>, i: nat)
    requires i < |tiles| && tiles[i].z > 0.0
    ensures ZDomain(tiles).Some?
    ensures ZDomain(tiles).value[0] <= tiles[i].z <= ZDomain(tiles).value[2]
  {
    assert tiles[i].z in PositiveContents(tiles);
  }

  /** A tile without positive contents, wherever it is inserted, leaves the filtered contents as they were. */
  lemma {:induction false} NonPositiveTileFiltered(before: seq<Tile>, t: Tile, after: seq<Tile>)
    requires t.z <= 0.0
    ensures PositiveContents(before + [t] + after) == PositiveContents(before + after)
    decreases |before|
  {
    var with, without := before + [t] + after, before + after;
    if |before| == 0 {
      assert with[1..] == after == without;
    } else {
      NonPositiveTileFiltered(before[1..], t, after);
      assert with[1..] == before[1..] + [t] + after;
      assert without[1..] == before[1..] + after;
      assert with[0] == without[0];
    }
  }

  /** Such a tile therefore leaves the z domain as it was. */
  lemma NonPositiveTileIgnored(before: seq<Tile>, t: Tile, after: seq<Tile>)
    requires t.z <= 0.0
    ensures ZDomain(before + [t] + after) == ZDomain(before + after)
    ensures ZDomainAsWritten(before + [t] + after) == ZDomainAsWritten(before + after)
  {
    NonPositiveTileFiltered(before, t, after);
  }

  /**
   * For two tiles with contents 10 and 12 the middle stop as written is 1,
   * below every content, where 11 was meant; the chart's z extent over that
   * domain then starts at 1.
   */
  lemma ZDomainAsWrittenMisplacesMiddle()
    ensures ZDomainAsWritten([Tile(0.0, 1.0, 0.0, 1.0, 10.0), Tile(1.0, 2.0, 0.0, 1.0, 12.0)]) == Some([10.0, 1.0, 12.0])
    ensures ZDomain([Tile(0.0, 1.0, 0.0, 1.0, 10.0), Tile(1.0, 2.0, 0.0, 1.0, 12.0)]) == Some([10.0, 11.0, 12.0])
  {
    var tiles := [Tile(0.0, 1.0, 0.0, 1.0, 10.0), Tile(1.0, 2.0, 0.0, 1.0, 12.0)];
    assert tiles[1..] == [tiles[1]];
    assert PositiveContents(tiles[1..][1..]) == [];
    assert PositiveContents(tiles) == [10.0, 12.0];
    ZStopsAsWrittenMisplacesMiddle();
  }

  /**
   * The histogram as a chart registers it, given at least one tile with
   * positive contents: `draw` and `name` are defined and all three domain
   * methods return arrays, the z one with the stops as written.
   */
  function AsPlotable(name: string, tiles: seq<Tile>): (p: Axes.Plotable)
    requires |tiles| > 0 && exists i :: 0 <= i < |tiles| && tiles[i].z > 0.0
    ensures Axes.Accepts(p) && p.name == Some(name)
    ensures p.xDomain == Some(XDomain(tiles)) && p.yDomain == Some(YDomain(tiles))
    ensures p.zDomain == ZDomainAsWritten(tiles) && p.zDomain.Some?
  {
    var i :| 0 <= i < |tiles| && tiles[i].z > 0.0;
    assert tiles[i].z in PositiveContents(tiles);
    Axes.Plotable(Some(name), true, Some(XDomain(tiles)), Some(YDomain(tiles)), ZDomainAsWritten(tiles))
  }

  /**
   * Registered alone, a histogram with contents 10 and 12 gets the z scale
   * [1, 5.5, 12]: `setDomain` takes the extent of the stops [10, 1, 12] the
   * plotable reports and applies the same formula to it again.
   */
  lemma ChartZDomainStretches()
    ensures var tiles := [Tile(0.0, 1.0, 0.0, 1.0, 10.0), Tile(1.0, 2.0, 0.0, 1.0, 12.0)];
      tiles[0].z > 0.0 && Axes.ZDomainOf(map["h" := AsPlotable("h", tiles)]) == [1.0, 5.5, 12.0]
  {
    var tiles := [Tile(0.0, 1.0, 0.0, 1.0, 10.0), Tile(1.0, 2.0, 0.0, 1.0, 12.0)];
    assert tiles[0].z > 0.0;
    var p := AsPlotable("h", tiles);
    ZDomainAsWrittenMisplacesMiddle();
    assert p.zDomain.value == [10.0, 1.0, 12.0];
    var m := map["h" := p];
    assert Axes.ZValues(m) == map["h" := [10.0, 1.0, 12.0]];
    DomainOfSingle("h", [10.0, 1.0, 12.0]);
    ZStopsAsWrittenMisplacesMiddle();
  }
}
