/**
 * `formatData` of the example page: it reshapes a dataset given as parallel
 * arrays (`values`, `binning`, `uncertainties`) into one record per value,
 * with the keys the bundled `Histogram` plotable reads.
 */
module Examples {
  import opened Wrappers

  /**
   * One bin record. `yerr` is `None` where the uncertainties array has no
   * entry: the record then has a `yerr` key holding `undefined`, not a
   * missing key, so the bundled `Histogram` constructor keeps it as it is.
   */
  datatype Record<U> = Record(xlow: real, xhigh: real, y: real, yerr: Option<U>)

  /** The record built for index `i`. */
  function RecordAt<U>(values: seq<real>, binning: seq<(real, real)>, uncertainties: seq<U>, i: nat): (r: Record<U>)
    requires i < |values| && i < |binning|
    ensures r.xlow == binning[i].0 && r.xhigh == binning[i].1 && r.y == values[i]
    ensures r.yerr.Some? <==> i < |uncertainties|
    ensures i < |uncertainties| ==> r.yerr.value == uncertainties[i]
  {
    Record(binning[i].0, binning[i].1, values[i],
      if i < |uncertainties| then Some(uncertainties[i]) else None)
  }

  /**
   * The loop of `formatData`, one record per value, in order. When the
   * binning array has fewer entries than there are values, reading the edges
   * of the missing bin throws a TypeError: the result is `None`.
   */
  method FormatData<U>(values: seq<real>, binning: seq<(real, real)>, uncertainties: seq<U>)
    returns (r: Option<seq<Record<U>>>)
    ensures r.None? <==> |binning| < |values|
    ensures r.Some? ==> |r.value| == |values|
    ensures r.Some? ==> forall i :: 0 <= i < |values| ==>
      r.value[i] == RecordAt(values, binning, uncertainties, i)
  {
    var rtn: seq<Record<U>> := [];
    var i := 0;
    while i < |values|
      invariant 0 <= i <= |values| && i <= |binning|
      invariant |rtn| == i
      invariant forall k :: 0 <= k < i ==> rtn[k] == RecordAt(values, binning, uncertainties, k)
    {
      if i >= |binning| {
        return None;
      }
      var bins := binning[i];
      var yerr := if i < |uncertainties| then Some(uncertainties[i]) else None;
      rtn := rtn + [Record(bins.0, bins.1, values[i], yerr)];
      i := i + 1;
    }
    return Some(rtn);
  }
}
