/**
 * Extents of numeric data, as the charts take them with `d3.extent` and `d3.max`,
 * and the accumulation of extents over a name-keyed registry of plotables.
 * Only non-empty numeric sequences are considered.
 */
module Extent {

  /** A non-empty array of numbers, as a plotable's `xDomain()` returns it. */
  type Values = s: seq<real> | |s| > 0 witness [0.0]

  function Abs(x: real): (r: real)
    ensures r >= 0.0 && (r == x || r == -x)
  {
    if x < 0.0 then -x else x
  }

  /** `m` is the least element of `s`. */
  ghost predicate Least(s: seq<real>, m: real)
  {
    m in s && forall i :: 0 <= i < |s| ==> m <= s[i]
  }

  /** `m` is the greatest element of `s`. */
  ghost predicate Greatest(s: seq<real>, m: real)
  {
    m in s && forall i :: 0 <= i < |s| ==> s[i] <= m
  }

  function Min(s: seq<real>): (m: real)
    requires |s| > 0
    ensures Least(s, m)
  {
    if |s| == 1 then s[0]
    else
      var rest := Min(s[1..]);
      assert forall i :: 1 <= i < |s| ==> s[i] == s[1..][i - 1];
      if s[0] <= rest then s[0] else rest
  }

  function Max(s: seq<real>): (m: real)
    requires |s| > 0
    ensures Greatest(s, m)
  {
    if |s| == 1 then s[0]
    else
      var rest := Max(s[1..]);
      assert forall i :: 1 <= i < |s| ==> s[i] == s[1..][i - 1];
      if rest <= s[0] then s[0] else rest
  }

  /** `d3.extent`: the pair [least, greatest] of a non-empty array. */
  function Span(s: seq<real>): (r: seq<real>)
    requires |s| > 0
    ensures |r| == 2 && Least(s, r[0]) && Greatest(s, r[1])
  {
    [Min(s), Max(s)]
  }

  /**
   * The interval [lo, hi] widened on both sides by five per cent of the
   * distance between its ends, for aesthetics.
   */
  function Padded(lo: real, hi: real): (r: seq<real>)
    ensures |r| == 2 && r[0] <= lo && hi <= r[1]
    ensures lo - r[0] == r[1] - hi && 20.0 * (lo - r[0]) == Abs(lo - hi)
    ensures lo <= hi ==> r[0] <= r[1] && r[1] - r[0] == 1.1 * (hi - lo)
  {
    var padding := 0.05 * Abs(lo - hi);
    [lo - padding, hi + padding]
  }

  /** The entries of `m` whose keys are in `keys`. */
  function Restrict(m: map<string, Values>, keys: set<string>): (r: map<string, Values>)
    ensures r.Keys == m.Keys * keys
    ensures forall k :: k in r ==> r[k] == m[k]
  {
    map k | k in m && k in keys :: m[k]
  }

  /** Every number listed in `m` lies in [lo, hi]. */
  ghost predicate Bounded(m: map<string, Values>, lo: real, hi: real)
  {
    forall k, v :: k in m && v in m[k] ==> lo <= v <= hi
  }

  /** `x` is one of the numbers listed in `m`. */
  ghost predicate Listed(m: map<string, Values>, x: real)
  {
    exists k :: k in m && x in m[k]
  }

  /**
   * The accumulator `acc` of an extent loop over `m`: empty while nothing is listed,
   * otherwise the exact [least, greatest] pair of everything listed.
   */
  ghost predicate IsSpan(m: map<string, Values>, acc: seq<real>)
  {
    if m.Keys == {} then acc == []
    else |acc| == 2 && Bounded(m, acc[0], acc[1]) && Listed(m, acc[0]) && Listed(m, acc[1])
  }

  /**
   * The domain a chart sets from `m`: [0, 1] when nothing is listed, otherwise
   * the exact [least, greatest] pair of everything listed.
   */
  ghost predicate IsDomain(m: map<string, Values>, d: seq<real>)
  {
    if m.Keys == {} then d == [0.0, 1.0]
    else |d| == 2 && Bounded(m, d[0], d[1]) && Listed(m, d[0]) && Listed(m, d[1])
  }

  /** One step of `domain = d3.extent(values.concat(domain))`. */
  function Accumulate(acc: seq<real>, vals: Values): (r: seq<real>)
    ensures |r| == 2
    ensures forall v :: v in vals + acc ==> r[0] <= v <= r[1]
    ensures r[0] in vals + acc && r[1] in vals + acc
  {
    Span(vals + acc)
  }

  /** The default taken when the accumulated extent is empty. */
  function OrDefault(acc: seq<real>): (d: seq<real>)
  {
    if acc == [] then [0.0, 1.0] else acc
  }

  /** Folding one more registry entry into an extent accumulator keeps it exact. */
  lemma {:induction false} AccumulateStep(m: map<string, Values>, done: set<string>, k: string, acc: seq<real>)
    requires IsSpan(Restrict(m, done), acc)
    requires k !in done
    ensures IsSpan(Restrict(m, done + {k}), if k in m then Accumulate(acc, m[k]) else acc)
  {
    var before, after := Restrict(m, done), Restrict(m, done + {k});
    if k !in m {
      assert after == before;
    } else {
      var r := Accumulate(acc, m[k]);
      assert k in after.Keys;
      forall j, v | j in after && v in after[j]
        ensures r[0] <= v <= r[1]
      {
        if j == k {
          assert v in m[k] + acc;
        } else {
          assert j in before;
          if before.Keys == {} { assert false; }
          assert acc[0] <= v <= acc[1];
          assert acc[0] in m[k] + acc && acc[1] in m[k] + acc;
        }
      }
      assert Listed(after, r[0]) by {
        if r[0] in m[k] {
          assert k in after && r[0] in after[k];
        } else {
          assert before.Keys != {} && r[0] in acc;
          var j :| j in before && r[0] in before[j];
          assert j in after && after[j] == before[j];
        }
      }
      assert Listed(after, r[1]) by {
        if r[1] in m[k] {
          assert k in after && r[1] in after[k];
        } else {
          assert before.Keys != {} && r[1] in acc;
          var j :| j in before && r[1] in before[j];
          assert j in after && after[j] == before[j];
        }
      }
    }
  }

  /** Once every key has been folded in, the accumulator (with its default) is the domain. */
  lemma DomainOfCompleteSpan(m: map<string, Values>, keys: set<string>, acc: seq<real>)
    requires m.Keys <= keys
    requires IsSpan(Restrict(m, keys), acc)
    ensures IsDomain(m, OrDefault(acc))
  {
    assert Restrict(m, keys) == m;
  }

  /** The domain of a map of value lists is determined: it is the least and the greatest value. */
  lemma DomainUnique(m: map<string, Values>, d: seq<real>, e: seq<real>)
    requires IsDomain(m, d) && IsDomain(m, e)
    ensures d == e
  {
    if m.Keys != {} {
      forall i | 0 <= i < 2
        ensures d[i] == e[i]
      {
        var j :| j in m && d[i] in m[j];
        var k :| k in m && e[i] in m[k];
        assert e[0] <= d[i] <= e[1] && d[0] <= e[i] <= d[1];
      }
    }
  }

  /** Some key of a non-empty map (the fold below takes its keys in this order). */
  ghost function Pick(m: map<string, Values>): (k: string)
    requires m.Keys != {}
    ensures k in m
  {
    var k :| k in m; k
  }

  /** The extent of everything listed in `m`, folding its entries in one fixed order. */
  ghost function SpanOf(m: map<string, Values>): (r: seq<real>)
    ensures |r| == if m.Keys == {} then 0 else 2
    decreases |m.Keys|
  {
    if m.Keys == {} then []
    else
      var k := Pick(m);
      assert (m - {k}).Keys < m.Keys;
      Accumulate(SpanOf(m - {k}), m[k])
  }

  /**
   * The reference domain of `m`: the least and the greatest listed number,
   * or [0, 1] when nothing is listed.
   */
  ghost function DomainOf(m: map<string, Values>): (d: seq<real>)
    ensures |d| == 2
    ensures m.Keys == {} ==> d == [0.0, 1.0]
  {
    OrDefault(SpanOf(m))
  }

  /** The fold is exact whatever order it takes the entries in. */
  lemma {:induction false} SpanOfIsSpan(m: map<string, Values>)
    ensures IsSpan(m, SpanOf(m))
    decreases |m.Keys|
  {
    if m.Keys != {} {
      var k := Pick(m);
      var rest := m - {k};
      assert rest.Keys < m.Keys;
      SpanOfIsSpan(rest);
      assert Restrict(m, rest.Keys) == rest;
      AccumulateStep(m, rest.Keys, k, SpanOf(rest));
      assert Restrict(m, rest.Keys + {k}) == m;
    }
  }

  /** `DomainOf` bounds everything listed and its ends are listed values. */
  lemma DomainOfIsDomain(m: map<string, Values>)
    ensures IsDomain(m, DomainOf(m))
  {
    SpanOfIsSpan(m);
    DomainOfCompleteSpan(m, m.Keys, SpanOf(m));
    assert Restrict(m, m.Keys) == m;
  }

  /** With a single entry, the domain is that entry's own extent. */
  lemma DomainOfSingle(k: string, vals: Values)
    ensures DomainOf(map[k := vals]) == Span(vals)
  {
    var m := map[k := vals];
    var s := Span(vals);
    assert k in m && m[k] == vals && s[0] in m[k] && s[1] in m[k];
    assert Bounded(m, s[0], s[1]) by {
      forall j, v | j in m && v in m[j]
        ensures s[0] <= v <= s[1]
      {
        var i :| 0 <= i < |vals| && vals[i] == v;
      }
    }
    DomainOfIsDomain(m);
    DomainUnique(m, DomainOf(m), s);
  }

  /**
   * The loop of a chart's `setDomain` for one axis, over the domain arrays
   * of the registered plotables by name: each step widens the running extent by one
   * plotable's array; when no plotable contributed, [0, 1].
   */
  method ScanDomain(arrays: map<string, Values>) returns (domain: seq<real>)
    ensures domain == DomainOf(arrays)
  {
    var extent: seq<real> := [];
    var todo := arrays.Keys;
    ghost var done: set<string> := {};
    while todo != {}
      invariant todo + done == arrays.Keys && todo !! done
      invariant IsSpan(Restrict(arrays, done), extent)
      decreases todo
    {
      var name :| name in todo;
      AccumulateStep(arrays, done, name, extent);
      extent := Accumulate(extent, arrays[name]);
      todo := todo - {name};
      done := done + {name};
    }
    DomainOfCompleteSpan(arrays, done, extent);
    domain := OrDefault(extent);
    DomainOfIsDomain(arrays);
    DomainUnique(arrays, domain, DomainOf(arrays));
  }

  // ---------------------------------------------------------------------------
  // Colour-scale stops
  // ---------------------------------------------------------------------------

  /**
   * The three stops of the diverging colour scale for z values in [lo, hi]:
   * the ends and the point halfway between them.
   */
  function ZStops(lo: real, hi: real): (r: seq<real>)
    ensures |r| == 3 && r[0] == lo && r[2] == hi
    ensures r[1] - lo == hi - r[1]
    ensures lo <= hi ==> r[0] <= r[1] <= r[2]
  {
    [lo, lo + (hi - lo) / 2.0, hi]
  }

  /** The stops as the newest build writes them: the middle one is half the width of the range. */
  function ZStopsAsWritten(lo: real, hi: real): (r: seq<real>)
    ensures |r| == 3 && r[0] == lo && r[2] == hi
    ensures r[1] == ZStops(lo, hi)[1] - lo
  {
    [lo, (hi - lo) / 2.0, hi]
  }

  /**
   * For z values in [10, 12] the middle stop as written is 1, below the lower
   * end, where the halfway point 11 was meant; its extent then reaches down to 1.
   */
  lemma ZStopsAsWrittenMisplacesMiddle()
    ensures ZStopsAsWritten(10.0, 12.0) == [10.0, 1.0, 12.0]
    ensures ZStops(10.0, 12.0) == [10.0, 11.0, 12.0]
    ensures Span(ZStopsAsWritten(10.0, 12.0)) == [1.0, 12.0]
  {
    var r := ZStopsAsWritten(10.0, 12.0);
    assert Least(r, 1.0) && Greatest(r, 12.0);
  }

  /** The stops as the older source revision writes them: the middle one is half the upper end. */
  function HalvedTopStops(lo: real, hi: real): (r: seq<real>)
    ensures |r| == 3 && r[0] == lo && r[2] == hi
    ensures 2.0 * r[1] == hi
  {
    [lo, hi / 2.0, hi]
  }

  /** Those stops are the halfway stops exactly when the range starts at zero. */
  lemma HalvedTopStopsMidpoint(lo: real, hi: real)
    ensures HalvedTopStops(lo, hi) == ZStops(lo, hi) <==> lo == 0.0
  {
    if HalvedTopStops(lo, hi) == ZStops(lo, hi) {
      assert HalvedTopStops(lo, hi)[1] == ZStops(lo, hi)[1];
    }
  }
}
