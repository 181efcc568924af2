/**
 * The brush-zoom / "Clear zoom" state machine that every zooming chart
 * revision shares. `D` is what the brush sets: one x-domain, or a pair of x-
 * and y-domains. The clear button exists exactly while `button` holds; the
 * domain cached when it was created is `original`.
 */
module Zoom {
  import opened Wrappers

  datatype State<D> = State(domain: D, original: Option<D>, button: bool)

  /** While the button exists there is a cached domain to restore. */
  ghost predicate Valid<D>(s: State<D>) {
    s.button ==> s.original.Some?
  }

  /**
   * The end of a brush stroke, given the brush extent or `None` for an empty
   * brush. An empty brush does nothing. Otherwise, if no clear button exists,
   * the current domain is cached and the button created; then the domain
   * becomes the brush extent.
   */
  function BrushEnd<D>(s: State<D>, brush: Option<D>): (r: State<D>)
    ensures brush.None? ==> r == s
    ensures brush.Some? ==> r.domain == brush.value && r.button
    ensures brush.Some? && !s.button ==> r.original == Some(s.domain)
    ensures s.button ==> r.original == s.original
    ensures Valid(s) ==> Valid(r)
  {
    match brush
    case None => s
    case Some(extent) =>
      var cached := if s.button then s.original else Some(s.domain);
      State(extent, cached, true)
  }

  /** A click on the clear button: restore the cached domain and remove the button. */
  function Clear<D>(s: State<D>): (r: State<D>)
    requires s.button && Valid(s)
    ensures r.domain == s.original.value && !r.button && r.original == s.original
    ensures Valid(r)
  {
    State(s.original.value, s.original, false)
  }

  /** The state after a run of brush strokes. */
  function Session<D>(s: State<D>, brushes: seq<Option<D>>): State<D>
    decreases |brushes|
  {
    if |brushes| == 0 then s else Session(BrushEnd(s, brushes[0]), brushes[1..])
  }

  /** Once the button exists, further zooms never overwrite the cached domain. */
  lemma {:induction false} LaterZoomsKeepCache<D>(s: State<D>, brushes: seq<Option<D>>)
    requires s.button
    ensures Session(s, brushes).button && Session(s, brushes).original == s.original
    decreases |brushes|
  {
    if |brushes| > 0 {
      LaterZoomsKeepCache(BrushEnd(s, brushes[0]), brushes[1..]);
    }
  }

  /** A run of empty brush strokes changes nothing. */
  lemma {:induction false} EmptyBrushesChangeNothing<D>(s: State<D>, brushes: seq<Option<D>>)
    requires forall i :: 0 <= i < |brushes| ==> brushes[i].None?
    ensures Session(s, brushes) == s
    decreases |brushes|
  {
    if |brushes| > 0 {
      EmptyBrushesChangeNothing(s, brushes[1..]);
    }
  }

  /** Brush strokes never leave the button up without a cached domain. */
  lemma {:induction false} ValidSession<D>(s: State<D>, brushes: seq<Option<D>>)
    requires Valid(s)
    ensures Valid(Session(s, brushes))
    decreases |brushes|
  {
    if |brushes| > 0 {
      ValidSession(BrushEnd(s, brushes[0]), brushes[1..]);
    }
  }

  /**
   * Zoom then clear is a round trip: starting without a clear button, any run
   * of brush strokes that zooms at least once, followed by a click on the
   * button, restores the domain the chart had before the first zoom.
   */
  lemma {:induction false} ClearUndoesZooms<D>(s: State<D>, brushes: seq<Option<D>>)
    requires Valid(s) && !s.button
    requires exists i :: 0 <= i < |brushes| && brushes[i].Some?
    ensures Session(s, brushes).button && Valid(Session(s, brushes))
    ensures Clear(Session(s, brushes)).domain == s.domain
    decreases |brushes|
  {
    ValidSession(s, brushes);
    var s' := BrushEnd(s, brushes[0]);
    if brushes[0].Some? {
      LaterZoomsKeepCache(s', brushes[1..]);
    } else {
      var i :| 0 <= i < |brushes| && brushes[i].Some?;
      assert brushes[1..][i - 1].Some?;
      ClearUndoesZooms(s', brushes[1..]);
    }
  }
}
