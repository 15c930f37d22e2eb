/**
 Runs of the filter: the events the Envoy worker thread and the Go side may produce, in any
 interleaving, under the environment the program relies on.
 */
module StreamRuns {
  import opened StreamTypes
  import opened StreamSpec

  datatype Event =
    | DecodeHeadersEvent(end: bool)
    | DecodeDataEvent(data: Bytes, end: bool)
    | DecodeTrailersEvent
    | EncodeHeadersEvent(end: bool)
    | EncodeDataEvent(data: Bytes, end: bool)
    | EncodeTrailersEvent
    | DestroyEvent
    | PostedEvent
    | GoCompletesEvent(completion: Completion)

  function Step(f: FilterView, e: Event): FilterView {
    match e
    case DecodeHeadersEvent(end) => OnDecodeHeaders(f, end)
    case DecodeDataEvent(data, end) => OnDecodeData(f, data, end)
    case DecodeTrailersEvent => OnDecodeTrailers(f)
    case EncodeHeadersEvent(end) => OnEncodeHeaders(f, end)
    case EncodeDataEvent(data, end) => OnEncodeData(f, data, end)
    case EncodeTrailersEvent => OnEncodeTrailers(f)
    case DestroyEvent => OnDestroy(f)
    case PostedEvent => if f.t.queue != [] then OnPosted(f) else f
    case GoCompletesEvent(c) => GoCompletes(f, c).0
  }

  // ---------- what Go may answer ----------

  /** Go asks for more data only in a phase that has data to come. */
  predicate LegalAnswer(phase: Phase, end: bool, status: GolangStatus) {
    match status
    case Running | LocalReply | Continue => true
    case StopAndBuffer | StopAndBufferWatermark => !end
    case StopNoBuffer => !end && (phase.DecodeData? || phase.EncodeData?)
  }

  predicate LegalCall(c: GoCall) {
    LegalAnswer(c.phase, c.end, c.answer)
  }

  ghost predicate LegalCalls(calls: seq<GoCall>) {
    forall i :: 0 <= i < |calls| ==> LegalCall(calls[i])
  }

  /** The one completion of an asynchronous callback: a local reply, or a status that settles it. */
  predicate LegalCompletion(calls: seq<GoCall>, c: Completion) {
    calls != [] &&
    (c.Reply? ||
     (!Async(c.status) && LegalAnswer(calls[|calls| - 1].phase, calls[|calls| - 1].end, c.status)))
  }

  // ---------- what Envoy may do ----------

  predicate OpenForData(p: ProcView) {
    p.started && !p.StreamEnd()
  }

  predicate Enabled(f: FilterView, e: Event) {
    match e
    case DecodeHeadersEvent(_) => !f.destroyed && !f.dec.started && !f.enc.started
    case DecodeDataEvent(_, _) => !f.destroyed && OpenForData(f.dec) && !f.dec.replied && !f.enc.started
    case DecodeTrailersEvent =>
      !f.destroyed && OpenForData(f.dec) && !f.dec.replied && !f.enc.started
    case EncodeHeadersEvent(_) => !f.destroyed && !f.enc.started
    case EncodeDataEvent(_, _) => !f.destroyed && OpenForData(f.enc) && !f.enc.replied
    case EncodeTrailersEvent => !f.destroyed && OpenForData(f.enc) && !f.enc.replied
    case DestroyEvent => !f.destroyed
    case PostedEvent => f.t.queue != []
    case GoCompletesEvent(c) => f.t.running && LegalCompletion(f.t.calls, c)
  }

  // ---------- where the Envoy side goes wrong ----------

  /** Go asks to buffer the body of a direction whose trailers came with no data frame before them. */
  predicate AsksForNoBody(p: ProcView, status: GolangStatus) {
    p.state.ProcessingHeader? && p.seenTrailers && p.s.buffer.None? && status.StopAndBuffer?
  }

  /**
   Executing a completion dereferences a null data_buffer_: Go, as it settles the headers it held, or as
   it answers the headers of a parked response, asks for the body of a direction that has none.
   */
  predicate NullBody(f: FilterView, e: Event) {
    && e.PostedEvent? && f.t.queue != [] && !f.destroyed
    && if f.waiting then AsksForNoBody(f.enc.(state := ProcessingHeader), Answer(f.t))
       else f.t.queue[0].Resume? && AsksForNoBody(f.P(f.Cur()), f.t.queue[0].status)
  }

  /** The filter is destroyed before any headers reached it, and hands Go a null request. */
  predicate NoRequest(f: FilterView, e: Event) {
    e.DestroyEvent? && !f.destroyed && !f.t.hasReq
  }

  predicate GoesWrong(f: FilterView, e: Event) {
    NullBody(f, e) || NoRequest(f, e)
  }

  // ---------- runs ----------

  /** The events of a run, and the states before, between and after them. */
  datatype Run = Run(events: seq<Event>, states: seq<FilterView>) {
    predicate Shaped() { |states| == |events| + 1 }

    function Last(): FilterView
      requires Shaped()
    {
      states[|events|]
    }

    /** The run without its last event. */
    function Before(): Run
      requires Shaped() && events != []
    {
      Run(events[..|events| - 1], states[..|events|])
    }

    function LastEvent(): Event
      requires events != []
    {
      events[|events| - 1]
    }
  }

  /**
   The event was possible, it led where it leads, every answer of Go to it was legal, and it did not go
   wrong, which ends a run.
   */
  ghost predicate Link(f: FilterView, e: Event, g: FilterView) {
    Enabled(f, e) && g == Step(f, e) && LegalCalls(g.t.calls) && !GoesWrong(f, e)
  }

  ghost predicate From(f: FilterView, run: Run) {
    && run.Shaped() && run.states[0] == f
    && forall i {:trigger run.events[i], run.states[i]} :: 0 <= i < |run.events| ==>
         Link(run.states[i], run.events[i], run.states[i + 1])
  }

  /** A run of a new filter, with a Go side that answers as go says. */
  ghost predicate Valid(go: Oracle, run: Run) {
    From(InitFilter(go), run)
  }

  /** The part of a run between its i-th and its j-th state. */
  function Slice(run: Run, i: nat, j: nat): Run
    requires run.Shaped() && i <= j <= |run.events|
  {
    Run(run.events[i..j], run.states[i..j + 1])
  }

  lemma SliceFrom(f: FilterView, run: Run, i: nat, j: nat)
    requires From(f, run) && i <= j <= |run.events|
    ensures From(run.states[i], Slice(run, i, j)) && Slice(run, i, j).Last() == run.states[j]
  {
    hide Link;
    var part := Slice(run, i, j);
    forall k | 0 <= k < |part.events|
      ensures Link(part.states[k], part.events[k], part.states[k + 1])
    {
      assert part.events[k] == run.events[i + k] && part.states[k] == run.states[i + k];
    }
  }

  lemma DropLast(f: FilterView, run: Run)
    requires From(f, run) && run.events != []
    ensures From(f, run.Before()) && Link(run.Before().Last(), run.LastEvent(), run.Last())
  {
    hide Link;
    var n := |run.events| - 1;
    assert run.events[n] == run.LastEvent();
    forall i | 0 <= i < n
      ensures Link(run.Before().states[i], run.Before().events[i], run.Before().states[i + 1])
    {
      assert run.events[i] == run.Before().events[i];
    }
  }
}
