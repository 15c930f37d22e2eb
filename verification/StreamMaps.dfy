/**
 Which header and trailer map the pointers of the filter lead Go to. headers_ is cleared only by a handler
 that passes the headers on at once; headers that leave later, when Go lets go of them, stay in reach.
 */
module StreamMaps {
  import opened StreamTypes
  import opened StreamSpec
  import opened StreamRuns
  import opened StreamSafety
  import opened StreamDestroy
  import opened StreamWitnesses

  predicate InHeaders(phase: Phase) {
    phase.DecodeHeader? || phase.EncodeHeader?
  }

  // ---------- what the events say ----------

  /** One event: headers that were shown are in reach, unless Go let a frame of headers through at once. */
  function Leaves(f: FilterView, e: Event, g: FilterView, before: Option<HeaderMap>): Option<HeaderMap> {
    if |g.t.calls| > |f.t.calls| && InHeaders(g.t.calls[|f.t.calls|].phase) then
      var c := g.t.calls[|f.t.calls|];
      if c.answer.Continue? && !e.PostedEvent? then None else c.headers
    else before
  }

  /** The headers a run leaves in reach. */
  function HeadersLeft(run: Run): Option<HeaderMap>
    requires run.Shaped()
    decreases |run.events|
  {
    if run.events == [] then None
    else Leaves(run.Before().Last(), run.LastEvent(), run.Last(), HeadersLeft(run.Before()))
  }

  /** The trailers in reach: those of the last direction that the filter was in and that had some. */
  function TrailersLeft(f: FilterView): Option<HeaderMap> {
    if f.entered && f.enc.seenTrailers then Some(ResponseTrailers)
    else if f.dec.seenTrailers then Some(RequestTrailers) else None
  }

  // ---------- handlers ----------

  /** Calls were added, none of them with headers, and headers_ stayed. */
  ghost predicate SameHeaders(l: Lane, g: Lane) {
    && g.t.headers == l.t.headers && l.t.calls <= g.t.calls
    && forall i :: |l.t.calls| <= i < |g.t.calls| ==> !InHeaders(g.t.calls[i].phase)
  }

  lemma DataHeaders(l: Lane, data: Bytes, end: bool)
    ensures SameHeaders(l, DoDataGo(l, data, end).0) && DoDataGo(l, data, end).0.t.trailers == l.t.trailers
  {
    hide HandleData, KeepsInput, Store.Push;
  }

  lemma TrailerHeaders(l: Lane, m: HeaderMap)
    ensures SameHeaders(l, DoTrailerGo(l, m).0) && DoTrailerGo(l, m).0.t.trailers == l.t.trailers
  {
    hide HandleTrailer, KeepsInput;
  }

  lemma FrameHeaders(l: Lane, data: Bytes, end: bool)
    ensures SameHeaders(l, DoData(l, data, end).0) && DoData(l, data, end).0.t.trailers == l.t.trailers
  {
    hide DoDataGo, KeepsInput;
    DataHeaders(l, data, end);
    DataHeaders(l, data, true);
    DataHeaders(l.(p := l.p.(s := l.p.s.TakeBuffer())), l.p.s.Buffered() + data, true);
  }

  lemma BufferedHeaders(l: Lane, end: bool)
    ensures var g := DoBufferedDataGo(l, end).0; SameHeaders(l, g) && g.t.trailers == l.t.trailers
  {
    hide DoDataGo, KeepsInput;
    if l.p.s.buffer.Some? { DataHeaders(l.(p := l.p.(s := l.p.s.TakeBuffer())), l.p.s.buffer.value, end); }
  }

  lemma AllTrailerHeaders(l: Lane, m: HeaderMap)
    ensures var g := DoAllDataTrailerGo(l, m).0; SameHeaders(l, g) && g.t.trailers == l.t.trailers
  {
    hide DoBufferedDataGo, DoTrailerGo, KeepsInput;
    BufferedHeaders(l, false);
    TrailerHeaders(l, m);
    TrailerHeaders(DoBufferedDataGo(l, false).0, m);
  }

  lemma DoTrailerHeaders(l: Lane, m: HeaderMap)
    ensures SameHeaders(l, DoTrailer(l, m).0) && DoTrailer(l, m).0.t.trailers == Some(m)
  {
    hide DoAllDataTrailerGo, DoTrailerGo, KeepsInput;
    var l1 := Lane(l.d, l.p.Check(!l.p.endStream && !l.p.doEndStream), l.t.(trailers := Some(m)));
    TrailerHeaders(l1, m);
    AllTrailerHeaders(l1, m);
  }

  lemma ResumeHeaders(l: Lane)
    ensures var g := ResumeData(l).0; SameHeaders(l, g) && g.t.trailers == l.t.trailers
  {
    hide DoBufferedDataGo, ContinueDoData, KeepsInput;
    BufferedHeaders(l, l.p.endStream);
  }

  lemma CompletionHeaders(l: Lane, status: GolangStatus)
    ensures var g := ContinueStream(l, status); SameHeaders(l, g) && g.t.trailers == l.t.trailers
  {
    hide ApplyStatus, ResumeData, DoTrailerGo, ContinueProcessing, KeepsInput;
    var l1 := l.(p := ApplyStatus(l.p, status));
    ResumeHeaders(l1);
    var l2 := ResumeData(l1).0;
    if l2.t.trailers.Some? { TrailerHeaders(l2, l2.t.trailers.value); }
  }

  lemma HeadersHandled(l: Lane, m: HeaderMap, end: bool)
    ensures var g := DoHeaders(l, m, end).0;
            && g.t.calls == l.t.calls + [GoCall(PhaseOf(l.d, ProcessingHeader), end, [], Some(m), Answer(l.t))]
            && g.t.headers == (if Answer(l.t).Continue? then None else Some(m)) && g.t.trailers == l.t.trailers
  {
    hide KeepsInput, Grows, Store.BufferEmpty;
    match Answer(l.t)
    case Continue =>
    case StopAndBuffer =>
    case StopAndBufferWatermark =>
    case _ =>
  }

  // ---------- every event ----------

  /** The pointers of the filter lead where the events say. */
  predicate Leads(f: FilterView, headers: Option<HeaderMap>) {
    f.t.headers == headers && f.t.trailers == TrailersLeft(f)
  }

  lemma RequestBegins(f: FilterView, end: bool, headers: Option<HeaderMap>)
    requires Leads(f, headers) && !f.entered
    ensures Leads(OnDecodeHeaders(f, end), Leaves(f, DecodeHeadersEvent(end), OnDecodeHeaders(f, end), headers))
  {
    hide DoHeaders;
    HeadersHandled(Lane(Decode, f.dec.(endStream := end, started := true), f.t), RequestHeaders, end);
  }

  lemma RequestLeads(f: FilterView, e: Event, headers: Option<HeaderMap>)
    requires Leads(f, headers) && !f.entered && (e.DecodeDataEvent? || e.DecodeTrailersEvent?)
    ensures Leads(Step(f, e), Leaves(f, e, Step(f, e), headers))
  {
    hide DoData, DoTrailer;
    match e
    case DecodeDataEvent(data, end) => FrameHeaders(Lane(Decode, Received(f.dec, data, end), f.t), data, end);
    case DecodeTrailersEvent => DoTrailerHeaders(Lane(Decode, f.dec.(seenTrailers := true), f.t), RequestTrailers);
  }

  lemma EnteringLeads(f: FilterView, end: bool)
    requires Leads(f, f.t.headers) && !f.entered && !f.enc.seenTrailers
    ensures var g := EnterEncoding(f, end);
            && |g.t.calls| == |f.t.calls| + 1 && InHeaders(g.t.calls[|f.t.calls|].phase)
            && g.t.calls[|f.t.calls|].headers == Some(ResponseHeaders)
            && Leads(g, if g.t.calls[|f.t.calls|].answer.Continue? then None else Some(ResponseHeaders))
  {
    hide DoHeaders;
    HeadersHandled(f.At(Encode), ResponseHeaders, end);
  }

  lemma ResponseLeads(f: FilterView, end: bool, headers: Option<HeaderMap>)
    requires Leads(f, headers) && !f.entered && !f.enc.seenTrailers
    ensures Leads(OnEncodeHeaders(f, end), Leaves(f, EncodeHeadersEvent(end), OnEncodeHeaders(f, end), headers))
  {
    hide EnterEncoding;
    var g := f.(enc := f.enc.(endStream := end, started := true));
    EnteringLeads(g, end);
    EnteringLeads(Abandon(g), end);
  }

  lemma ReplyLeads(f: FilterView, e: Event, headers: Option<HeaderMap>)
    requires Leads(f, headers) && (f.entered <==> !f.waiting) && (e.EncodeDataEvent? || e.EncodeTrailersEvent?)
    ensures Leads(Step(f, e), Leaves(f, e, Step(f, e), headers))
  {
    hide DoData, DoTrailer;
    match e
    case EncodeDataEvent(data, end) => FrameHeaders(Lane(Encode, Received(f.enc, data, end), f.t), data, end);
    case EncodeTrailersEvent => DoTrailerHeaders(Lane(Encode, f.enc.(seenTrailers := true), f.t), ResponseTrailers);
  }

  lemma CompletionLeads(f: FilterView, headers: Option<HeaderMap>)
    requires Leads(f, headers) && f.t.queue != [] && (f.destroyed || !f.waiting)
    ensures Leads(OnPosted(f), Leaves(f, PostedEvent, OnPosted(f), headers))
  {
    hide ContinueStream;
    var g := f.(t := f.t.(queue := f.t.queue[1..]));
    if !f.destroyed && f.t.queue[0].Resume? {
      CompletionHeaders(g.At(g.Cur()), f.t.queue[0].status);
      StreamKeepsSeen(g.At(g.Cur()), f.t.queue[0].status);
    }
  }

  lemma StreamKeepsSeen(l: Lane, status: GolangStatus)
    ensures ContinueStream(l, status).p.seenTrailers == l.p.seenTrailers && ContinueStream(l, status).d == l.d
  {
    hide ContinueStream;
  }

  lemma ReleaseLeads(f: FilterView, headers: Option<HeaderMap>)
    requires Leads(f, headers) && f.t.queue != [] && !f.destroyed && f.waiting && !f.entered
    requires f.localHeaders == Some(ResponseHeaders)
    requires f.localTrailers == if f.enc.seenTrailers then Some(ResponseTrailers) else None
    ensures Leads(OnPosted(f), Leaves(f, PostedEvent, OnPosted(f), headers))
  {
    hide ContinueStream;
    var q := f.(t := f.t.(queue := f.t.queue[1..]));
    var l := EncodeParkedHeaders(Release(q));
    assert l.t.calls[|f.t.calls|].phase == EncodeHeader;
    CompletionHeaders(l, Answer(q.t));
    StreamKeepsSeen(l, Answer(q.t));
  }

  /** Where a live filter stands when an event comes. */
  lemma Standing(f: FilterView, e: Event)
    requires Inv(f) && Enabled(f, e) && !f.destroyed
    ensures e.DecodeHeadersEvent? || e.DecodeDataEvent? || e.DecodeTrailersEvent? || e.EncodeHeadersEvent? ==>
              !f.entered && !f.enc.seenTrailers
    ensures e.EncodeDataEvent? || e.EncodeTrailersEvent? ==> (f.entered <==> !f.waiting)
    ensures f.waiting ==>
              && !f.entered && f.localHeaders == Some(ResponseHeaders)
              && f.localTrailers == if f.enc.seenTrailers then Some(ResponseTrailers) else None
  {
    hide Grammar, GoodCalls, LegalCalls, TrafficInv, ProcInv;
  }

  lemma StepLeads(f: FilterView, e: Event, headers: Option<HeaderMap>)
    requires Inv(f) && Enabled(f, e) && Leads(f, headers)
    ensures Leads(Step(f, e), Leaves(f, e, Step(f, e), headers))
  {
    hide Inv, OnDecodeHeaders, OnDecodeData, OnDecodeTrailers;
    hide OnEncodeHeaders, OnEncodeData, OnEncodeTrailers, OnPosted;
    if !f.destroyed { Standing(f, e); }
    match e
    case DestroyEvent =>
    case GoCompletesEvent(_) =>
    case PostedEvent =>
      if f.destroyed || !f.waiting { CompletionLeads(f, headers); } else { ReleaseLeads(f, headers); }
    case DecodeHeadersEvent(end) => RequestBegins(f, end, headers);
    case EncodeHeadersEvent(end) => ResponseLeads(f, end, headers);
    case EncodeDataEvent(_, _) => ReplyLeads(f, e, headers);
    case EncodeTrailersEvent => ReplyLeads(f, e, headers);
    case _ => RequestLeads(f, e, headers);
  }

  // ---------- whole runs ----------

  /**
   On every run of every legal filter: headers_ leads to the headers Go was shown last, and to none if a frame
   of headers was let through at once; trailers_ leads to the trailers that came last.
   */
  lemma {:induction false} RunLeads(go: Oracle, run: Run)
    requires Valid(go, run)
    ensures run.Last().t.headers == HeadersLeft(run) && run.Last().t.trailers == TrailersLeft(run.Last())
    decreases |run.events|
  {
    hide Inv, Step, Enabled, LegalCalls, GoesWrong, Leaves;
    if run.events != [] {
      DropLast(InitFilter(go), run);
      RunLeads(go, run.Before());
      RunSafe(go, run.Before());
      StepLeads(run.Before().Last(), run.LastEvent(), HeadersLeft(run.Before()));
    }
  }

  /**
   So what Go code that owes its completion may still do to headers is decided by how they were settled: in
   every phase it reaches the headers of its direction, unless they were let through at once. Headers
   that Go let go of later have gone out by then, and are still written to.
   */
  lemma HeadersInReach(go: Oracle, run: Run)
    requires Valid(go, run) && run.Last().t.running && !run.Last().destroyed
    ensures ApiStatus(run.Last(), UseHeaders) == (if HeadersLeft(run).Some? then CAPIOK else CAPIInvalidPhase)
    ensures ApiStatus(run.Last(), UseTrailers) ==
            if TrailersLeft(run.Last()).Some? then CAPIOK else CAPIInvalidPhase
  {
    hide Inv;
    RunSafe(go, run);
    RunLeads(go, run);
    HeldApi(run.Last(), Reply);
  }

  // ---------- headers that have left ----------

  /** Go kept the headers, and has let go of them: they have left the filter. */
  function LetGo(): FilterView {
    var f := Asked(Later);
    f.(dec := f.dec.(state := WaitingData, s := f.dec.s.(out := [Headers(false)])), t := f.t.(running := false))
  }

  lemma HeadersLetGo()
    ensures var f := Asked(Later);
            Link(f.(t := f.t.(running := false, queue := [Resume(Continue)])), PostedEvent, LetGo())
  {
    assert [] + [Headers(false)] == [Headers(false)] && [Resume(Continue)][1..] == [];
  }

  /** And then Go holds a chunk. */
  function HoldsChunk(body: Bytes): FilterView {
    var f := LetGo();
    f.(dec := f.dec.(state := ProcessingData,
                     s := f.dec.s.(recv := body, list := ListView([body], Wrap(|body|)),
                                   hist := [Piece(body, true, Held)])),
       t := f.t.(running := true, calls := f.t.calls + [GoCall(DecodeData, false, body, None, Running)]))
  }

  lemma ChunkHeld(body: Bytes)
    ensures Link(LetGo(), DecodeDataEvent(body, false), HoldsChunk(body))
  {
    assert [] + body == body && [] + [body] == [body] && [] + [Piece(body, true, Held)] == [Piece(body, true, Held)];
  }

  /**
   A run, for any chunk, after which the request headers have left the filter and Go, which holds the chunk,
   is still let through to them.
   */
  lemma HeadersAfterTheyLeft(body: Bytes) returns (run: Run)
    ensures Valid(Later, run) && run.Last().t.running && run.Last().dec.s.out == [Headers(false)]
    ensures run.events == [DecodeHeadersEvent(false), GoCompletesEvent(Resume(Continue)), PostedEvent,
                           DecodeDataEvent(body, false)]
    ensures ApiStatus(run.Last(), UseHeaders) == CAPIOK && ApiMap(run.Last(), UseHeaders) == Some(RequestHeaders)
  {
    hide Link;
    var f := Asked(Later);
    run := Start(Later);
    HeadersShown(Later);
    run := Extend(Later, run, DecodeHeadersEvent(false), f);
    GoCompletesNow(f, Resume(Continue));
    run := Extend(Later, run, GoCompletesEvent(Resume(Continue)),
                  f.(t := f.t.(running := false, queue := [Resume(Continue)])));
    HeadersLetGo();
    run := Extend(Later, run, PostedEvent, LetGo());
    ChunkHeld(body);
    run := Extend(Later, run, DecodeDataEvent(body, false), HoldsChunk(body));
  }
}
