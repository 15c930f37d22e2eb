/**
 What Go asked for decides what it is shown. For every legal filter: the status that settled the last call
 into Go, be it the plain answer or the completion that was executed, tells whether the next chunk enters Go
 at once or waits for the end of the stream, and what the next filter has by then.
 */
module StreamAsks {
  import opened StreamTypes
  import opened StreamSpec
  import opened StreamRuns
  import opened StreamSafety
  import opened StreamStalls
  import opened StreamTransparency

  // ---------- the status that settled the last call ----------

  /** What one event tells: the answer to the last call it made, or else the completion it executed. */
  function Tells(f: FilterView, e: Event, g: FilterView, before: Option<GolangStatus>): Option<GolangStatus> {
    if |g.t.calls| > |f.t.calls| then Some(g.t.calls[|g.t.calls| - 1].answer)
    else if e.PostedEvent? && f.t.queue != [] && f.t.queue[0].Resume? && !f.waiting && !f.destroyed then
      Some(f.t.queue[0].status)
    else before
  }

  /** The last status Go gave on a run. */
  function Told(run: Run): Option<GolangStatus>
    requires run.Shaped()
    decreases |run.events|
  {
    if run.events == [] then None
    else Tells(run.Before().Last(), run.LastEvent(), run.Last(), Told(run.Before()))
  }

  /** Go has let go of what it was shown and is open for the next chunk. */
  predicate Streams(status: GolangStatus) {
    status.Continue? || status.StopAndBufferWatermark? || status.StopNoBuffer?
  }

  // ---------- what a direction does with it ----------

  /** A direction that has been told s about the call c, and whose trailers have not come. */
  predicate Obeys(p: ProcView, c: GoCall, s: GolangStatus) {
    !p.seenTrailers ==>
      && !Async(s) && (c.end ==> s.Continue?)
      && (s.Continue? && c.end ==> p.state.Done?)
      && (Streams(s) && !c.end ==> p.state.WaitingData?)
      && (s.StopAndBuffer? ==> p.state.WaitingAllData?)
      && (s.Continue? ==> p.s.list.Empty())
      && (s.Continue? && (c.phase.DecodeHeader? || c.phase.EncodeHeader?) ==> p.s.out == [Headers(c.end)])
  }

  /** Headers that Go holds have not left, and nothing has entered the list. */
  predicate Fresh(p: ProcView) {
    p.state.ProcessingHeader? ==> p.s.out == [] && p.s.list == EMPTY_LIST
  }

  function LastCall(t: Traffic): GoCall
    requires t.calls != []
  {
    t.calls[|t.calls| - 1]
  }

  /** A lane after a handler: Go holds it, or it obeys what Go said last. */
  ghost predicate Listens(l: Lane, s: GolangStatus) {
    Fresh(l.p) && l.t.calls != [] && (l.p.ProcessingInGo() || Obeys(l.p, LastCall(l.t), s))
  }

  // ---------- the handlers ----------

  lemma HeadersMove(p: ProcView, status: GolangStatus)
    requires p.state.ProcessingHeader?
    ensures var (q, done) := HandleHeader(p, status);
            && q == p.(state := q.state, fault := q.fault) && (done <==> status.Continue?)
            && q.state == match status
                          case Continue => if p.doEndStream then Done else WaitingData
                          case StopAndBuffer => WaitingAllData
                          case StopAndBufferWatermark => WaitingData
                          case _ => ProcessingHeader
  {
    hide KeepsInput;
    match status
    case Continue =>
    case StopAndBuffer =>
    case StopAndBufferWatermark =>
    case _ =>
  }

  lemma HeadersShown(l: Lane, m: HeaderMap, end: bool)
    ensures var (g, done) := DoHeaders(l, m, end);
            && g.t.calls == l.t.calls + [GoCall(PhaseOf(l.d, ProcessingHeader), end, [], Some(m), Answer(l.t))]
            && g.d == l.d && (done <==> Answer(l.t).Continue?)
            && g.p == HandleHeader(ProcessHeader(l.p.Check(l.p.s.BufferEmpty()), end), Answer(l.t)).0
  {
    hide HandleHeader, PhaseOf, KeepsInput, Grows, Store.BufferEmpty;
    HeadersMove(ProcessHeader(l.p.Check(l.p.s.BufferEmpty()), end), Answer(l.t));
  }

  lemma HeadersListen(l: Lane, end: bool)
    requires l.p.s == INIT_STORE
    requires LegalCalls(DoHeaders(l, HeadersOf(l.d), end).0.t.calls)
    ensures var (g, done) := DoHeaders(l, HeadersOf(l.d), end);
            var p := if done then g.p.(s := g.p.s.SendHeaders(end)) else g.p;
            && |g.t.calls| == |l.t.calls| + 1 && LastCall(g.t).answer == Answer(l.t)
            && Listens(g.(p := p), Answer(l.t))
  {
    hide DoHeaders, HandleHeader, KeepsInput, Grows, Store.BufferEmpty;
    HeadersShown(l, HeadersOf(l.d), end);
    HeadersMove(ProcessHeader(l.p.Check(l.p.s.BufferEmpty()), end), Answer(l.t));
    assert LegalCall(DoHeaders(l, HeadersOf(l.d), end).0.t.calls[|l.t.calls|]);
    assert [] + [Headers(end)] == [Headers(end)];
  }

  /** Go is shown a chunk. */
  lemma DataListens(l: Lane, data: Bytes, end: bool)
    requires LegalCalls(DoDataGo(l, data, end).0.t.calls)
    ensures var (g, done) := DoDataGo(l, data, end);
            && g.t.calls == l.t.calls + [GoCall(PhaseOf(l.d, ProcessingData), end, data, None, Answer(l.t))]
            && done == Answer(l.t).Continue? && g.p.endStream == l.p.endStream
            && !g.p.state.ProcessingHeader? && (g.p.ProcessingInGo() <==> Async(Answer(l.t)))
            && (!l.p.seenTrailers ==> Moved(g.p, end, Answer(l.t)))
  {
    hide KeepsInput, Grows;
    assert LegalCall(DoDataGo(l, data, end).0.t.calls[|l.t.calls|]);
  }

  /** The state a status leaves, before anything is forwarded. */
  predicate Moved(p: ProcView, end: bool, s: GolangStatus) {
    && (s.Continue? && end ==> p.state.Done?)
    && (Streams(s) && !end ==> p.state.WaitingData?)
    && (s.StopAndBuffer? ==> p.state.WaitingAllData?)
    && (Async(s) ==> p.state.ProcessingData?)
    && (end ==> s.Continue? || Async(s))
  }

  lemma ForwardsHeaders(p: ProcView)
    requires p.s.out == [] && (p.doEndStream ==> p.endStream && !p.seenTrailers)
    ensures p.doEndStream || !p.StreamEnd() ==> ContinueProcessing(p).s.out == [Headers(p.doEndStream)]
    ensures ContinueProcessing(p).s.list == p.s.list
  {
    assert [] + [Headers(p.doEndStream)] == [Headers(p.doEndStream)];
  }

  /** Letting a chunk go leaves nothing in the list. */
  lemma ForwardsList(p: ProcView)
    ensures ContinueDoData(p).s.list.Empty()
    ensures ContinueDoData(p) == p.(s := ContinueDoData(p).s)
  {
    hide Flat, Settle;
  }

  /** Go settles headers. */
  lemma HeadersSettle(p: ProcView, status: GolangStatus)
    requires ProcInv(p) && p.state.ProcessingHeader? && Fresh(p) && !Async(status) && !p.seenTrailers
    requires LegalAnswer(DecodeHeader, p.doEndStream, status)
    ensures var q := ApplyStatus(p, status);
            && Moved(q, p.doEndStream, status) && SameStream(p, q) && !q.ProcessingInGo() && q.s.list == EMPTY_LIST
            && (status.Continue? && (p.endStream ==> p.doEndStream) ==> q.s.out == [Headers(p.doEndStream)])
  {
    hide ContinueProcessing, KeepsInput;
    ForwardsHeaders(HandleHeader(p, status).0);
    ForwardDoneKeeps(HandleHeader(p, status).0, ProcessingHeader);
  }

  /** Go settles a chunk. */
  lemma ChunkSettles(p: ProcView, status: GolangStatus)
    requires ProcInv(p) && p.state.ProcessingData? && !Async(status) && !p.seenTrailers
    requires LegalAnswer(DecodeData, p.doEndStream, status)
    ensures var q := ApplyStatus(p, status);
            && Moved(q, p.doEndStream, status) && SameStream(p, q) && !q.ProcessingInGo()
            && (status.Continue? ==> q.s.list.Empty())
  {
    hide ContinueDoData, KeepsInput, ListView.ClearLatest, DropLatest;
    ForwardsList(HandleData(p, status).0);
    ForwardDoneKeeps(HandleData(p, status).0, ProcessingData);
  }

  /** What arrived meanwhile is shown to Go. */
  lemma ResumeListens(l: Lane)
    requires DataToResume(l.p) && l.p.s.buffer.Some? && !l.p.seenTrailers
    requires LegalCalls(ResumeData(l).0.t.calls)
    ensures var g := ResumeData(l).0;
            && g.t.calls == l.t.calls +
                 [GoCall(PhaseOf(l.d, ProcessingData), l.p.endStream, l.p.s.buffer.value, None, Answer(l.t))]
            && !g.p.seenTrailers && !g.p.state.WaitingTrailer? && !g.p.state.ProcessingHeader?
            && (g.p.ProcessingInGo() || Obeys(g.p, LastCall(g.t), Answer(l.t)))
  {
    hide DoDataGo, ContinueDoData;
    var l1 := l.(p := l.p.(s := l.p.s.TakeBuffer()));
    var (g, done) := DoDataGo(l1, l.p.s.buffer.value, l.p.endStream);
    assert ResumeData(l).0.t == g.t;
    DataListens(l1, l.p.s.buffer.value, l.p.endStream);
    ForwardsList(g.p);
  }

  /** What a completion needs of its direction. */
  ghost predicate Held(l: Lane) {
    && ProcInv(l.p) && l.p.ProcessingInGo() && Fresh(l.p) && l.t.calls != []
    && LastCall(l.t).end == l.p.doEndStream && LastCall(l.t).phase == PhaseOf(l.d, l.p.state)
  }

  lemma SettlesUnended(l: Lane, status: GolangStatus)
    requires Held(l) && !Async(status) && !l.p.seenTrailers && !AsksForNoBody(l.p, status)
    requires LegalAnswer(LastCall(l.t).phase, l.p.doEndStream, status)
    ensures var q := ApplyStatus(l.p, status);
            && Moved(q, l.p.doEndStream, status) && SameStream(l.p, q) && !q.ProcessingInGo()
            && !q.state.WaitingTrailer?
            && (DataToResume(q) <==>
                  if status.StopAndBuffer? then l.p.endStream
                  else !l.p.doEndStream && (!l.p.s.BufferEmpty() || l.p.endStream))
            && (DataToResume(q) ==> l.p.s.buffer.Some?)
            && (!DataToResume(q) ==> Obeys(q, LastCall(l.t), status))
  {
    hide ApplyStatus;
    if l.p.state.ProcessingHeader? {
      HeadersSettle(l.p, status);
    } else {
      ChunkSettles(l.p, status);
    }
  }

  lemma ShownNotHeaders(l: Lane, data: Bytes, end: bool, m: HeaderMap)
    ensures !DoDataGo(l, data, end).0.p.state.ProcessingHeader? && !DoTrailerGo(l, m).0.p.state.ProcessingHeader?
  {
    hide CallGo, PhaseOf, HandleData, HandleTrailer, KeepsInput, Grows;
    MovedFromData(ProcessData(l.p, end).(s := l.p.s.Push(data)), Answer(l.t));
    MovedFromTrailer(ProcessTrailer(l.p), Answer(l.t));
  }

  lemma MovedFromData(p: ProcView, status: GolangStatus)
    requires p.state.ProcessingData?
    ensures !HandleData(p, status).0.state.ProcessingHeader?
  {
    hide SettleData, KeepsInput, Store.BufferEmpty;
    SettledState(p.Check(p.state.ProcessingData?), status);
  }

  lemma SettledState(p: ProcView, status: GolangStatus)
    ensures !SettleData(p, status).state.ProcessingHeader?
  {
    hide ClearLatest, KeepsInput;
  }

  lemma MovedFromTrailer(p: ProcView, status: GolangStatus)
    requires p.state.ProcessingTrailer?
    ensures !HandleTrailer(p, status).0.state.ProcessingHeader?
  {
    hide KeepsInput;
  }

  lemma HandledNotHeaders(p: ProcView, status: GolangStatus)
    requires p.ProcessingInGo() && !Async(status) && (p.state.ProcessingHeader? ==> !status.StopNoBuffer?)
    ensures !HandleGolangStatus(p, status).0.state.ProcessingHeader?
  {
    hide HandleHeader, HandleData, HandleTrailer, KeepsInput;
    if p.state.ProcessingHeader? {
      HeadersMove(p, status);
    } else if p.state.ProcessingData? {
      MovedFromData(p, status);
    } else {
      MovedFromTrailer(p, status);
    }
  }

  lemma SettledNotHeaders(p: ProcView, status: GolangStatus)
    requires p.ProcessingInGo() && !Async(status) && (p.state.ProcessingHeader? ==> !status.StopNoBuffer?)
    ensures !ApplyStatus(p, status).state.ProcessingHeader?
  {
    hide ForwardDone, HandleGolangStatus, KeepsInput;
    HandledNotHeaders(p, status);
    ForwardDoneKeeps(HandleGolangStatus(p, status).0, p.state);
  }

  lemma NotHeaders(l: Lane, status: GolangStatus)
    requires l.p.ProcessingInGo() && !Async(status) && (l.p.state.ProcessingHeader? ==> !status.StopNoBuffer?)
    ensures !ContinueStream(l, status).p.state.ProcessingHeader?
  {
    hide ApplyStatus, DoDataGo, DoTrailerGo, KeepsInput, Grows;
    SettledNotHeaders(l.p, status);
    var l1 := l.(p := ApplyStatus(l.p, status));
    if l1.p.s.buffer.Some? {
      ShownNotHeaders(l1.(p := l1.p.(s := l1.p.s.TakeBuffer())), l1.p.s.buffer.value, l1.p.endStream, RequestTrailers);
    }
    var l2 := ResumeData(l1).0;
    if l2.t.trailers.Some? {
      ShownNotHeaders(l2, [], false, l2.t.trailers.value);
    }
  }

  /** Which completions show Go what arrived meanwhile: by what was asked, what arrived, and the end. */
  predicate ShowsRest(p: ProcView, status: GolangStatus) {
    if status.StopAndBuffer? then p.endStream else !p.doEndStream && (!p.s.BufferEmpty() || p.endStream)
  }

  /** Go settles headers or a chunk: what enters Go next, if no trailers have come. */
  lemma CompletionShows(l: Lane, status: GolangStatus)
    requires Held(l) && !Async(status) && !l.p.seenTrailers && !AsksForNoBody(l.p, status)
    requires LegalAnswer(LastCall(l.t).phase, l.p.doEndStream, status)
    requires LegalCalls(ContinueStream(l, status).t.calls)
    ensures var g := ContinueStream(l, status);
            && g.t.calls == (if ShowsRest(l.p, status) then l.t.calls + [GoCall(
                 PhaseOf(l.d, ProcessingData), l.p.endStream, l.p.s.Buffered(), None, Answer(l.t))] else l.t.calls)
            && (g.p.ProcessingInGo() ||
                Obeys(g.p, LastCall(g.t), if ShowsRest(l.p, status) then Answer(l.t) else status))
  {
    hide ApplyStatus, ResumeData, Obeys, Moved;
    SettlesUnended(l, status);
    StreamResumes(l, status);
    var l1 := l.(p := ApplyStatus(l.p, status));
    if DataToResume(l1.p) {
      assert ResumeData(l1).0.t.calls <= ContinueStream(l, status).t.calls;
      LegalPrefix(ResumeData(l1).0.t.calls, ContinueStream(l, status).t.calls);
      ResumeListens(l1);
    } else {
      NothingResumed(l1);
    }
  }

  lemma NothingResumed(l: Lane)
    requires !DataToResume(l.p)
    ensures ResumeData(l) == (l, true)
  {
  }

  lemma LegalPrefix(some: seq<GoCall>, all: seq<GoCall>)
    requires some <= all && LegalCalls(all)
    ensures LegalCalls(some)
  {
  }

  lemma CompletionListens(l: Lane, status: GolangStatus)
    requires Held(l) && !AsksForNoBody(l.p, status) && LegalAnswer(LastCall(l.t).phase, l.p.doEndStream, status)
    requires LegalCalls(ContinueStream(l, status).t.calls)
    ensures var g := ContinueStream(l, status);
            Listens(g, if |g.t.calls| > |l.t.calls| then LastCall(g.t).answer else status)
  {
    hide ContinueStream, Obeys, AsksForNoBody, ShowsRest, ProcInv;
    if Async(status) {
      AsyncKeepsLane(l, status);
    } else {
      NotHeaders(l, status);
      if l.p.seenTrailers {
        TrailersObey(ContinueStream(l, status).p);
      } else {
        CompletionShows(l, status);
      }
    }
  }

  lemma AsyncKeepsLane(l: Lane, status: GolangStatus)
    requires Held(l) && Async(status)
    ensures ContinueStream(l, status) == l
  {
    AsyncDoesNotStrand(l, status);
  }

  lemma TrailersObey(p: ProcView)
    requires p.seenTrailers
    ensures forall c, s :: Obeys(p, c, s)
  {
  }

  // ---------- frames from Envoy ----------

  /** A chunk arrives: it enters Go at once, with what was buffered if it is the last, or it waits. */
  function Entering(l: Lane, data: Bytes, end: bool): seq<GoCall> {
    if l.p.ProcessingInGo() || (l.p.state.WaitingAllData? && !end) then []
    else [GoCall(PhaseOf(l.d, ProcessingData), end, l.p.s.Buffered() + data, None, Answer(l.t))]
  }

  lemma ChunkEnters(l: Lane, data: Bytes, end: bool)
    requires ProcInv(l.p) && !l.p.StreamEnd()
    ensures DoData(l.(p := Received(l.p, data, end)), data, end).0.t.calls == l.t.calls + Entering(l, data, end)
  {
    hide DoDataGo, KeepsInput, Grows, Store.AddBufferData;
    var l1 := l.(p := Received(l.p, data, end));
    assert [] + data == data;
    match l.p.state
    case WaitingData => ChunkCall(l1, data, end);
    case WaitingAllData =>
      ChunkCall(l1, data, end);
      ChunkCall(l1.(p := l1.p.(s := l1.p.s.TakeBuffer())), l1.p.s.Buffered() + data, true);
    case _ =>
  }

  lemma ChunkCall(l: Lane, data: Bytes, end: bool)
    ensures DoDataGo(l, data, end).0.t.calls ==
              l.t.calls + [GoCall(PhaseOf(l.d, ProcessingData), end, data, None, Answer(l.t))]
  {
    hide HandleData, KeepsInput, Grows, Store.Push;
  }

  lemma ChunkListens(l: Lane, data: Bytes, end: bool, s: GolangStatus)
    requires ProcInv(l.p) && !l.p.StreamEnd() && Listens(l, s)
    requires LegalCalls(DoData(l.(p := Received(l.p, data, end)), data, end).0.t.calls)
    ensures var (g, done) := DoData(l.(p := Received(l.p, data, end)), data, end);
            var p := if done then g.p.(s := g.p.s.SendList(end)) else g.p;
            Listens(g.(p := p), if |g.t.calls| > |l.t.calls| then LastCall(g.t).answer else s)
  {
    hide DoDataGo, Store.SendList, KeepsInput, Grows;
    var p := Received(l.p, data, end);
    if l.p.state.WaitingData? || (l.p.state.WaitingAllData? && end && p.s.BufferEmpty()) {
      DataListens(l.(p := p), data, end);
      ListSent(DoDataGo(l.(p := p), data, end).0.p, end);
    } else if l.p.state.WaitingAllData? && end {
      var l1 := l.(p := p.(s := p.s.TakeBuffer()));
      DataListens(l1, p.s.Buffered() + data, end);
      ListSent(DoDataGo(l1, p.s.Buffered() + data, end).0.p, end);
    }
  }

  lemma ListSent(p: ProcView, end: bool)
    ensures p.s.SendList(end).list.Empty()
  {
  }

  lemma AllShownNotHeaders(l: Lane, m: HeaderMap)
    requires l.p.state.WaitingAllData?
    ensures !DoAllDataTrailerGo(l, m).0.p.state.ProcessingHeader?
  {
    hide DoTrailerGo, DoDataGo, KeepsInput, Grows;
    ShownNotHeaders(l, [], false, m);
    if l.p.s.buffer.Some? {
      var l1 := l.(p := l.p.(s := l.p.s.TakeBuffer()));
      ShownNotHeaders(l1, l.p.s.buffer.value, false, m);
      ShownNotHeaders(DoDataGo(l1, l.p.s.buffer.value, false).0, [], false, m);
    }
  }

  /** Trailers enter Go, or wait and leave the direction as it was. */
  lemma TrailersFresh(l: Lane, m: HeaderMap)
    ensures var g := DoTrailer(l, m).0;
            !g.p.state.ProcessingHeader? || g.p == l.p.(fault := g.p.fault)
    ensures DoTrailer(l, m).0.p.seenTrailers == l.p.seenTrailers
  {
    hide DoTrailerGo, DoAllDataTrailerGo, KeepsInput, Grows;
    var l1 := Lane(l.d, l.p.Check(!l.p.endStream && !l.p.doEndStream), l.t.(trailers := Some(m)));
    TrailersSeen(l, m);
    match l.p.state
    case WaitingTrailer => ShownNotHeaders(l1, [], false, m);
    case WaitingData => ShownNotHeaders(l1, [], false, m);
    case WaitingAllData => AllShownNotHeaders(l1, m);
    case _ =>
  }

  lemma TrailersSeen(l: Lane, m: HeaderMap)
    ensures DoTrailer(l, m).0.p.seenTrailers == l.p.seenTrailers && l.t.calls <= DoTrailer(l, m).0.t.calls
  {
    hide DoTrailer;
  }

  lemma HeldData(l: Lane, data: Bytes, end: bool)
    requires l.p.state.ProcessingHeader? || l.p.state.ProcessingData?
    ensures DoData(l, data, end) == (AddBufferData(l, data), false)
  {
  }

  lemma HeldTrailer(l: Lane, m: HeaderMap)
    requires l.p.state.ProcessingHeader? || l.p.state.ProcessingData?
    ensures var (g, done) := DoTrailer(l, m);
            g == l.(p := l.p.(fault := g.p.fault), t := l.t.(trailers := Some(m))) && !done
  {
  }

  lemma TrailersListen(l: Lane, s: GolangStatus)
    requires Listens(l, s)
    ensures var (g, done) := DoTrailer(l.(p := l.p.(seenTrailers := true)), TrailersOf(l.d));
            var p := if done then g.p.(s := g.p.s.SendTrailers()) else g.p;
            forall t :: Listens(g.(p := p), t)
  {
    hide DoTrailer;
    var l1 := l.(p := l.p.(seenTrailers := true));
    TrailersSeen(l1, TrailersOf(l.d));
    TrailersFresh(l1, TrailersOf(l.d));
    if l1.p.state.ProcessingHeader? { HeldTrailer(l1, TrailersOf(l.d)); }
  }

  // ---------- every event ----------

  /** The current direction of a live filter listens to what Go was last heard to say. */
  ghost predicate Heard(f: FilterView, told: Option<GolangStatus>) {
    !f.destroyed && !f.waiting && !f.P(f.Cur()).replied && f.t.calls != [] ==>
      told.Some? && Listens(f.At(f.Cur()), told.value)
  }

  /** What is known of a direction that may get frames. */
  lemma SteadyLane(f: FilterView)
    requires Inv(f) && !f.destroyed && !f.waiting && !f.P(f.Cur()).replied && f.t.calls != []
    ensures var p := f.P(f.Cur());
            && ProcInv(p) && p.started && (f.entered <==> f.enc.started)
            && (p.ProcessingInGo() <==> f.t.Pending())
            && (f.t.queue != [] ==> Steady(Unpost(f)))
  {
  }

  /** Frames while Go holds the direction leave the calls alone, and the direction held. */
  lemma PendingFrame(f: FilterView, e: Event)
    requires Inv(f) && Enabled(f, e) && IsFrame(e) && f.t.Pending() && f.P(f.Cur()).ProcessingInGo()
    requires !f.destroyed && !f.waiting && !f.P(f.Cur()).replied && !e.EncodeHeadersEvent?
    ensures var g := Step(f, e);
            && g.t.calls == f.t.calls && g.entered == f.entered && g.waiting == f.waiting && g.destroyed == f.destroyed
            && g.P(g.Cur()).ProcessingInGo() && (Fresh(f.P(f.Cur())) ==> Fresh(g.P(g.Cur())))
  {
    hide DoData, DoTrailer, KeepsInput, Grows, Store.SendList, Store.SendTrailers, Grammar, GoodCalls;
    match e
    case DecodeDataEvent(data, end) => HeldData(Lane(Decode, Received(f.dec, data, end), f.t), data, end);
    case EncodeDataEvent(data, end) => HeldData(Lane(Encode, Received(f.enc, data, end), f.t), data, end);
    case DecodeTrailersEvent => HeldTrailer(Lane(Decode, f.dec.(seenTrailers := true), f.t), RequestTrailers);
    case EncodeTrailersEvent => HeldTrailer(Lane(Encode, f.enc.(seenTrailers := true), f.t), ResponseTrailers);
    case _ =>
  }

  lemma FirstHeardHeaders(f: FilterView, end: bool, told: Option<GolangStatus>)
    requires Inv(f) && Link(f, DecodeHeadersEvent(end), OnDecodeHeaders(f, end))
    ensures Heard(OnDecodeHeaders(f, end), Tells(f, DecodeHeadersEvent(end), OnDecodeHeaders(f, end), told))
  {
    hide DoHeaders, Listens, Inv;
    NotBegun(f);
    var l := Lane(Decode, f.dec.(endStream := end, started := true), f.t);
    HeadersListen(l, end);
  }

  lemma EnteringListens(f: FilterView, end: bool)
    requires f.enc.s == INIT_STORE && LegalCalls(EnterEncoding(f, end).t.calls)
    ensures var g := EnterEncoding(f, end);
            && |g.t.calls| == |f.t.calls| + 1 && g.entered && Listens(g.At(Encode), LastCall(g.t).answer)
  {
    hide DoHeaders, Listens;
    HeadersListen(f.At(Encode), end);
    var (g, done) := DoHeaders(f.At(Encode), ResponseHeaders, end);
    var p := if done then g.p.(s := g.p.s.SendHeaders(end)) else g.p;
    assert g.(p := p) == EnterEncoding(f, end).At(Encode);
  }

  lemma ResponseListens(f: FilterView, end: bool, told: Option<GolangStatus>)
    requires Inv(f) && Link(f, EncodeHeadersEvent(end), OnEncodeHeaders(f, end)) && !f.destroyed
    ensures Heard(OnEncodeHeaders(f, end), Tells(f, EncodeHeadersEvent(end), OnEncodeHeaders(f, end), told))
  {
    hide EnterEncoding, Listens, Inv, Park;
    NotStarted(f);
    var g := f.(enc := f.enc.(endStream := end, started := true));
    ParkFacts(g);
    if f.dec.state.Done? {
      EnteringListens(g, end);
    } else if !f.dec.ProcessingInGo() {
      AbandonedEncode(g);
      EnteringListens(Abandon(g), end);
    }
  }

  lemma AbandonedEncode(f: FilterView)
    requires !f.entered
    ensures Abandon(f).enc == f.enc && Abandon(f).t == f.t
  {
  }

  lemma RequestListens(f: FilterView, e: Event, told: Option<GolangStatus>)
    requires Inv(f) && Link(f, e, Step(f, e)) && Heard(f, told) && !f.t.Pending()
    requires e.DecodeDataEvent? || e.DecodeTrailersEvent?
    ensures Heard(Step(f, e), Tells(f, e, Step(f, e), told))
  {
    hide DoData, DoTrailer, Listens, Inv;
    DecodesOpen(f);
    if e.DecodeDataEvent? {
      ChunkEnters(f.At(Decode), e.data, e.end);
      ChunkListens(f.At(Decode), e.data, e.end, told.value);
    } else {
      TrailersListen(f.At(Decode), told.value);
      TrailersSeen(f.At(Decode).(p := f.dec.(seenTrailers := true)), RequestTrailers);
    }
  }

  lemma DecodesOpen(f: FilterView)
    requires Inv(f) && !f.destroyed && OpenForData(f.dec) && !f.dec.replied && !f.enc.started
    ensures !f.entered && !f.waiting && f.t.calls != [] && ProcInv(f.dec)
  {
  }

  lemma ReplyListens(f: FilterView, e: Event, told: Option<GolangStatus>)
    requires Inv(f) && Link(f, e, Step(f, e)) && Heard(f, told) && !f.t.Pending() && !f.waiting
    requires e.EncodeDataEvent? || e.EncodeTrailersEvent?
    ensures Heard(Step(f, e), Tells(f, e, Step(f, e), told))
  {
    hide DoData, DoTrailer, Listens, Inv;
    EncodesOpen(f);
    if e.EncodeDataEvent? {
      ChunkEnters(f.At(Encode), e.data, e.end);
      ChunkListens(f.At(Encode), e.data, e.end, told.value);
    } else {
      TrailersListen(f.At(Encode), told.value);
      TrailersSeen(f.At(Encode).(p := f.enc.(seenTrailers := true)), ResponseTrailers);
    }
  }

  lemma EncodesOpen(f: FilterView)
    requires Inv(f) && !f.destroyed && OpenForData(f.enc) && !f.enc.replied && !f.waiting
    ensures f.entered && f.t.calls != [] && ProcInv(f.enc)
  {
  }

  lemma HeldLane(f: FilterView, told: Option<GolangStatus>)
    requires Inv(f) && Heard(f, told) && !f.destroyed && !f.waiting && f.t.queue != [] && f.t.queue[0].Resume?
    ensures var l, status := f.At(f.Cur()), f.t.queue[0].status;
            && |f.t.queue| == 1 && Held(l) && !Async(status) && !l.p.replied
            && LegalAnswer(LastCall(l.t).phase, l.p.doEndStream, status)
  {
  }

  lemma ResumeHeard(f: FilterView, told: Option<GolangStatus>)
    requires !f.destroyed && !f.waiting && f.t.queue != [] && f.t.queue[0].Resume?
    requires Inv(f) && Heard(f, told) && Link(f, PostedEvent, OnPosted(f))
    ensures Heard(OnPosted(f), Tells(f, PostedEvent, OnPosted(f), told))
  {
    hide ContinueStream, Listens, Inv, Held, Heard, LegalCalls, AsksForNoBody;
    HeldLane(f, told);
    var g := f.(t := f.t.(queue := f.t.queue[1..]));
    var status := f.t.queue[0].status;
    StreamGrowsLane(g.At(g.Cur()), status);
    SameHeld(f.At(f.Cur()), g.At(g.Cur()));
    CompletionListens(g.At(g.Cur()), status);
    HeardLane(OnPosted(f), Tells(f, PostedEvent, OnPosted(f), told));
  }

  lemma SameHeld(l: Lane, k: Lane)
    requires Held(l) && k.d == l.d && k.p == l.p && k.t.calls == l.t.calls
    ensures Held(k)
  {
  }

  lemma StreamGrowsLane(l: Lane, status: GolangStatus)
    ensures var g := ContinueStream(l, status); g.d == l.d && l.t.calls <= g.t.calls
  {
    hide ContinueStream;
  }

  lemma HeardLane(f: FilterView, told: Option<GolangStatus>)
    requires told.Some? && Listens(f.At(f.Cur()), told.value)
    ensures Heard(f, told)
  {
  }

  lemma ReleaseHeard(f: FilterView, told: Option<GolangStatus>)
    requires !f.destroyed && f.waiting && f.t.queue != [] && Inv(f) && Link(f, PostedEvent, OnPosted(f))
    ensures Heard(OnPosted(f), Tells(f, PostedEvent, OnPosted(f), told))
  {
    hide ContinueStream, Listens, Inv, Heard, LegalCalls, AsksForNoBody, EncodeParkedHeaders, Held;
    var q := f.(t := f.t.(queue := f.t.queue[1..]));
    var h := Release(q);
    ReleasedLane(f);
    var l := EncodeParkedHeaders(h);
    var g := ContinueStream(l, Answer(q.t));
    StreamGrowsLane(l, Answer(q.t));
    CompletionListens(l, Answer(q.t));
    HeardLane(OnPosted(f), Tells(f, PostedEvent, OnPosted(f), told));
  }

  /** The headers of a parked response have just been shown. */
  lemma ReleasedLane(f: FilterView)
    requires !f.destroyed && f.waiting && f.t.queue != [] && Inv(f) && Link(f, PostedEvent, OnPosted(f))
    ensures var q := f.(t := f.t.(queue := f.t.queue[1..]));
            var l := EncodeParkedHeaders(Release(q));
            && f.localHeaders.Some? && l.d == Encode && Held(l) && !AsksForNoBody(l.p, Answer(q.t))
            && l.t.calls == f.t.calls + [LastCall(l.t)] && LastCall(l.t).answer == Answer(q.t)
            && LegalAnswer(LastCall(l.t).phase, l.p.doEndStream, Answer(q.t))
            && LegalCalls(ContinueStream(l, Answer(q.t)).t.calls)
  {
    hide ContinueStream, Grammar, GoodCalls, KeepsInput;
    PostedIsHeld(f);
    assert f.t.queue[1..] == [];
    var q := f.(t := f.t.(queue := []));
    var l := EncodeParkedHeaders(Release(q));
    StreamGrowsLane(l, Answer(q.t));
    LegalPrefix(l.t.calls, ContinueStream(l, Answer(q.t)).t.calls);
    ParkedEnters(q);
  }

  lemma RepliedHeard(f: FilterView, told: Option<GolangStatus>)
    requires Inv(f) && !f.destroyed && !f.waiting && f.t.queue != [] && f.t.queue[0].Reply?
    ensures Heard(OnPosted(f), told)
  {
  }

  lemma PendingHeard(f: FilterView, e: Event, told: Option<GolangStatus>)
    requires Inv(f) && Link(f, e, Step(f, e)) && Heard(f, told) && f.t.Pending() && !f.destroyed && !f.waiting
    requires IsFrame(e) && !e.EncodeHeadersEvent?
    ensures Heard(Step(f, e), Tells(f, e, Step(f, e), told))
  {
    hide Step, Inv, Enabled, GoesWrong, LegalCalls;
    if !f.P(f.Cur()).replied && f.t.calls != [] {
      SteadyLane(f);
      PendingFrame(f, e);
    } else {
      NobodyPending(f);
    }
  }

  lemma NobodyPending(f: FilterView)
    requires Inv(f) && f.t.Pending() && !f.destroyed && !f.waiting
    ensures !f.P(f.Cur()).replied && f.t.calls != []
  {
  }

  lemma ParkedHeard(f: FilterView, e: Event, told: Option<GolangStatus>)
    requires f.waiting && (e.EncodeDataEvent? || e.EncodeTrailersEvent?)
    ensures Heard(Step(f, e), told)
  {
  }

  /** Only destruction and completions remain, which change neither a direction nor its calls. */
  lemma MarkedHeard(f: FilterView, e: Event, told: Option<GolangStatus>)
    requires Heard(f, told) && (e.DestroyEvent? || e.GoCompletesEvent? || (f.destroyed && e.PostedEvent?))
    ensures Heard(Step(f, e), Tells(f, e, Step(f, e), told))
  {
  }

  lemma StepHears(f: FilterView, e: Event, told: Option<GolangStatus>)
    requires Inv(f) && Link(f, e, Step(f, e)) && Heard(f, told)
    ensures Heard(Step(f, e), Tells(f, e, Step(f, e), told))
  {
    hide Heard, Inv, LegalCalls, GoesWrong, Tells, OnPosted;
    hide OnDecodeHeaders, OnDecodeData, OnDecodeTrailers, OnEncodeHeaders, OnEncodeData, OnEncodeTrailers;
    match e
    case DestroyEvent => MarkedHeard(f, e, told);
    case GoCompletesEvent(_) => MarkedHeard(f, e, told);
    case PostedEvent =>
      if f.destroyed {
        MarkedHeard(f, e, told);
      } else if f.waiting {
        ReleaseHeard(f, told);
      } else if f.t.queue[0].Resume? {
        ResumeHeard(f, told);
      } else {
        RepliedHeard(f, told);
        ReplyTells(f, told);
      }
    case DecodeHeadersEvent(end) => FirstHeardHeaders(f, end, told);
    case EncodeHeadersEvent(end) => ResponseListens(f, end, told);
    case _ => LaterFrameHears(f, e, told);
  }

  lemma ReplyTells(f: FilterView, told: Option<GolangStatus>)
    requires f.t.queue != [] && f.t.queue[0].Reply? && !f.waiting && !f.destroyed
    ensures Tells(f, PostedEvent, OnPosted(f), told) == told
  {
  }

  lemma LaterFrameHears(f: FilterView, e: Event, told: Option<GolangStatus>)
    requires Inv(f) && Link(f, e, Step(f, e)) && Heard(f, told)
    requires IsFrame(e) && !e.DecodeHeadersEvent? && !e.EncodeHeadersEvent?
    ensures Heard(Step(f, e), Tells(f, e, Step(f, e), told))
  {
    hide Heard, Inv, LegalCalls, GoesWrong;
    hide OnDecodeData, OnDecodeTrailers, OnEncodeData, OnEncodeTrailers;
    if f.waiting {
      WaitingOpen(f, e);
      ParkedHeard(f, e, told);
      ParkedTells(f, e, told);
    } else if f.t.Pending() {
      PendingHeard(f, e, told);
    } else if e.DecodeDataEvent? || e.DecodeTrailersEvent? {
      RequestListens(f, e, told);
    } else {
      ReplyListens(f, e, told);
    }
  }

  lemma WaitingOpen(f: FilterView, e: Event)
    requires Inv(f) && !f.destroyed && f.waiting && Enabled(f, e) && IsFrame(e)
    ensures e.EncodeDataEvent? || e.EncodeTrailersEvent?
  {
  }

  lemma ParkedTells(f: FilterView, e: Event, told: Option<GolangStatus>)
    requires f.waiting && (e.EncodeDataEvent? || e.EncodeTrailersEvent?)
    ensures Tells(f, e, Step(f, e), told) == told
  {
  }

  // ---------- whole runs ----------

  lemma {:induction false} RunHears(go: Oracle, run: Run)
    requires Valid(go, run)
    ensures Inv(run.Last()) && Heard(run.Last(), Told(run))
    decreases |run.events|
  {
    hide Inv, Heard, Step, Enabled, LegalCalls, GoesWrong, Tells;
    RunSafe(go, run);
    if run.events == [] {
      NothingHeard(go);
    } else {
      DropLast(InitFilter(go), run);
      RunHears(go, run.Before());
      StepHears(run.Before().Last(), run.LastEvent(), Told(run.Before()));
    }
  }

  lemma NothingHeard(go: Oracle)
    ensures Heard(InitFilter(go), None)
  {
  }

  // ---------- the theorems ----------

  function DataPhase(d: Direction): Phase {
    if d.Decode? then DecodeData else EncodeData
  }

  predicate IsChunk(e: Event, d: Direction) {
    if d.Decode? then e.DecodeDataEvent? else e.EncodeDataEvent?
  }

  /**
   The next chunk. For any legal filter, when Go is idle and no response is parked: a chunk enters Go at once,
   alone, if and only if the last status of Go was not StopAndBuffer; after StopAndBuffer only the last chunk
   of the stream does, and then with everything that was buffered before it.
   */
  lemma NextChunk(go: Oracle, run: Run, d: Direction)
    requires Valid(go, run) && run.events != [] && IsChunk(run.LastEvent(), d)
    requires !run.Before().Last().t.Pending() && !run.Before().Last().waiting
    ensures var f, e, told := run.Before().Last(), run.LastEvent(), Told(run.Before());
            && told.Some? && !Async(told.value)
            && run.Last().t.calls == f.t.calls +
                 (if told.value.StopAndBuffer? && !e.end then []
                  else [GoCall(DataPhase(d), e.end, f.P(d).s.Buffered() + e.data, None, Answer(f.t))])
            && (!told.value.StopAndBuffer? ==> f.P(d).s.Buffered() == [])
  {
    hide Link, Inv, Heard, Step;
    DropLast(InitFilter(go), run);
    RunHears(go, run.Before());
    LinkSteps(run.Before().Last(), run.LastEvent(), run.Last());
    ChunkAsTold(run.Before().Last(), run.LastEvent(), d, Told(run.Before()));
  }

  lemma LinkSteps(f: FilterView, e: Event, g: FilterView)
    requires Link(f, e, g)
    ensures g == Step(f, e) && Enabled(f, e)
  {
  }

  lemma ChunkAsTold(f: FilterView, e: Event, d: Direction, told: Option<GolangStatus>)
    requires Inv(f) && Heard(f, told) && Link(f, e, Step(f, e)) && IsChunk(e, d) && !f.t.Pending() && !f.waiting
    ensures told.Some? && !Async(told.value) && f.Cur() == d
    ensures Step(f, e).t.calls == f.t.calls +
              (if told.value.StopAndBuffer? && !e.end then []
               else [GoCall(DataPhase(d), e.end, f.P(d).s.Buffered() + e.data, None, Answer(f.t))])
    ensures !told.value.StopAndBuffer? ==> f.P(d).s.Buffered() == []
    ensures told.value.StopAndBuffer? <==> f.P(d).state.WaitingAllData?
  {
    hide DoData, Inv, Grammar, GoodCalls, LegalCalls;
    if d.Decode? { DecodesOpen(f); } else { EncodesOpen(f); }
    SteadyLane(f);
    ChunkEnters(f.At(d), e.data, e.end);
  }

  /** One more chunk for a filter that wants the whole body. */
  lemma GathersChunk(f: FilterView, e: Event, d: Direction, told: Option<GolangStatus>)
    requires Inv(f) && Heard(f, told) && Link(f, e, Step(f, e)) && IsChunk(e, d) && !e.end
    requires !f.t.Pending() && !f.waiting && told == Some(StopAndBuffer)
    ensures var g := Step(f, e);
            && g.t == f.t && !g.waiting && !g.destroyed && g.P(d).s.Buffered() == f.P(d).s.Buffered() + e.data
            && Tells(f, e, g, told) == told
  {
    hide Inv, Heard, LegalCalls;
    ChunkAsTold(f, e, d, told);
    WaitsForAll(f, e, d);
  }

  lemma WaitsForAll(f: FilterView, e: Event, d: Direction)
    requires IsChunk(e, d) && !e.end && !f.waiting && f.P(d).state.WaitingAllData?
    ensures var g := Step(f, e);
            && g.t == f.t && !g.waiting && g.destroyed == f.destroyed
            && g.P(d).s.Buffered() == f.P(d).s.Buffered() + e.data
  {
  }

  /** Event i and all after it are chunks of the direction, and none of them is the last. */
  ghost predicate Unended(run: Run, k: nat, d: Direction)
    requires k <= |run.events|
  {
    forall i :: k <= i < |run.events| ==> IsChunk(run.events[i], d) && !run.events[i].end
  }

  lemma UnendedDrop(run: Run, k: nat, d: Direction)
    requires run.Shaped() && k < |run.events|
    ensures Unended(run, k, d) <==>
              Unended(run.Before(), k, d) && IsChunk(run.LastEvent(), d) && !run.LastEvent().end
    ensures Slice(run.Before(), 0, k) == Slice(run, 0, k) && run.Before().states[k] == run.states[k]
    ensures run.events[k..] == run.Before().events[k..] + [run.LastEvent()]
  {
    var before := run.Before();
    assert before.events[0..k] == run.events[0..k] && before.states[0..k + 1] == run.states[0..k + 1];
    assert run.events[k..] == before.events[k..] + [run.LastEvent()];
    UnendedOver(run, before, k, d);
  }

  lemma UnendedOver(run: Run, before: Run, k: nat, d: Direction)
    requires run.Shaped() && k < |run.events| && before == run.Before()
    ensures Unended(run, k, d) <==> Unended(before, k, d) && IsChunk(run.LastEvent(), d) && !run.LastEvent().end
  {
    hide IsChunk;
    var n := |run.events| - 1;
    assert run.events[n] == run.LastEvent();
    assert forall i :: 0 <= i < n ==> before.events[i] == run.events[i];
  }

  lemma BodySnoc(events: seq<Event>, e: Event, d: Direction)
    ensures Body(events + [e], d) == Body(events, d) + BodyOf(e, d)
  {
    assert (events + [e])[..|events|] == events;
  }

  /** The chunks of a run from its k-th event on, put behind what was there. */
  lemma BodyGrows(run: Run, k: nat, d: Direction, buffered: Bytes)
    requires run.Shaped() && k < |run.events| && IsChunk(run.LastEvent(), d)
    ensures buffered + Body(run.events[k..], d) ==
            buffered + Body(run.Before().events[k..], d) + run.LastEvent().data
  {
    hide Body;
    UnendedDrop(run, k, d);
    BodySnoc(run.Before().events[k..], run.LastEvent(), d);
    assert buffered + (Body(run.Before().events[k..], d) + run.LastEvent().data)
        == buffered + Body(run.Before().events[k..], d) + run.LastEvent().data;
  }

  /**
   After StopAndBuffer no chunk enters Go before the end of the stream, however many there are: they gather
   in data_buffer_, in order.
   */
  lemma {:induction false} RunGathers(go: Oracle, run: Run, k: nat, d: Direction)
    requires Valid(go, run) && k <= |run.events| && Unended(run, k, d)
    requires !run.states[k].t.Pending() && !run.states[k].waiting && Told(Slice(run, 0, k)) == Some(StopAndBuffer)
    ensures var f, g := run.states[k], run.Last();
            && g.t == f.t && !g.waiting && Told(run) == Some(StopAndBuffer)
            && g.P(d).s.Buffered() == f.P(d).s.Buffered() + Body(run.events[k..], d)
    decreases |run.events|
  {
    if |run.events| == k {
      assert Slice(run, 0, k) == run;
      assert run.events[k..] == [];
    } else {
      hide Link, Inv, Heard, Step, Tells, Unended, Body, Enabled, LegalCalls;
      var before := run.Before();
      DropLast(InitFilter(go), run);
      UnendedDrop(run, k, d);
      RunGathers(go, before, k, d);
      hide Valid;
      OneMore(go, before, run, d);
      BodyGrows(run, k, d, run.states[k].P(d).s.Buffered());
    }
  }

  lemma OneMore(go: Oracle, before: Run, run: Run, d: Direction)
    requires Valid(go, before) && run.Shaped() && run.events != [] && before == run.Before()
    requires Link(before.Last(), run.LastEvent(), run.Last()) && IsChunk(run.LastEvent(), d) && !run.LastEvent().end
    requires !before.Last().t.Pending() && !before.Last().waiting && Told(before) == Some(StopAndBuffer)
    ensures var f, g := before.Last(), run.Last();
            && g.t == f.t && !g.waiting && Told(run) == Some(StopAndBuffer)
            && g.P(d).s.Buffered() == f.P(d).s.Buffered() + run.LastEvent().data
  {
    hide Valid, Link, Inv, Heard, Step, Tells;
    RunHears(go, before);
    LinkSteps(before.Last(), run.LastEvent(), run.Last());
    GathersChunk(before.Last(), run.LastEvent(), d, Told(before));
  }

  /** And the chunk that ends the stream takes all of them along, in one call. */
  lemma RunGathered(go: Oracle, run: Run, k: nat, d: Direction)
    requires Valid(go, run) && k < |run.events| && IsChunk(run.LastEvent(), d) && run.LastEvent().end
    requires Unended(run.Before(), k, d)
    requires !run.states[k].t.Pending() && !run.states[k].waiting && Told(Slice(run, 0, k)) == Some(StopAndBuffer)
    ensures var f := run.states[k];
            run.Last().t.calls == f.t.calls + [GoCall(
              DataPhase(d), true, f.P(d).s.Buffered() + Body(run.events[k..], d), None, Answer(f.t))]
  {
    hide Link, Unended, Body, Told;
    DropLast(InitFilter(go), run);
    UnendedDrop(run, k, d);
    RunGathers(go, run.Before(), k, d);
    hide Valid, From;
    NextChunk(go, run, d);
    BodyGrows(run, k, d, run.states[k].P(d).s.Buffered());
  }

  /**
   The next completion. When Go settles headers or a chunk and no trailers have come: what arrived meanwhile
   enters Go in one call, with the end of the stream if that came too. After StopAndBuffer only the end brings
   it about; otherwise there has to be something to show, and the call that was settled must not have
   been the last one.
   */
  lemma NextCompletion(go: Oracle, run: Run)
    requires Valid(go, run) && run.events != [] && run.LastEvent().PostedEvent?
    requires var f := run.Before().Last();
             && !f.destroyed && !f.waiting && !f.P(f.Cur()).seenTrailers && f.t.queue != [] && f.t.queue[0].Resume?
    ensures var f, status := run.Before().Last(), run.Before().Last().t.queue[0].status;
            var p := f.P(f.Cur());
            && f.t.calls != []
            && run.Last().t.calls == f.t.calls +
                 if (if status.StopAndBuffer? then p.endStream
                     else !LastCall(f.t).end && (!p.s.BufferEmpty() || p.endStream))
                 then [GoCall(DataPhase(f.Cur()), p.endStream, p.s.Buffered(), None, Answer(f.t))] else []
  {
    hide Link, Inv, Heard, Step;
    DropLast(InitFilter(go), run);
    RunHears(go, run.Before());
    LinkSteps(run.Before().Last(), PostedEvent, run.Last());
    CompletionAsTold(run.Before().Last(), Told(run.Before()));
  }

  lemma CompletionAsTold(f: FilterView, told: Option<GolangStatus>)
    requires !f.destroyed && !f.waiting && !f.P(f.Cur()).seenTrailers && f.t.queue != [] && f.t.queue[0].Resume?
    requires Inv(f) && Heard(f, told) && Link(f, PostedEvent, Step(f, PostedEvent))
    ensures var status, p := f.t.queue[0].status, f.P(f.Cur());
            && f.t.calls != []
            && Step(f, PostedEvent).t.calls == f.t.calls +
                 if (if status.StopAndBuffer? then p.endStream
                     else !LastCall(f.t).end && (!p.s.BufferEmpty() || p.endStream))
                 then [GoCall(DataPhase(f.Cur()), p.endStream, p.s.Buffered(), None, Answer(f.t))] else []
  {
    hide ContinueStream, Listens, Inv, Held, LegalCalls, AsksForNoBody;
    HeldLane(f, told);
    var g := f.(t := f.t.(queue := f.t.queue[1..]));
    SameHeld(f.At(f.Cur()), g.At(g.Cur()));
    EndsAsCalled(f.At(f.Cur()));
    CompletionShows(g.At(g.Cur()), f.t.queue[0].status);
  }

  lemma EndsAsCalled(l: Lane)
    requires Held(l)
    ensures l.t.calls != [] && LastCall(l.t).end == l.p.doEndStream
  {
  }

  /**
   What the next filter has by then. When Go is idle, no trailers have come and the last status was Continue:
   if it was about headers, the headers have gone out, flagged as Envoy flagged them, and nothing else;
   and in any case the list has been emptied.
   */
  lemma RunLetsGo(go: Oracle, run: Run)
    requires Valid(go, run) && run.events != [] && Told(run) == Some(Continue)
    ensures var f := run.Last();
            var p := f.P(f.Cur());
            !f.t.Pending() && !f.destroyed && !f.waiting && !p.replied && !p.seenTrailers && f.t.calls != [] ==>
              && p.s.list.Empty()
              && (LastCall(f.t).phase.DecodeHeader? || LastCall(f.t).phase.EncodeHeader? ==>
                    p.s.out == [Headers(LastCall(f.t).end)])
  {
    hide Told, Link;
    RunHears(go, run);
    var f := run.Last();
    if !f.t.Pending() && !f.destroyed && !f.waiting && !f.P(f.Cur()).replied && f.t.calls != [] {
      SteadyLane(f);
    }
  }

  // ---------- trailers ----------

  function DataCall(l: Lane, answer: GolangStatus): GoCall {
    GoCall(DataPhase(l.d), false, l.p.s.Buffered(), None, answer)
  }

  function TrailerCall(l: Lane, answer: GolangStatus): GoCall {
    GoCall(PhaseOf(l.d, ProcessingTrailer), true, [], Some(TrailersOf(l.d)), answer)
  }

  /**
   Trailers arrive. While Go holds the direction they wait. A direction that streams shows them at once; one
   that gathers shows the body first, and the trailers behind it unless Go keeps the body; and if it has
   gathered nothing it shows nothing.
   */
  function TrailersEntering(l: Lane): seq<GoCall> {
    if l.p.ProcessingInGo() then []
    else if !l.p.state.WaitingAllData? then [TrailerCall(l, Answer(l.t))]
    else if l.p.s.BufferEmpty() then []
    else [DataCall(l, Answer(l.t))] + if Async(Answer(l.t)) then [] else [TrailerCall(l, l.t.go(|l.t.calls| + 1))]
  }

  /** What one call into Go adds to the calls, and where it leaves a direction whose trailers have come. */
  lemma ShownCalls(l: Lane, data: Bytes, m: HeaderMap)
    ensures DoDataGo(l, data, false).0.t.calls ==
              l.t.calls + [GoCall(PhaseOf(l.d, ProcessingData), false, data, None, Answer(l.t))]
    ensures DoDataGo(l, data, false).0.t.go == l.t.go && DoDataGo(l, data, false).0.d == l.d
    ensures DoTrailerGo(l, m).0.t.calls ==
              l.t.calls + [GoCall(PhaseOf(l.d, ProcessingTrailer), true, [], Some(m), Answer(l.t))]
  {
    hide HandleData, HandleTrailer, KeepsInput, Grows, Store.Push;
  }

  lemma AllDataEnters(l: Lane)
    requires l.p.state.WaitingAllData? && l.p.seenTrailers && !l.p.endStream && l.t.trailers.Some?
    ensures DoAllDataTrailerGo(l, TrailersOf(l.d)).0.t.calls == l.t.calls +
              if l.p.s.BufferEmpty() then []
              else [DataCall(l, Answer(l.t))] +
                   if Async(Answer(l.t)) then [] else [TrailerCall(l, l.t.go(|l.t.calls| + 1))]
  {
    hide DoDataGo, DoTrailerGo, KeepsInput, Grows;
    if !l.p.s.BufferEmpty() {
      var l1 := l.(p := l.p.(s := l.p.s.TakeBuffer()));
      ShownCalls(l1, l.p.s.buffer.value, TrailersOf(l.d));
      ShownStrands(l1, l.p.s.buffer.value);
      ShownCalls(DoDataGo(l1, l.p.s.buffer.value, false).0, [], TrailersOf(l.d));
      var first, second := DataCall(l, Answer(l.t)), TrailerCall(l, l.t.go(|l.t.calls| + 1));
      assert l.t.calls + [first] + [second] == l.t.calls + ([first] + [second]);
    }
  }

  lemma TrailersEnter(l: Lane)
    requires ProcInv(l.p) && !l.p.StreamEnd()
    ensures DoTrailer(l.(p := l.p.(seenTrailers := true)), TrailersOf(l.d)).0.t.calls == l.t.calls + TrailersEntering(l)
  {
    hide DoAllDataTrailerGo, DoTrailerGo, KeepsInput, Grows;
    var p := l.p.(seenTrailers := true);
    var l1 := Lane(l.d, p.Check(!p.endStream && !p.doEndStream), l.t.(trailers := Some(TrailersOf(l.d))));
    ShownCalls(l1, [], TrailersOf(l.d));
    if l.p.state.WaitingAllData? { AllDataEnters(l1); }
  }

  /** Go settles a call after trailers have come: the body that arrived meanwhile, and then the trailers. */
  function TrailersResuming(l: Lane, status: GolangStatus): seq<GoCall> {
    if l.p.state.ProcessingTrailer? then []
    else if ShowsMore(l.p, status) then
      [DataCall(l, Answer(l.t))] +
      if Answer(l.t).Continue? then [TrailerCall(l, l.t.go(|l.t.calls| + 1))] else []
    else if l.p.state.ProcessingData? then [TrailerCall(l, Answer(l.t))]
    else []
  }

  lemma TrailersResume(l: Lane, status: GolangStatus)
    requires ProcInv(l.p) && l.p.ProcessingInGo() && l.p.seenTrailers && !Async(status)
    requires RightMaps(l) && !AsksForNoBody(l.p, status)
    requires LegalAnswer(PhaseOf(l.d, l.p.state), l.p.doEndStream, status)
    ensures ContinueStream(l, status).t.calls == l.t.calls + TrailersResuming(l, status)
  {
    hide ApplyStatus, ContinueStream, Resumed, KeepsInput, Grows;
    SettledByTrailers(l.p, status);
    StreamResumes(l, status);
    var l1 := l.(p := ApplyStatus(l.p, status));
    if DataToResume(l1.p) {
      RestThenTrailers(l1);
    } else {
      OnlyTrailers(l1);
    }
  }

  lemma OnlyTrailers(l: Lane)
    requires !DataToResume(l.p) && l.t.trailers == Some(TrailersOf(l.d))
    ensures Resumed(l).t.calls ==
              l.t.calls + if l.p.state.WaitingTrailer? then [TrailerCall(l, Answer(l.t))] else []
  {
    hide ResumeData, DoTrailerGo, ContinueProcessing, KeepsInput, Grows;
    NothingResumed(l);
    ShownCalls(l, [], TrailersOf(l.d));
  }

  lemma RestThenTrailers(l: Lane)
    requires l.p.seenTrailers && !l.p.endStream && l.t.trailers == Some(TrailersOf(l.d))
    requires DataToResume(l.p) && l.p.s.buffer.Some?
    ensures Resumed(l).t.calls == l.t.calls + [DataCall(l, Answer(l.t))] +
              if Answer(l.t).Continue? then [TrailerCall(l, l.t.go(|l.t.calls| + 1))] else []
  {
    hide DoDataGo, DoTrailerGo, ContinueDoData, ContinueProcessing, KeepsInput, Grows;
    ResumedStrands(l);
    var l1 := l.(p := l.p.(s := l.p.s.TakeBuffer()));
    ShownCalls(l1, l.p.s.buffer.value, TrailersOf(l.d));
    var g := ResumeData(l).0;
    assert g.t == DoDataGo(l1, l.p.s.buffer.value, false).0.t;
    ShownCalls(g, [], TrailersOf(l.d));
  }

  predicate IsTrailersOf(e: Event, d: Direction) {
    if d.Decode? then e.DecodeTrailersEvent? else e.EncodeTrailersEvent?
  }

  /**
   The trailers. When Go is idle and no response is parked, they enter Go at once if and only if the last
   status was not StopAndBuffer; after StopAndBuffer the gathered body goes first, without an end, and the
   trailers follow unless Go keeps it; and if nothing was gathered, nothing enters Go.
   */
  lemma NextTrailers(go: Oracle, run: Run, d: Direction)
    requires Valid(go, run) && run.events != [] && IsTrailersOf(run.LastEvent(), d)
    requires !run.Before().Last().t.Pending() && !run.Before().Last().waiting
    ensures var f, told := run.Before().Last(), Told(run.Before());
            var l := f.At(d);
            && told.Some?
            && run.Last().t.calls == f.t.calls +
                 if !told.value.StopAndBuffer? then [TrailerCall(l, Answer(f.t))]
                 else if l.p.s.BufferEmpty() then []
                 else [DataCall(l, Answer(f.t))] +
                      if Async(Answer(f.t)) then [] else [TrailerCall(l, f.t.go(|f.t.calls| + 1))]
  {
    hide Link, Inv, Heard, Step;
    DropLast(InitFilter(go), run);
    RunHears(go, run.Before());
    LinkSteps(run.Before().Last(), run.LastEvent(), run.Last());
    TrailersAsTold(run.Before().Last(), run.LastEvent(), d, Told(run.Before()));
  }

  lemma TrailersAsTold(f: FilterView, e: Event, d: Direction, told: Option<GolangStatus>)
    requires Inv(f) && Heard(f, told) && Link(f, e, Step(f, e)) && IsTrailersOf(e, d) && !f.t.Pending() && !f.waiting
    ensures told.Some? && Step(f, e).t.calls == f.t.calls + TrailersEntering(f.At(d))
    ensures (told.value.StopAndBuffer? <==> f.P(d).state.WaitingAllData?) && !f.P(d).ProcessingInGo()
  {
    hide DoTrailer, Inv, Grammar, GoodCalls, LegalCalls, TrailersEntering;
    if d.Decode? { DecodesOpen(f); } else { EncodesOpen(f); }
    SteadyLane(f);
    TrailersEnter(f.At(d));
  }

  /** The same when Go settles a call after trailers have come. */
  lemma NextCompletionTrailers(go: Oracle, run: Run)
    requires Valid(go, run) && run.events != [] && run.LastEvent().PostedEvent?
    requires var f := run.Before().Last();
             && !f.destroyed && !f.waiting && f.P(f.Cur()).seenTrailers && f.t.queue != [] && f.t.queue[0].Resume?
    ensures var f := run.Before().Last();
            run.Last().t.calls == f.t.calls + TrailersResuming(f.At(f.Cur()), f.t.queue[0].status)
  {
    hide Link, Inv, Step, TrailersResuming;
    DropLast(InitFilter(go), run);
    RunSafe(go, run.Before());
    LinkSteps(run.Before().Last(), PostedEvent, run.Last());
    CompletionResumes(run.Before().Last());
  }

  lemma CompletionResumes(f: FilterView)
    requires !f.destroyed && !f.waiting && f.P(f.Cur()).seenTrailers && f.t.queue != [] && f.t.queue[0].Resume?
    requires Inv(f) && Link(f, PostedEvent, Step(f, PostedEvent))
    ensures Step(f, PostedEvent).t.calls == f.t.calls + TrailersResuming(f.At(f.Cur()), f.t.queue[0].status)
  {
    hide ContinueStream, AsksForNoBody;
    ResumingLane(f);
    var g := f.(t := f.t.(queue := f.t.queue[1..]));
    TrailersResume(g.At(g.Cur()), f.t.queue[0].status);
  }

  lemma ResumingLane(f: FilterView)
    requires !f.destroyed && !f.waiting && f.t.queue != [] && f.t.queue[0].Resume? && Inv(f)
    ensures var l, status := f.At(f.Cur()), f.t.queue[0].status;
            && ProcInv(l.p) && l.p.ProcessingInGo() && !Async(status) && RightMaps(l)
            && LegalAnswer(PhaseOf(l.d, l.p.state), l.p.doEndStream, status)
  {
  }
}
