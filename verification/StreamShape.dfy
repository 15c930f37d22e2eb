/**
 What the next filter can see, whatever legal filter Go runs: headers first and once, then body frames,
 then trailers; and the end of the stream exactly when a direction is Done.
 */
module StreamShape {
  import opened StreamTypes
  import opened StreamSpec
  import opened StreamRuns
  import opened StreamSafety
  import opened StreamTransparency

  /** Trailers behind a body frame that already claimed the end: the flush of stopped bytes. */
  ghost predicate EndedTwice(out: seq<Frame>) {
    && |out| >= 3 && out[|out| - 1].Trailers? && out[|out| - 2].Data? && out[|out| - 2].end
    && Open(out[..|out| - 2])
  }

  /** Until a direction is Done nothing has ended; then the last frame ends it. */
  ghost predicate ShapedOut(p: ProcView) {
    if p.state.Done? then Closed(p.s.out, p.seenTrailers) || (p.seenTrailers && EndedTwice(p.s.out)) else Open(p.s.out)
  }

  ghost predicate Unsent(p: ProcView) {
    p.state.ProcessingHeader? || (p.state.WaitingHeader? && !p.replied) ==> p.s.out == []
  }

  ghost predicate Shape(p: ProcView) {
    ShapedOut(p) && Unsent(p)
  }

  // ---------- completions ----------

  lemma HeadersShape(p: ProcView, status: GolangStatus)
    requires ProcInv(p) && Shape(p) && p.state.ProcessingHeader?
    requires LegalAnswer(DecodeHeader, p.doEndStream, status)
    ensures Shape(ApplyStatus(p, status))
  {
    assert [] + [Headers(p.endStream && !p.seenTrailers)] == [Headers(p.endStream && !p.seenTrailers)];
  }

  lemma FlushShape(s: Store, end: bool)
    requires Open(s.out)
    ensures if end then Closed(s.SendList(end).out, false) else Open(s.SendList(end).out)
    ensures Closed(s.SendTrailers().out, true)
    ensures EndedTwice(s.SendList(true).SendTrailers().out)
  {
    OpenSend(s.MoveOut(), Flat(s.list.queue), end);
    OpenSend(s, [], false);
    var twice := s.SendList(true).SendTrailers().out;
    assert twice == s.Flushed() + [Data(Flat(s.list.queue), true), Trailers];
    assert twice[..|twice| - 2] == s.Flushed();
  }

  /** An answer to a chunk forwards nothing itself, and ends the direction only with the stream. */
  lemma AnswerShape(p: ProcView, status: GolangStatus)
    requires p.state.ProcessingData? && (p.doEndStream ==> !p.seenTrailers)
    ensures var (q, done) := HandleData(p, status);
            && q.s.out == p.s.out && q.endStream == p.endStream && q.doEndStream == p.doEndStream
            && q.seenTrailers == p.seenTrailers && q.replied == p.replied
            && (q.state.Done? <==> done && p.doEndStream)
            && !q.state.ProcessingHeader? && !q.state.WaitingHeader?
            && (done && p.seenTrailers && p.s.BufferEmpty() ==> q.state.WaitingTrailer?)
  {
    hide ClearLatest, KeepsInput;
    var checked := p.Check(true);
    ClearLatestRest(checked);
    assert SettleData(checked, status).s.out == p.s.out;
  }

  lemma ClearLatestRest(p: ProcView)
    ensures var q := ClearLatest(p);
            q == p.(s := q.s, fault := q.fault) && q.s.out == p.s.out && q.s.buffer == p.s.buffer
  {
    hide DropLatest, ListView.ClearLatest;
  }

  lemma BodyShape(p: ProcView, status: GolangStatus)
    requires ProcInv(p) && Shape(p) && p.state.ProcessingData?
    ensures Shape(ApplyStatus(p, status))
  {
    hide Open, Closed, EndedTwice, Flat, Store.SendList, HandleData, KeepsInput;
    AnswerShape(p, status);
    FlushShape(HandleData(p, status).0.s, p.doEndStream);
  }

  lemma TrailersShape(p: ProcView, status: GolangStatus)
    requires ProcInv(p) && Shape(p) && p.state.ProcessingTrailer?
    ensures Shape(ApplyStatus(p, status))
  {
    hide Open, Closed, EndedTwice, Flat, Store.SendList;
    FlushShape(p.s, true);
    assert p.s.SendTrailers().out == p.s.Flushed() + [Trailers];
    assert [] + [Headers(false)] == [Headers(false)];
  }

  lemma ApplyStatusShape(p: ProcView, d: Direction, status: GolangStatus)
    requires ProcInv(p) && Shape(p) && p.ProcessingInGo()
    requires LegalAnswer(PhaseOf(d, p.state), p.doEndStream, status)
    ensures Shape(ApplyStatus(p, status))
  {
    hide ApplyStatus, Shape;
    match p.state
    case ProcessingHeader => HeadersShape(p, status);
    case ProcessingData => BodyShape(p, status);
    case ProcessingTrailer => TrailersShape(p, status);
  }

  lemma ShownShape(l: Lane, data: Bytes, end: bool)
    requires Open(l.p.s.out) && (end ==> !l.p.seenTrailers)
    ensures var (g, done) := DoDataGo(l, data, end);
            && g.p.s.out == l.p.s.out && g.p.doEndStream == end && g.p.endStream == l.p.endStream
            && g.p.seenTrailers == l.p.seenTrailers && g.p.replied == l.p.replied
            && (g.p.state.Done? <==> done && end) && !g.p.state.ProcessingHeader? && !g.p.state.WaitingHeader?
            && (done && l.p.seenTrailers && l.p.s.BufferEmpty() ==> g.p.state.WaitingTrailer?)
  {
    hide HandleData, CallGo, PhaseOf, Grows, KeepsInput, ListView.Push, Open;
    AnswerShape(ProcessData(l.p, end).(s := l.p.s.Push(data)), Answer(l.t));
  }

  lemma ResumeDataShape(l: Lane)
    requires MidInv(l.p) && Shape(l.p)
    ensures Shape(ResumeData(l).0.p)
  {
    hide DoDataGo, Open, Closed, EndedTwice, Flat, Store.SendList, KeepsInput, Grows;
    if DataToResume(l.p) {
      var l1 := l.(p := l.p.(s := l.p.s.TakeBuffer()));
      ShownShape(l1, l.p.s.buffer.value, l.p.endStream);
      FlushShape(DoDataGo(l1, l.p.s.buffer.value, l.p.endStream).0.p.s, l.p.endStream);
    }
  }

  lemma TrailersShown(l: Lane, m: HeaderMap)
    requires Open(l.p.s.out)
    ensures var (g, done) := DoTrailerGo(l, m);
            && g.p.s == l.p.s && g.p.seenTrailers == l.p.seenTrailers && g.p.replied == l.p.replied
            && g.p.state == if done then Done else ProcessingTrailer
  {
  }

  lemma ResumeTrailersShape(l: Lane)
    requires Shape(l.p) && (l.p.state.WaitingTrailer? ==> l.p.seenTrailers)
    ensures Shape(ResumeTrailers(l).p)
  {
    hide DoTrailerGo, Open, Closed, EndedTwice, Flat, KeepsInput, Grows, ContinueProcessing;
    if l.p.state.WaitingTrailer? && l.t.trailers.Some? {
      TrailersShown(l, l.t.trailers.value);
      var g := DoTrailerGo(l, l.t.trailers.value).0;
      FlushShape(l.p.s, false);
      TrailersSent(g.p);
    }
  }

  lemma TrailersSent(p: ProcView)
    requires p.seenTrailers
    ensures ContinueProcessing(p) == p.(s := p.s.SendTrailers())
  {
    assert [] + [Headers(false)] == [Headers(false)];
  }

  lemma ContinueStreamShape(l: Lane, status: GolangStatus)
    requires TrafficInv(l.t) && l.t.queue == [] && RightMaps(l) && Placed(l)
    requires ProcInv(l.p) && l.p.ProcessingInGo() && l.p.started && !l.p.replied
    requires LegalAnswer(PhaseOf(l.d, l.p.state), l.p.doEndStream, status)
    requires l.t.running <==> Async(status)
    requires LegalCalls(ContinueStream(l, status).t.calls)
    requires Shape(l.p) && !AsksForNoBody(l.p, status)
    ensures Shape(ContinueStream(l, status).p)
  {
    hide ApplyStatus, ResumeData, ResumeTrailers, Shape;
    ApplyStatusMid(l.p, l.d, status);
    ApplyStatusPlaced(l, status);
    ApplyStatusShape(l.p, l.d, status);
    var l1 := l.(p := ApplyStatus(l.p, status));
    if Async(status) {
      StillAsync(l1);
    } else {
      ResumeDataShape(l1);
      var (g, more) := ResumeData(l1);
      if more {
        ResumeDataSettles(l1);
        ResumeTrailersShape(g);
      }
    }
  }

  // ---------- frames from Envoy ----------

  lemma HeadersHandled(p: ProcView, status: GolangStatus)
    requires p.state.ProcessingHeader?
    ensures var (q, done) := HandleHeader(p, status);
            && q == p.(state := q.state, fault := q.fault)
            && (if done then q.state == (if p.doEndStream then Done else WaitingData)
                else q.state.ProcessingHeader? || q.state.WaitingAllData? || q.state.WaitingData?)
  {
    hide KeepsInput;
    match status
    case Continue =>
    case StopAndBuffer =>
    case StopAndBufferWatermark =>
    case _ =>
  }

  lemma HeadersAnswered(l: Lane, end: bool)
    ensures var (g, done) := DoHeaders(l, HeadersOf(l.d), end);
            && g.p.s == l.p.s && g.p.replied == l.p.replied && g.p.seenTrailers == l.p.seenTrailers
            && g.p.doEndStream == end
            && (if done then g.p.state == (if end then Done else WaitingData)
                else g.p.state.ProcessingHeader? || g.p.state.WaitingAllData? || g.p.state.WaitingData?)
  {
    hide Grows, KeepsInput, HandleHeader, DoHeadersGo, Store.BufferEmpty;
    var p := ProcessHeader(l.p.Check(l.p.s.BufferEmpty()), end);
    assert DoHeadersGo(l.(p := p), HeadersOf(l.d), end).p == p by { HeadersGoKeeps(l.(p := p), HeadersOf(l.d), end); }
    HeadersHandled(p, Answer(l.t));
  }

  lemma HeadersGoKeeps(l: Lane, headers: HeaderMap, end: bool)
    ensures DoHeadersGo(l, headers, end).p == l.p
  {
  }

  /** Headers that Go let go at once, and headers it holds. */
  lemma HeadersOut(p: ProcView, end: bool)
    requires p.s.out == [] && !p.seenTrailers
    ensures p.state == (if end then Done else WaitingData) && p.doEndStream == end ==>
              Shape(p.(s := p.s.SendHeaders(end)))
    ensures p.state.ProcessingHeader? || p.state.WaitingAllData? || p.state.WaitingData? ==> Shape(p)
  {
    assert [] + [Headers(end)] == [Headers(end)];
  }

  lemma DoHeadersShape(l: Lane, end: bool)
    requires l.p.state.WaitingHeader? && !l.p.replied && l.p.s.out == [] && !l.p.seenTrailers
    ensures var (g, done) := DoHeaders(l, HeadersOf(l.d), end);
            && Shape(if done then g.p.(s := g.p.s.SendHeaders(end)) else g.p)
            && g.p.replied == l.p.replied
  {
    hide DoHeaders, Grows, KeepsInput, Shape;
    HeadersAnswered(l, end);
    HeadersOut(DoHeaders(l, HeadersOf(l.d), end).0.p, end);
  }

  lemma DoDataShape(l: Lane, data: Bytes, end: bool)
    requires ProcInv(l.p) && Shape(l.p) && !l.p.StreamEnd() && !l.p.replied
    ensures var (g, done) := DoData(l.(p := Received(l.p, data, end)), data, end);
            Shape(if done then g.p.(s := g.p.s.SendList(end)) else g.p)
  {
    hide DoDataGo, Open, Closed, EndedTwice, Flat, Store.SendList, KeepsInput, Grows;
    var p := Received(l.p, data, end);
    if p.state.WaitingData? || (p.state.WaitingAllData? && end) {
      var l1 := if p.state.WaitingData? || p.s.BufferEmpty() then l.(p := p) else l.(p := p.(s := p.s.TakeBuffer()));
      var chunk := if p.state.WaitingData? || p.s.BufferEmpty() then data else p.s.Buffered() + data;
      ShownShape(l1, chunk, end);
      FlushShape(DoDataGo(l1, chunk, end).0.p.s, end);
    }
  }

  lemma DoTrailerShape(l: Lane)
    requires ProcInv(l.p) && Shape(l.p) && !l.p.StreamEnd() && !l.p.replied
    ensures var (g, done) := DoTrailer(l.(p := l.p.(seenTrailers := true)), TrailersOf(l.d));
            Shape(if done then g.p.(s := g.p.s.SendTrailers()) else g.p)
  {
    hide DoDataGo, DoTrailerGo, Open, Closed, EndedTwice, Flat, KeepsInput, Grows;
    var p := l.p.(seenTrailers := true);
    var l1 := Lane(l.d, p.Check(!p.endStream && !p.doEndStream), l.t.(trailers := Some(TrailersOf(l.d))));
    if p.state.WaitingTrailer? || p.state.WaitingData? {
      TrailersShown(l1, TrailersOf(l.d));
      FlushShape(l1.p.s, false);
    } else if p.state.WaitingAllData? && !p.s.BufferEmpty() {
      var l2 := l1.(p := l1.p.(s := l1.p.s.TakeBuffer()));
      ShownShape(l2, p.s.buffer.value, false);
      var g := DoDataGo(l2, p.s.buffer.value, false).0;
      TrailersShown(g, TrailersOf(l.d));
      FlushShape(g.p.s, false);
    }
  }

  // ---------- every event ----------

  ghost predicate ShapeInv(f: FilterView) {
    Shape(f.dec) && Shape(f.enc)
  }

  lemma EnterEncodingShape(f: FilterView, end: bool)
    requires f.enc == INIT_PROC.(started := true, endStream := end) && Shape(f.dec)
    ensures ShapeInv(EnterEncoding(f, end))
  {
    hide DoHeaders, Shape;
    DoHeadersShape(f.At(Encode), end);
  }

  lemma ResponseShape(f: FilterView, end: bool)
    requires Inv(f) && !f.destroyed && !f.enc.started && ShapeInv(f)
    ensures ShapeInv(OnEncodeHeaders(f, end))
  {
    hide EnterEncoding, Abandon, Park, Shape, Inv;
    NotStarted(f);
    var g := f.(enc := f.enc.(endStream := end, started := true));
    if f.dec.state.Done? {
      EnterEncodingShape(g, end);
    } else if f.dec.ProcessingInGo() {
      SetAside(g);
      BegunShape(f.enc, end);
    } else {
      SetAside(g);
      EnterEncodingShape(Abandon(g), end);
    }
  }

  lemma BegunShape(p: ProcView, end: bool)
    requires Shape(p)
    ensures Shape(p.(endStream := end, started := true))
  {
  }

  /** Setting the request aside forwards nothing. */
  lemma SetAside(f: FilterView)
    requires !f.entered && Shape(f.dec)
    ensures Shape(Park(f).dec) && Park(f).enc == f.enc
    ensures Shape(Abandon(f).dec) && Abandon(f).enc == f.enc
  {
    hide Open, Closed, EndedTwice;
    ParkMarks(f);
    AbandonMarks(f);
    ParkFacts(f);
    AbandonFacts(f);
  }

  lemma ParkMarks(f: FilterView)
    requires !f.entered
    ensures Park(f).enc == f.enc && Park(f).dec == f.dec.(s := Park(f).dec.s)
  {
  }

  lemma AbandonMarks(f: FilterView)
    requires !f.entered
    ensures Abandon(f).enc == f.enc && Abandon(f).dec == f.dec.(s := Abandon(f).dec.s)
  {
  }

  /** A direction Envoy may still send to, and that is neither parked nor over, keeps its invariant. */
  lemma LiveProc(f: FilterView)
    requires Inv(f) && !f.destroyed
    ensures f.dec.started && !f.enc.started && !f.dec.replied ==> ProcInv(f.dec)
    ensures f.enc.started && !f.waiting && !f.enc.replied ==> f.entered && ProcInv(f.enc)
    ensures f.waiting ==> f.enc.state.WaitingHeader?
  {
  }

  lemma FrameShape(f: FilterView, e: Event)
    requires Inv(f) && ShapeInv(f) && Enabled(f, e)
    requires e.DecodeDataEvent? || e.DecodeTrailersEvent? || e.EncodeDataEvent? || e.EncodeTrailersEvent?
    ensures ShapeInv(Step(f, e))
  {
    hide DoData, DoTrailer, Open, Closed, EndedTwice, Inv, ProcInv, Store.SendList;
    LiveProc(f);
    match e
    case DecodeDataEvent(data, end) => DoDataShape(f.At(Decode), data, end);
    case DecodeTrailersEvent => DoTrailerShape(f.At(Decode));
    case EncodeDataEvent(data, end) =>
      if !f.waiting {
        DoDataShape(f.At(Encode), data, end);
        var l := Lane(Encode, Received(f.enc, data, end), f.t);
        EncodedList(f.After(DoData(l, data, end).0), end);
      }
    case EncodeTrailersEvent => if !f.waiting { DoTrailerShape(f.At(Encode)); }
  }

  /** In the encode direction response data takes the list of its own direction with it. */
  lemma EncodedList(f: FilterView, end: bool)
    requires f.entered
    ensures ForwardEncoded(f, end) == f.WithStore(Encode, f.enc.s.SendList(end))
  {
    hide Store.MoveOut, Store.SendData;
  }

  lemma ReleaseShape(f: FilterView)
    requires Parked(f.(t := f.t.(running := true))) && Quiet(f.t) && !f.destroyed && ShapeInv(f)
    requires LegalCalls(ContinueEncodeLocalReply(f).t.calls)
    requires !AsksForNoBody(f.enc.(state := ProcessingHeader), Answer(f.t))
    ensures ShapeInv(ContinueEncodeLocalReply(f))
  {
    hide ContinueStream, Open, Closed, EndedTwice;
    var g := f.WithStore(Decode, f.dec.s.ClearAll()).(waiting := false, entered := true);
    var l := EncodeParkedHeaders(g);
    ParkedEnters(f);
    assert Open([]);
    ContinueStreamShape(l, Answer(f.t));
  }

  lemma PostedShape(f: FilterView)
    requires f.t.queue != [] && Sound(f) && ShapeInv(f) && !NullBody(f, PostedEvent)
    requires LegalCalls(OnPosted(f).t.calls)
    ensures ShapeInv(OnPosted(f))
  {
    hide ContinueStream, ContinueEncodeLocalReply, Open, Closed, EndedTwice, Parked;
    PostedIsHeld(f);
    assert f.t.queue[1..] == [];
    var g := f.(t := f.t.(queue := []));
    if f.waiting {
      ReleaseShape(g);
    } else if f.t.queue[0].Resume? {
      assert Settled(Unpost(f).At(f.Cur()));
      ContinueStreamShape(g.At(g.Cur()), f.t.queue[0].status);
    } else {
      assert f.P(f.Cur()).ProcessingInGo();
    }
  }

  lemma FirstHeadersShape(f: FilterView, end: bool)
    requires Inv(f) && !f.destroyed && !f.dec.started && !f.enc.started && ShapeInv(f)
    ensures ShapeInv(OnDecodeHeaders(f, end))
  {
    hide DoHeaders, Shape, Inv;
    NotBegun(f);
    DoHeadersShape(Lane(Decode, f.dec.(endStream := end, started := true), f.t), end);
  }

  lemma MarkingShape(f: FilterView, e: Event)
    requires ShapeInv(f)
    requires e.DestroyEvent? || e.GoCompletesEvent? || (e.PostedEvent? && (f.destroyed || f.t.queue == []))
    ensures ShapeInv(Step(f, e))
  {
    hide Shape, ContinueStatusInternal, SendLocalReplyInternal;
  }

  lemma StepShape(f: FilterView, e: Event)
    requires Inv(f) && ShapeInv(f) && Link(f, e, Step(f, e))
    ensures ShapeInv(Step(f, e))
  {
    hide ShapeInv, Sound, LegalCalls;
    hide OnDecodeHeaders, OnDecodeData, OnDecodeTrailers, OnEncodeHeaders, OnEncodeData, OnEncodeTrailers, OnPosted;
    match e
    case DecodeHeadersEvent(end) => FirstHeadersShape(f, end);
    case EncodeHeadersEvent(end) => ResponseShape(f, end);
    case DestroyEvent => MarkingShape(f, e);
    case GoCompletesEvent(_) => MarkingShape(f, e);
    case PostedEvent => if f.destroyed { MarkingShape(f, e); } else { PostedShape(f); }
    case _ => FrameShape(f, e);
  }

  lemma InitShape(go: Oracle)
    ensures ShapeInv(InitFilter(go))
  {
  }

  lemma {:induction false} RunKeepsShape(go: Oracle, run: Run)
    requires Valid(go, run)
    ensures ShapeInv(run.Last())
    decreases |run.events|
  {
    hide Inv, ShapeInv, Step, Enabled, LegalCalls;
    if run.events == [] {
      InitShape(go);
    } else {
      DropLast(InitFilter(go), run);
      RunKeepsShape(go, run.Before());
      RunSafe(go, run.Before());
      StepShape(run.Before().Last(), run.LastEvent());
    }
  }

  // ---------- the theorem ----------

  /** Headers come first and only there, trailers come last. */
  ghost predicate WellFormed(out: seq<Frame>) {
    && (forall i :: 0 <= i < |out| ==> (out[i].Headers? <==> i == 0))
    && (forall i :: 0 <= i < |out| - 1 ==> !out[i].Trailers?)
  }

  lemma EndedTwiceEnds(out: seq<Frame>)
    requires EndedTwice(out)
    ensures WellFormed(out) && Ends(out) == 2 && EndsStream(out[|out| - 1])
  {
    hide Ends;
    var open, data := out[..|out| - 2], out[|out| - 2];
    EndsSnoc(open, data);
    assert out[..|out| - 1] == open + [data];
    assert forall i :: 0 <= i < |open| ==> open[i] == out[i];
    EndsLast(out);
  }

  lemma EndsLast(out: seq<Frame>)
    requires out != []
    ensures Ends(out) == Ends(out[..|out| - 1]) + if EndsStream(out[|out| - 1]) then 1 else 0
  {
  }

  lemma ClosedEnds(out: seq<Frame>, trailers: bool)
    requires Closed(out, trailers)
    ensures WellFormed(out) && Ends(out) == 1 && EndsStream(out[|out| - 1])
  {
    hide Ends;
    var open := out[..|out| - 1];
    assert out == open + [out[|out| - 1]];
    assert forall i :: 0 <= i < |open| ==> open[i] == out[i];
    EndsSnoc(open, out[|out| - 1]);
  }

  /**
   On every run, in both directions and for every legal Go filter: the next filter sees headers first,
   then body, then trailers; the stream has ended for it if and only if the direction is Done, and then
   with the last frame; it has ended once, except that trailers may follow a flush that claimed the end.
   */
  lemma RunShape(go: Oracle, run: Run, d: Direction)
    requires Valid(go, run)
    ensures var p := run.Last().P(d);
            && WellFormed(p.s.out)
            && (p.state.Done? <==> Ends(p.s.out) > 0)
            && (p.state.Done? ==> EndsStream(p.s.out[|p.s.out| - 1]))
            && Ends(p.s.out) <= (if p.seenTrailers then 2 else 1)
  {
    hide Link, Ends, Open, Closed, EndedTwice, WellFormed;
    RunKeepsShape(go, run);
    var p := run.Last().P(d);
    if !p.state.Done? {
      OpenIsWellFormed(p.s.out);
    } else if Closed(p.s.out, p.seenTrailers) {
      ClosedEnds(p.s.out, p.seenTrailers);
      NotEmpty(p.s.out, p.seenTrailers);
    } else {
      EndedTwiceEnds(p.s.out);
    }
  }

  lemma NotEmpty(out: seq<Frame>, trailers: bool)
    requires Closed(out, trailers)
    ensures out != []
  {
  }

  lemma OpenIsWellFormed(out: seq<Frame>)
    requires Open(out)
    ensures WellFormed(out) && Ends(out) == 0
  {
    hide Ends;
    OpenEnds(out);
  }
}
