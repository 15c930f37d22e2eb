/**
 A Go filter that always answers Continue, at once or later, is invisible: whatever the schedule,
 the next filter receives a prefix of what this filter received, and when a direction is Done it has
 received exactly that, with one end of stream at the end.
 */
module StreamTransparency {
  import opened StreamTypes
  import opened StreamSpec
  import opened StreamRuns
  import opened StreamSafety
  import opened StreamLedger
  import opened StreamProtocol
  import opened StreamStalls

  // ---------- runs of a pass-through filter ----------

  /** empty() tells the truth about a chunk: its size is not a multiple of 2^32 other than 0. */
  predicate Counted(data: Bytes) {
    Wrap(|data|) == 0 ==> data == []
  }

  predicate PassCall(c: GoCall) {
    (c.answer.Continue? || c.answer.Running?) && Counted(c.bytes)
  }

  ghost predicate PassCalls(calls: seq<GoCall>) {
    forall i :: 0 <= i < |calls| ==> PassCall(calls[i])
  }

  /** What Go answers later lets through as well. */
  predicate PassEvent(f: FilterView, e: Event) {
    e.GoCompletesEvent? ==> e.completion == Resume(Continue)
  }

  ghost predicate PassLink(f: FilterView, e: Event, g: FilterView) {
    PassEvent(f, e) && PassCalls(g.t.calls)
  }

  ghost predicate PassRun(run: Run)
    requires run.Shaped()
  {
    forall i {:trigger run.events[i], run.states[i]} :: 0 <= i < |run.events| ==>
      PassLink(run.states[i], run.events[i], run.states[i + 1])
  }

  lemma DropLastPass(run: Run)
    requires run.Shaped() && PassRun(run) && run.events != []
    ensures PassRun(run.Before()) && PassLink(run.Before().Last(), run.LastEvent(), run.Last())
  {
    hide PassLink;
    var n := |run.events| - 1;
    assert run.events[n] == run.LastEvent();
    forall i | 0 <= i < n
      ensures PassLink(run.Before().states[i], run.Before().events[i], run.Before().states[i + 1])
    {
      assert run.events[i] == run.Before().events[i];
    }
  }

  // ---------- the shape of what was forwarded ----------

  predicate OpenFrame(frame: Frame, first: bool) {
    if first then frame == Headers(false) else frame.Data? && !frame.end
  }

  /** Nothing yet, or headers and body frames with no end of stream. */
  ghost predicate Open(out: seq<Frame>) {
    forall i :: 0 <= i < |out| ==> OpenFrame(out[i], i == 0)
  }

  /** Headers, body frames, and one end of stream on the last frame. */
  ghost predicate Closed(out: seq<Frame>, trailers: bool) {
    && out != []
    && (forall i :: 0 <= i < |out| - 1 ==> OpenFrame(out[i], i == 0))
    && var last := out[|out| - 1];
       if |out| == 1 then last == Headers(true) && !trailers
       else if trailers then last.Trailers?
       else last.Data? && last.end
  }

  lemma OpenSend(s: Store, data: Bytes, end: bool)
    requires Open(s.out)
    ensures if end then Closed(s.SendData(data, end).out, false) else Open(s.SendData(data, end).out)
    ensures Closed(s.SendTrailers().out, true)
  {
    assert s.SendData(data, end).out[..|s.Flushed()|] == s.Flushed();
    assert s.SendTrailers().out[..|s.Flushed()|] == s.Flushed();
  }

  // ---------- the pass-through invariant of one direction ----------

  ghost predicate NoDrops(hist: seq<Piece>) {
    forall i :: 0 <= i < |hist| ==> !hist[i].fate.Dropped?
  }

  lemma ConcatThree(a: Bytes, b: Bytes, c: Bytes)
    ensures (a + b) + c == a + (b + c)
  {
  }

  /** With nothing dropped, the ledger is what was forwarded followed by what is held. */
  lemma {:induction false} NoDropsSplit(hist: seq<Piece>)
    requires NoDrops(hist) && InOrder(hist)
    ensures HistBytes(hist) == Flat(Select(hist, Forwarded)) + Flat(Select(hist, Held))
  {
    if hist != [] {
      var init, last := hist[..|hist| - 1], hist[|hist| - 1];
      NoDropsSplit(init);
      var sent, held := Select(init, Forwarded), Select(init, Held);
      if last.fate.Forwarded? {
        assert forall i :: 0 <= i < |init| ==> !hist[i].fate.Held?;
        NothingHeld(init);
        FlatSnoc(sent, last.bytes);
      } else {
        FlatSnoc(held, last.bytes);
        ConcatThree(Flat(sent), Flat(held), last.bytes);
      }
    }
  }

  lemma SettleNoDrops(hist: seq<Piece>)
    requires NoDrops(hist)
    ensures NoDrops(Settle(hist, Forwarded))
  {
    SettlePointwise(hist, Forwarded);
  }

  /** The books of a pass-through direction. */
  ghost predicate PassBooks(s: Store, rest: Bytes) {
    LedgerWith(s, rest) && NoDrops(s.hist)
  }

  /** Received is forwarded, then held, then the rest. */
  lemma PassBooksSplit(s: Store, rest: Bytes)
    requires PassBooks(s, rest)
    ensures s.recv == OutBytes(s.out) + Flat(s.list.queue) + rest
    ensures Counted(Flat(s.list.queue)) ==> (s.list.Empty() <==> Flat(s.list.queue) == [])
  {
    hide Flat, HistBytes, Select, OutBytes, InOrder, NoDrops;
    NoDropsSplit(s.hist);
  }

  /** Only the end of the stream keeps headers that Go let go. */
  predicate HeadersGone(p: ProcView) {
    p.s.out == [] ==> p.StreamEnd()
  }

  /** Between two events. */
  ghost predicate Passing(p: ProcView) {
    && PassBooks(p.s, p.s.Buffered())
    && match p.state
       case ProcessingHeader => p.s.out == [] && p.s.hist == []
       case WaitingData => Open(p.s.out) && Flat(p.s.list.queue) == [] && HeadersGone(p)
       case ProcessingData => Open(p.s.out) && Counted(Flat(p.s.list.queue)) && HeadersGone(p)
       case ProcessingTrailer => Open(p.s.out) && Flat(p.s.list.queue) == []
       case Done => Closed(p.s.out, p.seenTrailers) && Flat(p.s.list.queue) == []
       case _ => false
  }

  /** Between the answer of Go and the next call into Go. */
  ghost predicate PassingMid(p: ProcView) {
    && PassBooks(p.s, p.s.Buffered())
    && match p.state
       case WaitingData => Open(p.s.out) && Flat(p.s.list.queue) == [] && HeadersGone(p)
       case WaitingTrailer => Open(p.s.out) && Flat(p.s.list.queue) == []
       case Done => Closed(p.s.out, p.seenTrailers) && Flat(p.s.list.queue) == []
       case _ => false
  }

  lemma SendListPasses(s: Store, end: bool)
    requires PassBooks(s, s.Buffered()) && Open(s.out)
    ensures PassBooks(s.SendList(end), s.Buffered()) && Flat(s.SendList(end).list.queue) == []
    ensures if end then Closed(s.SendList(end).out, false) else Open(s.SendList(end).out)
  {
    SendListLedger(s, end);
    SettleNoDrops(s.hist);
    OpenSend(s.MoveOut(), Flat(s.list.queue), end);
  }

  lemma ContinueDoDataPasses(p: ProcView)
    requires PassBooks(p.s, p.s.Buffered()) && Open(p.s.out) && Counted(Flat(p.s.list.queue))
    requires p.doEndStream ==> p.endStream
    ensures var q := ContinueDoData(p);
            && q == p.(s := q.s) && q.s.buffer == p.s.buffer
            && PassBooks(q.s, q.s.Buffered()) && Flat(q.s.list.queue) == [] && (q.s.out == [] ==> p.s.out == [])
            && (if p.doEndStream then Closed(q.s.out, false) else Open(q.s.out))
  {
    SendListPasses(p.s, p.doEndStream);
    PassBooksSplit(p.s, p.s.Buffered());
  }

  /** Go lets the headers go. */
  lemma HeaderPasses(p: ProcView)
    requires ProcInv(p) && Passing(p) && p.state.ProcessingHeader?
    ensures PassingMid(ApplyStatus(p, Continue))
  {
    var q := HandleHeader(p, Continue).0;
    FrameLedger(q.s, q.endStream && !q.seenTrailers);
    if p.doEndStream || !p.StreamEnd() {
      assert ContinueProcessing(q).s.out == [Headers(p.doEndStream)];
    }
  }

  lemma DataPasses(p: ProcView)
    requires ProcInv(p) && Passing(p) && p.state.ProcessingData?
    ensures PassingMid(ApplyStatus(p, Continue))
  {
    var q := HandleData(p, Continue).0;
    ContinueDoDataPasses(q);
  }

  /** Continuing a direction whose trailers have come sends them, behind the headers. */
  lemma TrailersOut(p: ProcView)
    requires PassBooks(p.s, p.s.Buffered()) && Open(p.s.out) && p.seenTrailers
    ensures ContinueProcessing(p) == p.(s := p.s.SendTrailers())
    ensures PassBooks(p.s.SendTrailers(), p.s.Buffered()) && Closed(p.s.SendTrailers().out, true)
  {
    FrameLedger(p.s, false);
    OpenSend(p.s, [], false);
    assert [] + [Headers(false)] == [Headers(false)];
  }

  lemma TrailersPass(p: ProcView)
    requires ProcInv(p) && Passing(p) && p.state.ProcessingTrailer?
    ensures PassingMid(ApplyStatus(p, Continue))
  {
    PassBooksSplit(p.s, p.s.Buffered());
    var q := HandleTrailer(p, Continue).0;
    assert ContinueDoData(q) == q;
    TrailersOut(q);
  }

  predicate SameLife(p: ProcView, q: ProcView) {
    q.started == p.started && q.replied == p.replied
  }

  /** Showing Go a chunk is one call, answered by its next answer. */
  lemma DoDataGoAsks(l: Lane, data: Bytes, end: bool)
    requires PassCalls(DoDataGo(l, data, end).0.t.calls)
    ensures PassCall(GoCall(DecodeData, end, data, None, Answer(l.t)))
    ensures SameLife(l.p, DoDataGo(l, data, end).0.p)
  {
    assert PassCall(DoDataGo(l, data, end).0.t.calls[|l.t.calls|]);
  }

  /** Go is shown a chunk in a direction that has nothing else to show. */
  lemma DoDataGoPasses(l: Lane, data: Bytes, end: bool)
    requires l.p.state.WaitingData? && l.p.s.BufferEmpty() && Open(l.p.s.out)
    requires PassBooks(l.p.s, data) && Flat(l.p.s.list.queue) == []
    requires end == l.p.endStream && !(l.p.endStream && l.p.seenTrailers)
    requires PassCall(GoCall(DecodeData, end, data, None, Answer(l.t)))
    ensures var (g, done) := DoDataGo(l, data, end);
            && g.p.s == l.p.s.Push(data) && g.p.doEndStream == end
            && g.p.endStream == l.p.endStream && g.p.seenTrailers == l.p.seenTrailers
            && PassBooks(g.p.s, []) && Flat(g.p.s.list.queue) == data && done == Answer(l.t).Continue?
            && g.p.state == if !done then ProcessingData else if end then Done
                            else if l.p.seenTrailers then WaitingTrailer else WaitingData
  {
    hide Open, LedgerWith, PhaseOf, Grows, KeepsInput;
    PushLedger(l.p.s, data);
    PushNoDrops(l.p.s, data);
    FlatSnoc(l.p.s.list.queue, data);
    assert [] + data == data;
  }

  lemma PushNoDrops(s: Store, data: Bytes)
    requires NoDrops(s.hist)
    ensures NoDrops(s.Push(data).hist)
  {
  }

  lemma DoTrailerGoPasses(l: Lane, trailers: HeaderMap)
    requires PassBooks(l.p.s, l.p.s.Buffered()) && Open(l.p.s.out) && Flat(l.p.s.list.queue) == []
    requires PassCall(GoCall(DecodeTrailer, true, [], None, Answer(l.t)))
    ensures var (g, done) := DoTrailerGo(l, trailers);
            && g.p.s == l.p.s && g.p.endStream == l.p.endStream && g.p.seenTrailers == l.p.seenTrailers
            && done == Answer(l.t).Continue?
            && g.p.state == (if done then Done else ProcessingTrailer)
  {
  }

  lemma ResumeDataShows(l: Lane)
    requires MidInv(l.p) && PassingMid(l.p) && DataToResume(l.p)
    requires PassCalls(ResumeData(l).0.t.calls)
    ensures var (g, more) := ResumeData(l);
            if more then PassingMid(g.p) && !DataToResume(g.p) else Passing(g.p)
  {
    hide HistBytes, Select, OutBytes, InOrder, NoDrops, Open, Closed, Flat, Wrap;
    hide HandleData, ContinueDoData, DoDataGo, ProcessData;
    var data := l.p.s.buffer.value;
    var l1 := l.(p := l.p.(s := l.p.s.TakeBuffer()));
    var (g, done) := DoDataGo(l1, data, l.p.endStream);
    DoDataGoAsks(l1, data, l.p.endStream);
    DoDataGoPasses(l1, data, l.p.endStream);
    if done {
      ContinueDoDataPasses(g.p);
    }
  }

  lemma ResumeDataPasses(l: Lane)
    requires MidInv(l.p) && PassingMid(l.p)
    requires PassCalls(ResumeData(l).0.t.calls)
    ensures var (g, more) := ResumeData(l);
            if more then PassingMid(g.p) && !DataToResume(g.p) else Passing(g.p)
  {
    hide PassBooks, Open, Closed, Flat, HandleData, ContinueDoData;
    if DataToResume(l.p) {
      ResumeDataShows(l);
    }
  }

  lemma ResumeTrailersPasses(l: Lane)
    requires MidInv(l.p) && PassingMid(l.p) && !DataToResume(l.p)
    requires l.p.seenTrailers ==> l.t.trailers.Some?
    requires PassCalls(ResumeTrailers(l).t.calls)
    ensures Passing(ResumeTrailers(l).p)
  {
    if l.p.state.WaitingTrailer? {
      var (g, done) := DoTrailerGo(l, l.t.trailers.value);
      assert PassCall(g.t.calls[|l.t.calls|]);
      DoTrailerGoPasses(l, l.t.trailers.value);
      TrailersOut(g.p);
    }
  }

  lemma ContinueStreamPasses(l: Lane, status: GolangStatus)
    requires TrafficInv(l.t) && l.t.queue == [] && RightMaps(l) && Placed(l)
    requires ProcInv(l.p) && l.p.ProcessingInGo() && l.p.started && !l.p.replied
    requires status.Continue? ==> !l.t.running
    requires Passing(l.p) && (status.Continue? || status.Running?)
    requires LegalCalls(ContinueStream(l, status).t.calls) && PassCalls(ContinueStream(l, status).t.calls)
    ensures Passing(ContinueStream(l, status).p)
  {
    hide Passing, PassingMid, ProcInv, MidInv, ResumeData, ResumeTrailers;
    ApplyStatusMid(l.p, l.d, status);
    ApplyStatusPlaced(l, status);
    if status.Running? {
      AsyncKeeps(l);
    } else {
      CompletionPasses(l.p);
      var l1 := l.(p := ApplyStatus(l.p, Continue));
      ResumeDataPasses(l1);
      ResumeDataSettles(l1);
      var (g, more) := ResumeData(l1);
      if more {
        QuietMid(g);
        ResumeTrailersPasses(g);
      }
    }
  }

  lemma CompletionPasses(p: ProcView)
    requires ProcInv(p) && Passing(p) && p.ProcessingInGo()
    ensures PassingMid(ApplyStatus(p, Continue))
  {
    hide Passing, PassingMid, ApplyStatus;
    match p.state
    case ProcessingHeader => HeaderPasses(p);
    case ProcessingData => DataPasses(p);
    case ProcessingTrailer => TrailersPass(p);
  }

  lemma AsyncKeeps(l: Lane)
    requires ProcInv(l.p) && l.p.ProcessingInGo()
    ensures ContinueStream(l, Running) == l
  {
  }

  lemma QuietMid(l: Lane)
    requires Settled(l) && !l.t.running && PassingMid(l.p)
    ensures MidInv(l.p) && (l.p.seenTrailers ==> l.t.trailers.Some?)
  {
  }

  // ---------- frames from Envoy ----------

  lemma FirstHeaders(end: bool)
    ensures LedgerWith(INIT_STORE, []) && LedgerWith(INIT_STORE.SendHeaders(end), [])
    ensures INIT_STORE.SendHeaders(end).out == [Headers(end)] && INIT_STORE.SendHeaders(end).Buffered() == []
  {
    FrameLedger(INIT_STORE, end);
  }

  lemma DoHeadersPasses(l: Lane, end: bool)
    requires l.p == INIT_PROC.(started := true, endStream := end)
    requires PassCalls(DoHeaders(l, HeadersOf(l.d), end).0.t.calls)
    ensures var (g, done) := DoHeaders(l, HeadersOf(l.d), end);
            Passing(if done then g.p.(s := g.p.s.SendHeaders(end)) else g.p) && SameLife(l.p, g.p)
  {
    hide Grows, KeepsInput, HistBytes, Select, OutBytes, Ledger, LedgerWith;
    var (g, done) := DoHeaders(l, HeadersOf(l.d), end);
    assert PassCall(g.t.calls[|l.t.calls|]);
    assert g.p.s == INIT_STORE;
    FirstHeaders(end);
  }

  lemma DoDataPasses(l: Lane, data: Bytes, end: bool)
    requires Settled(l) && Passing(l.p) && !l.p.StreamEnd()
    requires PassCalls(DoData(l.(p := Received(l.p, data, end)), data, end).0.t.calls)
    ensures var (g, done) := DoData(l.(p := Received(l.p, data, end)), data, end);
            Passing(if done then g.p.(s := g.p.s.SendList(end)) else g.p) && SameLife(l.p, g.p)
  {
    hide LedgerWith, DoDataGo, Settled, Open, Closed, NoDrops, Flat;
    SettledState(l);
    ReceivedLedger(l.p, data, end);
    if l.p.state.WaitingData? {
      assert l.p.s.Buffered() + data == data;
      ShownDataPasses(l, data, end);
    }
  }

  lemma SettledState(l: Lane)
    requires Settled(l)
    ensures ProcInv(l.p) && l.p.started && !l.p.replied
  {
  }

  lemma ShownDataPasses(l: Lane, data: Bytes, end: bool)
    requires ProcInv(l.p) && Passing(l.p) && !l.p.StreamEnd() && l.p.state.WaitingData?
    requires PassBooks(Received(l.p, data, end).s, data)
    requires PassCalls(DoDataGo(l.(p := Received(l.p, data, end)), data, end).0.t.calls)
    ensures var (g, done) := DoDataGo(l.(p := Received(l.p, data, end)), data, end);
            Passing(if done then g.p.(s := g.p.s.SendList(end)) else g.p) && SameLife(l.p, g.p)
  {
    hide LedgerWith, DoDataGo, Open, Closed, NoDrops, Flat, Store.SendList;
    var l1 := l.(p := Received(l.p, data, end));
    var (g, done) := DoDataGo(l1, data, end);
    DoDataGoAsks(l1, data, end);
    DoDataGoPasses(l1, data, end);
    if done {
      SendListPasses(g.p.s, end);
      SendListBuffer(g.p.s, end);
    }
  }

  lemma SendListBuffer(s: Store, end: bool)
    ensures s.SendList(end).buffer == s.buffer && s.SendList(end).out != []
  {
  }

  lemma DoTrailerPasses(l: Lane)
    requires Settled(l) && Passing(l.p) && !l.p.StreamEnd()
    requires PassCalls(DoTrailer(l.(p := l.p.(seenTrailers := true)), TrailersOf(l.d)).0.t.calls)
    ensures var (g, done) := DoTrailer(l.(p := l.p.(seenTrailers := true)), TrailersOf(l.d));
            Passing(if done then g.p.(s := g.p.s.SendTrailers()) else g.p) && SameLife(l.p, g.p)
  {
    var p := l.p.(seenTrailers := true);
    if l.p.state.WaitingData? {
      var (g, done) := DoTrailer(l.(p := p), TrailersOf(l.d));
      assert PassCall(g.t.calls[|l.t.calls|]);
      FrameLedger(l.p.s, false);
      OpenSend(l.p.s, [], false);
    }
  }

  // ---------- the pass-through invariant of the filter ----------

  /** What the next filter got is a prefix of what came in, and all of it once the direction is Done. */
  ghost predicate Faithful(p: ProcView) {
    && OutBytes(p.s.out) <= p.s.recv
    && (if p.state.Done? then Closed(p.s.out, p.seenTrailers) && OutBytes(p.s.out) == p.s.recv
        else Open(p.s.out))
  }

  lemma PassingFaithful(p: ProcView)
    requires ProcInv(p) && Passing(p)
    ensures Faithful(p)
  {
    PassBooksSplit(p.s, p.s.Buffered());
  }

  /** A response that is parked has its books, and nothing of it went anywhere. */
  ghost predicate ParkedBooks(p: ProcView) {
    PassBooks(p.s, p.s.Buffered()) && p.s.out == [] && p.s.hist == []
  }

  /** The live direction passes everything through. */
  ghost predicate LivePasses(f: FilterView) {
    && !f.dec.replied && !f.enc.replied
    && (f.dec.started && !f.enc.started ==> Passing(f.dec))
    && (f.waiting ==> ParkedBooks(f.enc))
    && (f.entered ==> Passing(f.enc))
  }

  ghost predicate PassInv(f: FilterView) {
    && Faithful(f.dec) && Faithful(f.enc)
    && (!f.destroyed ==>
          && LivePasses(f)
          && (forall c :: c in f.t.queue ==> c == Resume(Continue)))
  }

  lemma DecodeFramePasses(f: FilterView, e: Event)
    requires f.t.queue == [] && LivePasses(f) && Enabled(f, e) && PassEvent(f, e) && PassCalls(Step(f, e).t.calls)
    requires if e.DecodeHeadersEvent? then f == InitFilter(f.t.go)
             else Steady(f) && (e.DecodeDataEvent? || e.DecodeTrailersEvent?)
    ensures LivePasses(Step(f, e)) && Step(f, e).enc == f.enc
  {
    hide Settled, Passing, DoHeaders, DoData, DoTrailer;
    match e
    case DecodeHeadersEvent(end) =>
      DoHeadersPasses(Lane(Decode, f.dec.(endStream := end, started := true), f.t), end);
    case DecodeDataEvent(data, end) =>
      DoDataPasses(f.At(Decode), data, end);
    case DecodeTrailersEvent =>
      DoTrailerPasses(f.At(Decode));
  }

  lemma EncodeFramePasses(f: FilterView, e: Event)
    requires f.t.queue == [] && Steady(f) && f.entered
    requires LivePasses(f) && Enabled(f, e) && PassEvent(f, e) && PassCalls(Step(f, e).t.calls)
    requires e.EncodeDataEvent? || e.EncodeTrailersEvent?
    ensures LivePasses(Step(f, e)) && Step(f, e).dec == f.dec
  {
    hide Settled, Passing, DoData, DoTrailer;
    match e
    case EncodeDataEvent(data, end) =>
      DoDataPasses(f.At(Encode), data, end);
    case EncodeTrailersEvent =>
      DoTrailerPasses(f.At(Encode));
  }

  lemma ParkedFramePasses(f: FilterView, e: Event)
    requires f.t.queue == [] && Parked(f)
    requires LivePasses(f) && Enabled(f, e) && PassEvent(f, e)
    requires e.EncodeDataEvent? || e.EncodeTrailersEvent?
    ensures LivePasses(Step(f, e)) && Step(f, e).dec == f.dec && Step(f, e).waiting
  {
    if e.EncodeDataEvent? {
      ReceivedLedger(f.enc, e.data, e.end);
    }
  }

  /** The decode direction is left as it is; what it forwarded stays a prefix of what it received. */
  lemma CutFaithful(p: ProcView)
    requires Faithful(p) && !p.state.Done?
    ensures Faithful(p.(s := p.s.Drain())) && Faithful(p.(s := p.s.ClearAll()))
    ensures Faithful(p.(s := p.s.Drain().ClearAll()))
  {
  }

  lemma EncodeHeadersPass(f: FilterView, end: bool)
    requires f.t.queue == [] && (f == InitFilter(f.t.go) || (Steady(f) && !f.entered))
    requires LivePasses(f) && Faithful(f.dec) && PassCalls(OnEncodeHeaders(f, end).t.calls)
    ensures LivePasses(OnEncodeHeaders(f, end)) && Faithful(OnEncodeHeaders(f, end).dec)
  {
    hide Settled, Passing, Faithful, DoHeaders;
    if !f.dec.state.Done? { CutFaithful(f.dec); }
    if f.dec.ProcessingInGo() {
      BooksInit();
    } else {
      DoHeadersPasses(Lane(Encode, INIT_PROC.(started := true, endStream := end), f.t), end);
    }
  }

  lemma BooksInit()
    ensures PassBooks(INIT_STORE, [])
  {
  }

  // ---------- what came in, read off the events ----------

  function BodyOf(e: Event, d: Direction): Bytes {
    match e
    case DecodeDataEvent(data, _) => if d.Decode? then data else []
    case EncodeDataEvent(data, _) => if d.Encode? then data else []
    case _ => []
  }

  /** The body bytes Envoy handed to a direction. */
  function Body(events: seq<Event>, d: Direction): Bytes {
    if events == [] then [] else Body(events[..|events| - 1], d) + BodyOf(events[|events| - 1], d)
  }

  predicate IsTrailers(e: Event, d: Direction) {
    if d.Decode? then e.DecodeTrailersEvent? else e.EncodeTrailersEvent?
  }

  ghost predicate TakesInput(f: FilterView, e: Event, g: FilterView, d: Direction) {
    && g.P(d).s.recv == f.P(d).s.recv + BodyOf(e, d)
    && g.P(d).seenTrailers == (f.P(d).seenTrailers || IsTrailers(e, d))
  }

  ghost predicate SameInput(p: ProcView, q: ProcView) {
    q.s.recv == p.s.recv && q.seenTrailers == p.seenTrailers
  }

  predicate IsDecodeFrame(e: Event) {
    e.DecodeHeadersEvent? || e.DecodeDataEvent? || e.DecodeTrailersEvent?
  }

  lemma DecodeHeadersInput(f: FilterView, end: bool)
    ensures SameInput(f.dec, OnDecodeHeaders(f, end).dec)
    ensures OnDecodeHeaders(f, end).enc == f.enc && OnDecodeHeaders(f, end).t.queue == f.t.queue
  {
    hide DoHeaders;
  }

  lemma DecodeInput(f: FilterView, e: Event)
    requires e.DecodeDataEvent? || e.DecodeTrailersEvent?
    ensures TakesInput(f, e, Step(f, e), Decode) && Step(f, e).enc == f.enc && Step(f, e).t.queue == f.t.queue
  {
    hide DoData, DoTrailer;
    assert f.dec.s.recv + [] == f.dec.s.recv;
  }

  lemma EnterEncodingInput(f: FilterView, end: bool)
    ensures SameInput(f.enc, EnterEncoding(f, end).enc)
    ensures EnterEncoding(f, end).dec == f.dec && EnterEncoding(f, end).t.queue == f.t.queue
  {
    hide DoHeaders;
  }

  lemma EncodeHeadersInput(f: FilterView, end: bool)
    requires !f.entered
    ensures SameInput(f.dec, OnEncodeHeaders(f, end).dec) && SameInput(f.enc, OnEncodeHeaders(f, end).enc)
    ensures OnEncodeHeaders(f, end).t.queue == f.t.queue
  {
    hide EnterEncoding, Abandon, Park;
    var g := f.(enc := f.enc.(endStream := end, started := true));
    if f.dec.state.Done? {
      EnterEncodingInput(g, end);
    } else if f.dec.ProcessingInGo() {
      ParkFacts(g);
    } else {
      AbandonFacts(g);
      EnterEncodingInput(Abandon(g), end);
    }
  }

  lemma EncodeInput(f: FilterView, e: Event)
    requires e.EncodeDataEvent? || e.EncodeTrailersEvent?
    ensures TakesInput(f, e, Step(f, e), Encode) && SameInput(f.dec, Step(f, e).dec)
    ensures Step(f, e).t.queue == f.t.queue
  {
    hide DoData, DoTrailer;
    assert f.enc.s.recv + [] == f.enc.s.recv;
  }

  lemma PostedInput(f: FilterView)
    requires f.t.queue != []
    ensures forall d: Direction :: SameInput(f.P(d), OnPosted(f).P(d))
  {
    hide ContinueStream;
    var g := f.(t := f.t.(queue := f.t.queue[1..]));
    ParkedInput(g);
    ReplyInput(g);
  }

  lemma ParkedInput(f: FilterView)
    ensures forall d: Direction :: SameInput(f.P(d), ContinueEncodeLocalReply(f).P(d))
  {
    hide ContinueStream;
  }

  lemma ReplyInput(f: FilterView)
    ensures forall d: Direction :: SameInput(f.P(d), SendLocalReplyInternal(f).P(d))
  {
    hide ContinueEncodeLocalReply;
    ParkedInput(f);
  }

  /** Every event brings a direction the bytes it carries, and no others. */
  lemma StepInput(f: FilterView, e: Event, d: Direction)
    requires Enabled(f, e) && (f.entered ==> f.enc.started)
    ensures TakesInput(f, e, Step(f, e), d)
  {
    hide OnDecodeHeaders, OnDecodeData, OnDecodeTrailers, OnEncodeHeaders, OnEncodeData, OnEncodeTrailers, OnPosted;
    assert f.P(d).s.recv + [] == f.P(d).s.recv;
    match e
    case EncodeHeadersEvent(end) => EncodeHeadersInput(f, end);
    case EncodeDataEvent(_, _) => EncodeInput(f, e);
    case EncodeTrailersEvent => EncodeInput(f, e);
    case PostedEvent => PostedInput(f);
    case DestroyEvent =>
    case GoCompletesEvent(_) =>
    case DecodeHeadersEvent(end) => DecodeHeadersInput(f, end);
    case _ => DecodeInput(f, e);
  }

  // ---------- every event ----------

  /** Frames from Envoy while Go is idle, or while it holds its call. */
  lemma FramePasses(f: FilterView, e: Event)
    requires f.t.queue == [] && (f == InitFilter(f.t.go) || Base(f))
    requires LivePasses(f) && Faithful(f.dec) && Faithful(f.enc)
    requires Enabled(f, e) && PassEvent(f, e) && IsFrame(e) && PassCalls(Step(f, e).t.calls)
    ensures LivePasses(Step(f, e))
    ensures !e.DecodeHeadersEvent? && !e.DecodeDataEvent? && !e.DecodeTrailersEvent? ==> Faithful(Step(f, e).dec)
  {
    hide Settled, Passing, Faithful;
    hide OnDecodeHeaders, OnDecodeData, OnDecodeTrailers, OnEncodeHeaders, OnEncodeData, OnEncodeTrailers;
    if f != InitFilter(f.t.go) { BaseFacts(f); }
    match e
    case DecodeHeadersEvent(_) => DecodeFramePasses(f, e);
    case DecodeDataEvent(_, _) => DecodeFramePasses(f, e);
    case DecodeTrailersEvent => DecodeFramePasses(f, e);
    case EncodeHeadersEvent(end) => EncodeHeadersPass(f, end);
    case EncodeDataEvent(_, _) => if f.waiting { ParkedFramePasses(f, e); } else { EncodeFramePasses(f, e); }
    case EncodeTrailersEvent => if f.waiting { ParkedFramePasses(f, e); } else { EncodeFramePasses(f, e); }
  }

  lemma BaseFacts(f: FilterView)
    requires Base(f) && LivePasses(f)
    ensures f.waiting ==> Parked(f) && !f.entered && f.enc.started
    ensures !f.waiting ==> Steady(f) && f.P(f.Cur()).started && f.entered == f.enc.started
  {
  }

  lemma PostedPasses(f: FilterView)
    requires f.t.queue == [Resume(Continue)] && Sound(f) && LivePasses(f) && Faithful(f.dec)
    requires LegalCalls(OnPosted(f).t.calls) && PassCalls(OnPosted(f).t.calls)
    ensures LivePasses(OnPosted(f)) && (f.waiting || f.entered ==> Faithful(OnPosted(f).dec))
  {
    hide Passing, Faithful, ContinueStream, ContinueEncodeLocalReply;
    var g := f.(t := f.t.(queue := []));
    assert f.t.queue[1..] == [];
    if f.waiting {
      ParkedPasses(g);
    } else {
      assert Settled(Unpost(f).At(f.Cur()));
      ContinueStreamPasses(g.At(g.Cur()), Continue);
      ContinueStreamSettles(g.At(g.Cur()), Continue);
    }
  }

  lemma ParkedPasses(f: FilterView)
    requires Parked(f.(t := f.t.(running := true))) && Quiet(f.t) && LivePasses(f) && Faithful(f.dec)
    requires LegalCalls(ContinueEncodeLocalReply(f).t.calls) && PassCalls(ContinueEncodeLocalReply(f).t.calls)
    ensures LivePasses(ContinueEncodeLocalReply(f)) && Faithful(ContinueEncodeLocalReply(f).dec)
  {
    hide Passing, ContinueStream, PassBooks, Settled, Faithful, TrafficInv, Placed, RightMaps, ProcInv, KeepsInput;
    var g := f.WithStore(Decode, f.dec.s.ClearAll()).(waiting := false, entered := true);
    var l := EncodeParkedHeaders(g);
    ParkedEnters(f);
    assert PassCall(l.t.calls[|f.t.calls|]);
    ParkedStarts(l.p);
    ContinueStreamPasses(l, Answer(f.t));
    ContinueStreamSettles(l, Answer(f.t));
    SettledStarted(ContinueStream(l, Answer(f.t)));
    KeepsFaithful(f.dec, g.dec);
  }

  lemma KeepsFaithful(p: ProcView, q: ProcView)
    requires Faithful(p) && q.state == p.state && q.seenTrailers == p.seenTrailers
    requires q.s.out == p.s.out && q.s.recv == p.s.recv
    ensures Faithful(q)
  {
  }

  lemma ParkedStarts(p: ProcView)
    requires ParkedBooks(p) && p.state.ProcessingHeader?
    ensures Passing(p)
  {
  }

  lemma InitFaithful()
    ensures Faithful(INIT_PROC)
  {
  }

  /** What a live direction has forwarded follows from its books. */
  lemma LiveFaithful(f: FilterView)
    requires f == InitFilter(f.t.go) || Sound(f)
    requires LivePasses(f)
    ensures !f.enc.started ==> Faithful(f.dec)
    ensures Faithful(f.enc)
  {
    hide Passing;
    if f == InitFilter(f.t.go) {
      InitFaithful();
    } else {
      var u := Unpost(f);
      if u.waiting {
      } else if u.entered {
        PassingFaithful(f.enc);
      } else {
        InitFaithful();
        PassingFaithful(f.dec);
      }
    }
  }

  /** What one event has to show; the rest follows from the books. */
  ghost predicate StepPassed(g: FilterView) {
    && LivePasses(g)
    && (forall c :: c in g.t.queue ==> c == Resume(Continue))
    && (g.enc.started ==> Faithful(g.dec))
  }

  lemma UnpostPasses(f: FilterView)
    ensures LivePasses(Unpost(f)) == LivePasses(f)
    ensures Unpost(f).dec == f.dec && Unpost(f).enc == f.enc
    ensures Unpost(f).t.calls == f.t.calls && Unpost(f).t.queue == []
  {
    hide Passing, ParkedBooks;
  }

  /** While a completion is queued, a frame does what it would have done before. */
  lemma QueuedFramePasses(f: FilterView, e: Event)
    requires f.t.queue != [] && Sound(f) && !f.destroyed && LivePasses(f) && Faithful(f.dec) && Faithful(f.enc)
    requires Enabled(f, e) && PassEvent(f, e) && IsFrame(e) && PassCalls(Step(f, e).t.calls)
    ensures LivePasses(Step(f, e)) && (!IsDecodeFrame(e) ==> Faithful(Step(f, e).dec))
  {
    hide Passing, Faithful, LivePasses, PassEvent, Step, PassCalls, Enabled, Base, Unpost;
    SoundBase(f);
    FrameCommutes(f, e);
    PassEventUnposted(f, e);
    UnpostPasses(f);
    UnpostPasses(Step(f, e));
    FramePasses(Unpost(f), e);
  }

  lemma SoundBase(f: FilterView)
    requires Sound(f)
    ensures Base(Unpost(f))
  {
    hide Base;
  }

  lemma FrameStepPasses(f: FilterView, e: Event)
    requires (f == InitFilter(f.t.go) || Sound(f)) && !f.destroyed && PassInv(f)
    requires Enabled(f, e) && PassEvent(f, e) && IsFrame(e) && PassCalls(Step(f, e).t.calls)
    ensures StepPassed(Step(f, e))
  {
    hide Passing, Faithful, LivePasses, PassEvent, Step, PassCalls, Enabled, Base;
    EnteredStarted(f);
    FrameQueue(f, e);
    if f.t.queue == [] {
      FramePasses(f, e);
    } else {
      QueuedFramePasses(f, e);
    }
  }

  lemma EnteredStarted(f: FilterView)
    requires f == InitFilter(f.t.go) || Sound(f)
    ensures f.entered ==> f.enc.started
  {
  }

  lemma FrameQueue(f: FilterView, e: Event)
    requires IsFrame(e) && Enabled(f, e) && (f.entered ==> f.enc.started)
    ensures Step(f, e).t.queue == f.t.queue
    ensures IsDecodeFrame(e) ==> !Step(f, e).enc.started
  {
    hide OnDecodeHeaders, OnDecodeData, OnDecodeTrailers, OnEncodeHeaders, OnEncodeData, OnEncodeTrailers;
    match e
    case EncodeHeadersEvent(end) => EncodeHeadersInput(f, end);
    case EncodeDataEvent(_, _) => EncodeInput(f, e);
    case EncodeTrailersEvent => EncodeInput(f, e);
    case DecodeHeadersEvent(end) => DecodeHeadersInput(f, end);
    case _ => DecodeInput(f, e);
  }

  lemma PassEventUnposted(f: FilterView, e: Event)
    ensures PassEvent(f, e) == PassEvent(Unpost(f), e)
  {
  }

  lemma PostedStepPasses(f: FilterView)
    requires f.t.queue != [] && Sound(f) && !f.destroyed && PassInv(f) && !NullBody(f, PostedEvent)
    requires LegalCalls(OnPosted(f).t.calls) && PassCalls(OnPosted(f).t.calls)
    ensures StepPassed(OnPosted(f))
  {
    hide Passing, Faithful, ContinueStream, ContinueEncodeLocalReply;
    assert f.t.queue[0] in f.t.queue;
    PostedPasses(f);
    PostedKeeps(f);
    PostedSides(f);
  }

  lemma PostedSides(f: FilterView)
    requires f.t.queue != [] && Base(OnPosted(f))
    ensures OnPosted(f).t.queue == []
    ensures !f.waiting && !f.entered && !f.destroyed ==> OnPosted(f).enc.started == f.enc.started
    ensures Sound(f) && !f.waiting && !f.entered ==> !f.enc.started
  {
  }

  lemma LiveStepPasses(f: FilterView, e: Event)
    requires Inv(f) && !f.destroyed && PassInv(f)
    requires Link(f, e, Step(f, e)) && PassEvent(f, e) && PassCalls(Step(f, e).t.calls)
    requires !e.DestroyEvent?
    ensures PassInv(Step(f, e))
  {
    hide Base, Passing, Faithful, OnPosted;
    hide OnDecodeHeaders, OnDecodeData, OnDecodeTrailers, OnEncodeHeaders, OnEncodeData, OnEncodeTrailers;
    LiveStepKeeps(f, e);
    if e.PostedEvent? {
      PostedStepPasses(f);
    } else if !e.GoCompletesEvent? {
      FrameStepPasses(f, e);
    }
    assert StepPassed(Step(f, e));
    LiveFaithful(Step(f, e));
  }

  lemma DeadStepPasses(f: FilterView, e: Event)
    requires PassInv(f) && Enabled(f, e) && (f.destroyed || e.DestroyEvent?)
    ensures PassInv(Step(f, e))
  {
    hide Faithful, LivePasses;
    if f.destroyed {
      DestroyedKeeps(f, e);
    }
  }

  lemma InitPasses(go: Oracle)
    ensures PassInv(InitFilter(go))
  {
  }

  lemma {:induction false} RunPasses(go: Oracle, run: Run)
    requires Valid(go, run) && PassRun(run)
    ensures Inv(run.Last()) && PassInv(run.Last())
    decreases |run.events|
  {
    hide Inv, PassInv, Step, Enabled, PassEvent, LegalCalls, PassCalls;
    RunSafe(go, run);
    if run.events == [] {
      InitPasses(go);
    } else {
      DropLast(InitFilter(go), run);
      DropLastPass(run);
      RunPasses(go, run.Before());
      var f, e := run.Before().Last(), run.LastEvent();
      if f.destroyed || e.DestroyEvent? {
        DeadStepPasses(f, e);
      } else {
        LiveStepPasses(f, e);
      }
    }
  }

  /** Whether Envoy ended a direction with trailers. */
  ghost predicate TrailersCame(events: seq<Event>, d: Direction) {
    exists e :: e in events && IsTrailers(e, d)
  }

  /** recv is the body Envoy sent, and seenTrailers tells whether trailers came. */
  lemma {:induction false} RunInput(go: Oracle, run: Run, d: Direction)
    requires Valid(go, run)
    ensures var p := run.Last().P(d);
            p.s.recv == Body(run.events, d) && (p.seenTrailers <==> TrailersCame(run.events, d))
    decreases |run.events|
  {
    hide Step, Enabled, LegalCalls;
    if run.events != [] {
      DropLast(InitFilter(go), run);
      RunInput(go, run.Before(), d);
      RunSafe(go, run.Before());
      assert run.events == run.Before().events + [run.LastEvent()];
      StepInput(run.Before().Last(), run.LastEvent(), d);
    }
  }

  // ---------- the theorems ----------

  /** What the next filter saw, with the chunking forgotten. */
  datatype Summary = Summary(headers: bool, body: Bytes, trailers: bool, ends: nat)

  predicate EndsStream(frame: Frame) {
    frame.Trailers? || frame.end
  }

  function Ends(out: seq<Frame>): nat {
    if out == [] then 0
    else Ends(out[..|out| - 1]) + if EndsStream(out[|out| - 1]) then 1 else 0
  }

  ghost function Summarize(out: seq<Frame>): Summary {
    Summary(out != [] && out[0].Headers?, OutBytes(out), Trailers in out, Ends(out))
  }

  lemma {:induction false} OpenEnds(out: seq<Frame>)
    requires Open(out)
    ensures Ends(out) == 0 && Trailers !in out
  {
    if out != [] {
      OpenEnds(out[..|out| - 1]);
    }
  }

  lemma EndsSnoc(out: seq<Frame>, last: Frame)
    requires Open(out) && EndsStream(last)
    ensures Ends(out + [last]) == 1
    ensures Trailers in out + [last] <==> last.Trailers?
    ensures out != [] ==> (out + [last])[0].Headers?
  {
    OpenEnds(out);
    assert (out + [last])[..|out|] == out;
  }

  lemma ClosedSummary(out: seq<Frame>, trailers: bool)
    requires Closed(out, trailers)
    ensures Summarize(out) == Summary(true, OutBytes(out), trailers, 1)
  {
    hide OutBytes, Ends;
    var init, last := out[..|out| - 1], out[|out| - 1];
    assert out == init + [last];
    EndsSnoc(init, last);
  }

  /**
   Transparency. In every schedule of a pass-through filter the next filter has, at all times, a
   prefix of what Envoy sent, unterminated until the direction is Done; at Done it has the headers,
   exactly the body Envoy sent, the trailers if there were any, and exactly one end of stream.
   */
  lemma RunTransparent(go: Oracle, run: Run, d: Direction)
    requires Valid(go, run) && PassRun(run)
    ensures var p := run.Last().P(d);
            && OutBytes(p.s.out) <= Body(run.events, d)
            && (!p.state.Done? ==> Ends(p.s.out) == 0)
            && (p.state.Done? ==>
                  Summarize(p.s.out) == Summary(true, Body(run.events, d), TrailersCame(run.events, d), 1))
  {
    hide Inv, LivePasses, Link, PassLink, TrailersCame;
    RunPasses(go, run);
    RunInput(go, run, d);
    var p := run.Last().P(d);
    if p.state.Done? {
      ClosedSummary(p.s.out, p.seenTrailers);
    } else {
      OpenEnds(p.s.out);
    }
  }

  /** Any two schedules, of any two pass-through filters, that were sent the same show the same. */
  lemma ScheduleIrrelevant(go1: Oracle, run1: Run, go2: Oracle, run2: Run, d: Direction)
    requires Valid(go1, run1) && PassRun(run1) && Valid(go2, run2) && PassRun(run2)
    requires Body(run1.events, d) == Body(run2.events, d)
    requires TrailersCame(run1.events, d) <==> TrailersCame(run2.events, d)
    requires run1.Last().P(d).state.Done? && run2.Last().P(d).state.Done?
    ensures Summarize(run1.Last().P(d).s.out) == Summarize(run2.Last().P(d).s.out)
  {
    hide Link, PassLink, TrailersCame, Summarize;
    RunTransparent(go1, run1, d);
    RunTransparent(go2, run2, d);
  }

  /**
   Nothing is held back: as long as Envoy has not ended the stream, Go is not running and nothing is queued,
   the next filter has the headers, and all of the body that has come so far.
   */
  lemma RunHoldsNothing(go: Oracle, run: Run)
    requires Valid(go, run) && PassRun(run)
    ensures var f := run.Last();
            var p := f.P(f.Cur());
            Quiet(f.t) && !f.destroyed && p.started && !p.StreamEnd() ==>
              && p.s.out != [] && p.s.out[0] == Headers(false)
              && OutBytes(p.s.out) == Body(run.events, f.Cur())
  {
    hide Link, PassLink;
    RunPasses(go, run);
    RunInput(go, run, run.Last().Cur());
    HeldNothing(run.Last());
  }

  lemma HeldNothing(f: FilterView)
    requires Inv(f) && PassInv(f)
    ensures var p := f.P(f.Cur());
            Quiet(f.t) && !f.destroyed && p.started && !p.StreamEnd() ==>
              p.s.out != [] && p.s.out[0] == Headers(false) && OutBytes(p.s.out) == p.s.recv
  {
    hide PassBooks, Faithful, LegalCalls, GoodCalls, Grammar;
    var p := f.P(f.Cur());
    if Quiet(f.t) && !f.destroyed && p.started && !p.StreamEnd() {
      QuietSteady(f);
      assert Passing(p) && p.state.WaitingData?;
      PassBooksSplit(p.s, p.s.Buffered());
      assert OutBytes(p.s.out) + [] + [] == OutBytes(p.s.out);
    }
  }

  lemma QuietSteady(f: FilterView)
    requires Inv(f) && PassInv(f) && Quiet(f.t) && !f.destroyed && f.P(f.Cur()).started
    ensures Steady(f) && (f.entered <==> f.enc.started)
  {
  }

  // ---------- when a pass-through filter stalls ----------

  /** A completion lets headers go behind which there are trailers and not a single body byte. */
  predicate LetsBareGo(f: FilterView, e: Event) {
    && e.PostedEvent? && f.t.queue != [] && !f.destroyed
    && if f.waiting then f.enc.seenTrailers && f.enc.s.recv == [] && Answer(f.t).Continue?
       else f.P(f.Cur()).state.ProcessingHeader? && f.P(f.Cur()).seenTrailers && f.P(f.Cur()).s.recv == []
  }

  /** What a completion shows Go is its next call, and has its next answer. */
  lemma ShownIsAsked(l: Lane)
    requires DataToResume(l.p) && l.p.s.buffer.Some?
    ensures |ResumeData(l).0.t.calls| > |l.t.calls| && ResumeData(l).0.t.calls[|l.t.calls|].answer == Answer(l.t)
  {
    hide HandleData, ContinueDoData, KeepsInput;
  }

  lemma CompletionAsks(l: Lane)
    requires ProcInv(l.p) && l.p.ProcessingInGo() && l.p.seenTrailers && !l.p.state.ProcessingTrailer?
    requires !l.p.s.BufferEmpty() && PassCalls(ContinueStream(l, Continue).t.calls)
    ensures !Stops(Answer(l.t))
  {
    hide ApplyStatus, ResumeData, ResumeTrailers, KeepsInput;
    SettledByTrailers(l.p, Continue);
    var l1 := l.(p := ApplyStatus(l.p, Continue));
    ShownIsAsked(l1);
    assert PassCall(ContinueStream(l, Continue).t.calls[|l.t.calls|]);
  }

  lemma HeldBody(p: ProcView)
    requires Passing(p) && p.state.ProcessingHeader?
    ensures p.s.BufferEmpty() <==> p.s.recv == []
  {
    PassBooksSplit(p.s, p.s.Buffered());
  }

  /** A completion of a pass-through filter strands its direction exactly if it lets bare headers go. */
  lemma CompletionStrands(l: Lane)
    requires ProcInv(l.p) && l.p.ProcessingInGo() && Passing(l.p)
    requires PassCalls(ContinueStream(l, Continue).t.calls)
    ensures Strands(l.p, Continue, Answer(l.t)) <==>
            l.p.state.ProcessingHeader? && l.p.seenTrailers && l.p.s.recv == []
  {
    hide ContinueStream, Passing, ProcInv, PassCalls;
    if l.p.seenTrailers && !l.p.state.ProcessingTrailer? && !l.p.s.BufferEmpty() {
      CompletionAsks(l);
    }
    if l.p.state.ProcessingHeader? {
      HeldBody(l.p);
    }
  }

  lemma PostedBare(f: FilterView)
    requires f.t.queue == [Resume(Continue)] && Sound(f) && !f.destroyed && LivePasses(f) && !f.waiting
    requires PassCalls(OnPosted(f).t.calls)
    ensures StrandsAt(f, PostedEvent) <==> LetsBareGo(f, PostedEvent)
  {
    hide Passing, ContinueStream, PassCalls, Strands;
    PostedIsHeld(f);
    var g := f.(t := f.t.(queue := []));
    assert f.t.queue[1..] == [];
    CompletionStrands(g.At(g.Cur()));
  }

  lemma StrandsBy(p: ProcView, q: ProcView, status: GolangStatus, next: GolangStatus)
    requires q.seenTrailers == p.seenTrailers && q.state == p.state && q.s == p.s
    ensures Strands(q, status, next) <==> Strands(p, status, next)
    ensures Async(status) ==> !Strands(p, status, next)
  {
  }

  lemma ReleasedBare(f: FilterView)
    requires f.t.queue == [Resume(Continue)] && Sound(f) && !f.destroyed && LivePasses(f) && f.waiting
    requires LegalCalls(OnPosted(f).t.calls) && PassCalls(OnPosted(f).t.calls)
    ensures StrandsAt(f, PostedEvent) <==> LetsBareGo(f, PostedEvent)
  {
    hide Passing, ContinueStream, Strands, PassBooks, TrafficInv, Placed, RightMaps, ProcInv, KeepsInput;
    PostedIsHeld(f);
    assert f.t.queue[1..] == [];
    var g := f.(t := f.t.(queue := [])).WithStore(Decode, f.dec.s.ClearAll()).(waiting := false, entered := true);
    var l := EncodeParkedHeaders(g);
    ParkedEnters(f.(t := f.t.(queue := [])));
    assert PassCall(l.t.calls[|f.t.calls|]);
    ParkedStarts(l.p);
    StrandsBy(f.enc.(state := ProcessingHeader), l.p, Answer(f.t), f.t.go(|f.t.calls| + 1));
    if Answer(f.t).Continue? {
      CompletionStrands(l);
    }
  }

  /** Trailers never find a pass-through filter waiting for a whole body. */
  lemma FramesDoNotStrand(f: FilterView, e: Event)
    requires Inv(f) && PassInv(f) && Enabled(f, e) && !e.PostedEvent?
    ensures !StrandsAt(f, e)
  {
    hide PassBooks, Faithful;
    if !f.destroyed && e.EncodeTrailersEvent? { StartedSide(f); }
  }

  lemma StepBare(f: FilterView, e: Event)
    requires Inv(f) && PassInv(f) && Link(f, e, Step(f, e)) && PassLink(f, e, Step(f, e))
    ensures StrandsAt(f, e) <==> LetsBareGo(f, e)
  {
    hide Sound, LivePasses, Faithful, OnPosted, LegalCalls, PassCalls, Strands;
    if !e.PostedEvent? {
      FramesDoNotStrand(f, e);
    } else if !f.destroyed {
      QueuedPass(f);
      if f.waiting { ReleasedBare(f); } else { PostedBare(f); }
    }
  }

  lemma QueuedPass(f: FilterView)
    requires Inv(f) && PassInv(f) && f.t.queue != [] && !f.destroyed
    ensures f.t.queue == [Resume(Continue)] && Sound(f)
  {
    assert f.t.queue[0] in f.t.queue;
  }

  /** Event i let bare headers of the direction go that the filter is still in. */
  ghost predicate BareSince(run: Run, i: nat)
    requires run.Shaped() && i < |run.events|
  {
    LetsBareGo(run.states[i], run.events[i]) && forall j :: i < j < |run.events| ==> !run.events[j].EncodeHeadersEvent?
  }

  lemma BareIsStranded(go: Oracle, run: Run, i: nat)
    requires Valid(go, run) && PassRun(run) && i < |run.events|
    ensures BareSince(run, i) <==> StrandedSince(run, i)
  {
    hide Step, Enabled, Inv, PassInv, StrandsAt, LetsBareGo, LegalCalls, PassCalls, PassEvent, GoesWrong;
    var part := Slice(run, 0, i);
    SliceFrom(InitFilter(go), run, 0, i);
    forall k | 0 <= k < |part.events|
      ensures PassLink(part.states[k], part.events[k], part.states[k + 1])
    {
      assert part.events[k] == run.events[k] && part.states[k] == run.states[k];
    }
    RunPasses(go, part);
    assert Link(run.states[i], run.events[i], run.states[i + 1]);
    assert PassLink(run.states[i], run.events[i], run.states[i + 1]);
    StepBare(run.states[i], run.events[i]);
  }

  /**
   No stall but one: once nothing is queued, Go is not running and Envoy has ended the stream, the current
   direction of a pass-through filter is Done, if and only if no completion has let headers go behind which
   there were trailers and no body byte. So a stream with a body, or without trailers, never stalls.
   */
  lemma RunNeverStalls(go: Oracle, run: Run)
    requires Valid(go, run) && PassRun(run)
    ensures var f := run.Last();
            Quiet(f.t) && !f.destroyed && f.P(f.Cur()).StreamEnd() ==>
              (f.P(f.Cur()).state.Done? <==> !exists i :: 0 <= i < |run.events| && BareSince(run, i))
  {
    hide Link, PassLink, Inv, BareSince, StrandedSince;
    RunPasses(go, run);
    RunEnds(go, run);
    PassesUnreplied(run.Last());
    forall i | 0 <= i < |run.events|
      ensures BareSince(run, i) <==> StrandedSince(run, i)
    {
      BareIsStranded(go, run, i);
    }
  }

  lemma PassesUnreplied(f: FilterView)
    requires PassInv(f)
    ensures !f.destroyed ==> !f.P(f.Cur()).replied
  {
    hide Passing, Faithful, ParkedBooks;
  }
}
