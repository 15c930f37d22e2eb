/**
 The inductive invariant of the filter, and what follows from it on every run: no ASSERT fails,
 no null buffer is dereferenced, no state is unexpected, and Go is never entered while an earlier
 call is outstanding.
 */
module StreamSafety {
  import opened StreamTypes
  import opened StreamSpec
  import opened StreamRuns

  // ---------- invariants of one direction ----------

  /** What holds of a processor state between two events. */
  ghost predicate ProcInv(p: ProcView) {
    && !p.fault
    && !(p.endStream && p.seenTrailers)
    && match p.state
       case WaitingHeader => false
       case ProcessingHeader =>
         && (p.doEndStream ==> p.endStream && p.s.BufferEmpty())
         && (p.endStream && !p.doEndStream ==> p.s.buffer.Some?)
       case WaitingData => !p.endStream && !p.doEndStream && p.s.BufferEmpty()
       case WaitingAllData => !p.endStream && !p.doEndStream && (p.seenTrailers ==> p.s.BufferEmpty())
       case ProcessingData =>
         && p.s.list.queue != []
         && (p.doEndStream ==> p.endStream && p.s.BufferEmpty())
         && (p.endStream && !p.doEndStream ==> p.s.buffer.Some?)
       case WaitingTrailer => p.seenTrailers && p.s.BufferEmpty()
       case ProcessingTrailer => p.seenTrailers && p.s.BufferEmpty() && p.doEndStream
       case Done => p.StreamEnd() && p.s.BufferEmpty()
  }

  /** What holds between the answer of Go and the next call into Go. */
  ghost predicate MidInv(p: ProcView) {
    && !p.fault
    && !(p.endStream && p.seenTrailers)
    && match p.state
       case WaitingData => !p.doEndStream && (p.endStream ==> p.s.buffer.Some?)
       case WaitingAllData => !p.doEndStream && (p.StreamEnd() ==> p.s.buffer.Some?)
       case WaitingTrailer => p.seenTrailers && p.s.BufferEmpty()
       case Done => p.StreamEnd() && p.s.BufferEmpty()
       case _ => false
  }

  // ---------- invariants of the traffic with Go ----------

  /** Go is handed the header map of the phase it is called in, and trailers always end the stream. */
  predicate RightHeaders(c: GoCall) {
    match c.phase
    case DecodeHeader => c.headers == Some(RequestHeaders)
    case DecodeTrailer => c.headers == Some(RequestTrailers) && c.end
    case EncodeHeader => c.headers == Some(ResponseHeaders)
    case EncodeTrailer => c.headers == Some(ResponseTrailers) && c.end
    case _ => c.headers.None?
  }

  ghost predicate GoodCalls(calls: seq<GoCall>) {
    forall i :: 0 <= i < |calls| ==> RightHeaders(calls[i])
  }

  /** The phases Go may be called with after a call; a call that ended its direction is its last. */
  predicate Follows(a: GoCall, b: GoCall) {
    match a.phase
    case DecodeHeader | DecodeData =>
      b.phase.EncodeHeader? || (!a.end && (b.phase.DecodeData? || b.phase.DecodeTrailer?))
    case DecodeTrailer => b.phase.EncodeHeader?
    case EncodeHeader | EncodeData => !a.end && (b.phase.EncodeData? || b.phase.EncodeTrailer?)
    case _ => false
  }

  /** DH DD* DT? EH ED* ET?, with decode possibly missing or cut short. */
  ghost predicate Grammar(calls: seq<GoCall>) {
    && (calls != [] ==> calls[0].phase.DecodeHeader? || calls[0].phase.EncodeHeader?)
    && (forall i :: 0 < i < |calls| ==> Follows(calls[i - 1], calls[i]))
  }

  /** The direction a phase belongs to. */
  predicate InDirection(phase: Phase, d: Direction) {
    if d.Decode? then phase.DecodeHeader? || phase.DecodeData? || phase.DecodeTrailer?
    else phase.EncodeHeader? || phase.EncodeData? || phase.EncodeTrailer?
  }

  /** The last call into Go is the one that brought the direction to its state. */
  ghost predicate Placed(l: Lane) {
    && l.t.calls != []
    && var last := l.t.calls[|l.t.calls| - 1];
       && InDirection(last.phase, l.d)
       && match l.p.state
          case WaitingHeader => l.d.Decode?
          case WaitingData | WaitingAllData => !last.end && last.phase != PhaseOf(l.d, ProcessingTrailer)
          case WaitingTrailer => !last.end && last.phase == PhaseOf(l.d, ProcessingData)
          case Done => true
          case _ => last.end == l.p.doEndStream && last.phase == PhaseOf(l.d, l.p.state)
  }

  /** trailers_ never points at headers. */
  predicate TrailersOnly(t: Traffic) {
    t.trailers.Some? ==> t.trailers.value.RequestTrailers? || t.trailers.value.ResponseTrailers?
  }

  ghost predicate TrafficInv(t: Traffic) {
    && !t.fault && !t.reentered && t.hasReq && TrailersOnly(t)
    && LegalCalls(t.calls) && GoodCalls(t.calls) && Grammar(t.calls)
  }

  predicate Quiet(t: Traffic) {
    !t.running && t.queue == []
  }

  /** The map pointers of the filter: Go can reach the headers it was handed, and trailers that came. */
  ghost predicate RightMaps(l: Lane) {
    && (l.t.headers.None? || l.t.headers == Some(HeadersOf(l.d)))
    && (l.p.state.ProcessingHeader? ==> l.t.headers == Some(HeadersOf(l.d)))
    && (l.p.seenTrailers ==> l.t.trailers == Some(TrailersOf(l.d)))
  }

  /** A handler has finished: Go is outstanding exactly if the state says so. */
  ghost predicate Settled(l: Lane) {
    && TrafficInv(l.t) && l.t.queue == []
    && ProcInv(l.p) && l.p.started && !l.p.replied && RightMaps(l) && Placed(l)
    && (l.t.running <==> l.p.ProcessingInGo())
  }

  lemma CallsSnoc(calls: seq<GoCall>, c: GoCall)
    ensures LegalCalls(calls + [c]) <==> LegalCalls(calls) && LegalCall(c)
    ensures GoodCalls(calls + [c]) <==> GoodCalls(calls) && RightHeaders(c)
    ensures Grammar(calls) &&
            (if calls == [] then c.phase.DecodeHeader? || c.phase.EncodeHeader? else Follows(calls[|calls| - 1], c)) ==>
              Grammar(calls + [c])
  {
    var longer := calls + [c];
    assert longer[|calls|] == c;
    assert forall i :: 0 <= i < |calls| ==> longer[i] == calls[i];
  }

  // ---------- entering Go keeps a direction settled ----------

  /** The fields no answer of Go changes. */
  ghost predicate SameStream(p: ProcView, q: ProcView) {
    && q.endStream == p.endStream && q.seenTrailers == p.seenTrailers && q.doEndStream == p.doEndStream
    && q.s.buffer == p.s.buffer && q.started == p.started && q.replied == p.replied
  }

  lemma HandleDataMid(p: ProcView, status: GolangStatus)
    requires !p.fault && p.state.ProcessingData? && p.s.list.queue != []
    requires !(p.endStream && p.seenTrailers)
    requires p.doEndStream ==> p.endStream && p.s.BufferEmpty()
    requires p.endStream && !p.doEndStream ==> p.s.buffer.Some?
    requires LegalAnswer(DecodeData, p.doEndStream, status)
    ensures var q := HandleData(p, status).0;
            && SameStream(p, q)
            && (if Async(status) then q == p else MidInv(q))
            && (!Async(status) && p.s.BufferEmpty() && (p.endStream ==> p.doEndStream) ==> ProcInv(q))
  {
  }

  ghost predicate DataReady(p: ProcView, end: bool) {
    && !p.fault && !p.replied && p.started
    && !(p.endStream && p.seenTrailers)
    && (p.state.WaitingData? || (p.state.WaitingAllData? && p.StreamEnd()))
    && p.s.BufferEmpty() && end == p.endStream
  }

  lemma DoDataGoSettles(l: Lane, data: Bytes, end: bool)
    requires TrafficInv(l.t) && Quiet(l.t) && RightMaps(l) && Placed(l) && DataReady(l.p, end)
    requires LegalCalls(DoDataGo(l, data, end).0.t.calls)
    ensures Settled(DoDataGo(l, data, end).0)
    ensures DoDataGo(l, data, end).1 ==> !DoDataGo(l, data, end).0.t.running
  {
    var p := ProcessData(l.p, end).(s := l.p.s.Push(data));
    CallsSnoc(l.t.calls, GoCall(PhaseOf(l.d, ProcessingData), end, data, None, Answer(l.t)));
    HandleDataMid(p, Answer(l.t));
  }

  ghost predicate TrailersReady(p: ProcView) {
    && !p.fault && !p.replied && p.started
    && p.seenTrailers && !p.endStream
    && (p.state.WaitingTrailer? || p.state.WaitingData?)
    && p.s.BufferEmpty()
  }

  lemma DoTrailerGoSettles(l: Lane)
    requires TrafficInv(l.t) && Quiet(l.t) && RightMaps(l) && Placed(l) && TrailersReady(l.p)
    requires LegalCalls(DoTrailerGo(l, TrailersOf(l.d)).0.t.calls)
    ensures Settled(DoTrailerGo(l, TrailersOf(l.d)).0)
    ensures DoTrailerGo(l, TrailersOf(l.d)).1 ==> DoTrailerGo(l, TrailersOf(l.d)).0.p.state.Done?
  {
    CallsSnoc(l.t.calls, GoCall(PhaseOf(l.d, ProcessingTrailer), true, [], Some(TrailersOf(l.d)), Answer(l.t)));
  }

  /** Headers enter Go first of all, or after the decode direction. */
  ghost predicate Enters(l: Lane) {
    l.t.calls == [] || (l.d.Encode? && InDirection(l.t.calls[|l.t.calls| - 1].phase, Decode))
  }

  lemma DoHeadersSettles(l: Lane, end: bool)
    requires !l.t.fault && !l.t.reentered && TrailersOnly(l.t)
    requires LegalCalls(l.t.calls) && GoodCalls(l.t.calls) && Grammar(l.t.calls)
    requires Quiet(l.t) && Enters(l)
    requires l.p == INIT_PROC.(started := true, endStream := end, s := INIT_STORE.(recv := l.p.s.recv))
    requires LegalCalls(DoHeaders(l, HeadersOf(l.d), end).0.t.calls)
    ensures Settled(DoHeaders(l, HeadersOf(l.d), end).0)
    ensures DoHeaders(l, HeadersOf(l.d), end).1 ==> !DoHeaders(l, HeadersOf(l.d), end).0.t.running
  {
    CallsSnoc(l.t.calls, GoCall(PhaseOf(l.d, ProcessingHeader), end, [], Some(HeadersOf(l.d)), Answer(l.t)));
  }

  /** While Go is idle, bytes may leave a settled direction. */
  lemma SettledSends(l: Lane, s: Store)
    requires Settled(l) && !l.t.running && s.buffer == l.p.s.buffer
    ensures Settled(l.(p := l.p.(s := s)))
  {
  }

  // ---------- a completion keeps a direction settled ----------

  lemma ForwardDoneKeeps(p: ProcView, saved: FilterState)
    requires saved.ProcessingHeader? || saved.ProcessingData? || saved.ProcessingTrailer?
    ensures var q := ForwardDone(p, saved);
            q == p.(s := q.s) && q.s.buffer == p.s.buffer && q.s.recv == p.s.recv
  {
  }

  lemma ApplyStatusMid(p: ProcView, d: Direction, status: GolangStatus)
    requires ProcInv(p) && p.ProcessingInGo() && !AsksForNoBody(p, status)
    requires LegalAnswer(PhaseOf(d, p.state), p.doEndStream, status)
    ensures var q := ApplyStatus(p, status);
            && SameStream(p, q)
            && (if Async(status) then q == p else MidInv(q))
  {
    var q := HandleGolangStatus(p, status).0;
    if p.state.ProcessingData? {
      HandleDataMid(p, status);
    }
    assert SameStream(p, q) && if Async(status) then q == p else MidInv(q);
    ForwardDoneKeeps(q, p.state);
  }

  /** A status moves a direction to a state its last call allows. */
  lemma ApplyStatusPlaced(l: Lane, status: GolangStatus)
    requires ProcInv(l.p) && l.p.ProcessingInGo() && Placed(l)
    requires LegalAnswer(PhaseOf(l.d, l.p.state), l.p.doEndStream, status)
    ensures Placed(l.(p := ApplyStatus(l.p, status)))
  {
    hide ForwardDone, KeepsInput, ClearLatest;
    var q := HandleGolangStatus(l.p, status).0;
    assert Placed(l.(p := q));
    ForwardDoneKeeps(q, l.p.state);
  }

  lemma ResumeDataSettles(l: Lane)
    requires TrafficInv(l.t) && Quiet(l.t) && RightMaps(l) && Placed(l)
    requires MidInv(l.p) && l.p.started && !l.p.replied
    requires LegalCalls(ResumeData(l).0.t.calls)
    ensures Settled(ResumeData(l).0)
    ensures ResumeData(l).1 ==> !ResumeData(l).0.t.running
  {
    hide DoDataGo, ContinueDoData, Grows, Grammar, GoodCalls;
    if DataToResume(l.p) {
      var l1 := l.(p := l.p.(s := l.p.s.TakeBuffer()));
      DoDataGoSettles(l1, l.p.s.buffer.value, l.p.endStream);
      var (g, done) := DoDataGo(l1, l.p.s.buffer.value, l.p.endStream);
      ForwardDoneKeeps(g.p, ProcessingData);
    }
  }

  lemma ResumeTrailersSettles(l: Lane)
    requires Settled(l)
    requires LegalCalls(ResumeTrailers(l).t.calls)
    ensures Settled(ResumeTrailers(l))
  {
    if l.p.state.WaitingTrailer? {
      DoTrailerGoSettles(l);
    }
  }

  lemma StillAsync(l: Lane)
    requires l.p.ProcessingInGo()
    ensures ResumeData(l) == (l, true) && ResumeTrailers(l) == l
  {
  }

  lemma ContinueStreamSettles(l: Lane, status: GolangStatus)
    requires TrafficInv(l.t) && l.t.queue == [] && RightMaps(l) && Placed(l)
    requires ProcInv(l.p) && l.p.ProcessingInGo() && l.p.started && !l.p.replied && !AsksForNoBody(l.p, status)
    requires LegalAnswer(PhaseOf(l.d, l.p.state), l.p.doEndStream, status)
    requires l.t.running <==> Async(status)
    requires LegalCalls(ContinueStream(l, status).t.calls)
    ensures Settled(ContinueStream(l, status))
  {
    hide ApplyStatus, ResumeData, ResumeTrailers;
    ApplyStatusMid(l.p, l.d, status);
    ApplyStatusPlaced(l, status);
    var l1 := l.(p := ApplyStatus(l.p, status));
    if Async(status) {
      StillAsync(l1);
    } else {
      ResumeDataSettles(l1);
      var (g, more) := ResumeData(l1);
      if more {
        ResumeTrailersSettles(g);
      }
    }
  }

  // ---------- frames from Envoy keep a direction settled ----------

  lemma DoDataSettles(l: Lane, data: Bytes, end: bool)
    requires Settled(l) && !l.p.StreamEnd()
    requires LegalCalls(DoData(l.(p := Received(l.p, data, end)), data, end).0.t.calls)
    ensures var (g, done) := DoData(l.(p := Received(l.p, data, end)), data, end);
            Settled(g) && (done ==> !g.t.running)
  {
    var p := Received(l.p, data, end);
    if p.state.WaitingData? || (p.state.WaitingAllData? && end && p.s.BufferEmpty()) {
      DoDataGoSettles(l.(p := p), data, end);
    } else if p.state.WaitingAllData? && end {
      DoDataGoSettles(l.(p := p.(s := p.s.TakeBuffer())), p.s.Buffered() + data, end);
    }
  }

  /** Trailers behind a body that was being buffered. */
  lemma WholeBodySettles(l: Lane)
    requires TrafficInv(l.t) && Quiet(l.t) && RightMaps(l) && Placed(l)
    requires !l.p.fault && !l.p.replied && l.p.started && l.p.seenTrailers && !l.p.endStream
    requires l.p.state.WaitingAllData? && !l.p.s.BufferEmpty()
    requires LegalCalls(DoAllDataTrailerGo(l, TrailersOf(l.d)).0.t.calls)
    ensures var (g, done) := DoAllDataTrailerGo(l, TrailersOf(l.d));
            Settled(g) && (done ==> !g.t.running)
  {
    hide DoDataGo, DoTrailerGo, Grammar, GoodCalls;
    var l1 := l.(p := l.p.(s := l.p.s.TakeBuffer()));
    var l2 := DoDataGo(l1, l.p.s.buffer.value, false).0;
    DoDataGoSettles(l1, l.p.s.buffer.value, false);
    if l2.p.state.WaitingTrailer? {
      DoTrailerGoSettles(l2);
    }
  }

  lemma DoTrailerSettles(l: Lane)
    requires Settled(l) && !l.p.StreamEnd()
    requires LegalCalls(DoTrailer(l.(p := l.p.(seenTrailers := true)), TrailersOf(l.d)).0.t.calls)
    ensures var (g, done) := DoTrailer(l.(p := l.p.(seenTrailers := true)), TrailersOf(l.d));
            Settled(g) && (done ==> !g.t.running)
  {
    var p := l.p.(seenTrailers := true);
    var l1 := Lane(l.d, p.Check(!p.endStream && !p.doEndStream), l.t.(trailers := Some(TrailersOf(l.d))));
    if p.state.WaitingTrailer? || p.state.WaitingData? {
      hide DoTrailerGo;
      DoTrailerGoSettles(l1);
    } else if p.state.WaitingAllData? && !p.s.BufferEmpty() {
      hide DoAllDataTrailerGo;
      WholeBodySettles(l1);
    }
  }

  // ---------- the invariant of the filter ----------

  /** The direction the filter is not in: encode has not begun, or decode is over. */
  ghost predicate OtherSide(f: FilterView) {
    && !f.waiting
    && (if f.entered then f.enc.started && !f.dec.fault
        else f.enc == INIT_PROC && f.localTrailers.None?)
  }

  /** Go ended the current direction with a local reply of its own. */
  ghost predicate Replied(f: FilterView) {
    && OtherSide(f) && TrafficInv(f.t) && Quiet(f.t) && f.t.calls != [] && (f.entered || Placed(f.At(Decode)))
    && var p := f.P(f.Cur());
       && p.replied && p.started && !p.fault
       && p.s.list == EMPTY_LIST && p.s.BufferEmpty()
       && (if f.entered then p.ProcessingInGo() else p.state.WaitingHeader?)
  }

  /** A response has begun while Go holds the decode direction; it is parked. */
  ghost predicate Parked(f: FilterView) {
    && f.waiting && !f.entered
    && TrafficInv(f.t) && f.t.running && f.t.queue == []
    && !f.dec.fault && f.dec.ProcessingInGo() && !f.dec.replied && Placed(f.At(Decode)) && RightMaps(f.At(Decode))
    && (f.dec.state.ProcessingTrailer? ==> f.dec.seenTrailers)
    && f.localHeaders == Some(ResponseHeaders)
    && f.localTrailers == (if f.enc.seenTrailers then Some(ResponseTrailers) else None)
    && !(f.enc.endStream && f.enc.seenTrailers)
    && (f.enc.s.recv != [] ==> f.enc.s.buffer.Some?)
    && f.enc == INIT_PROC.(started := true, endStream := f.enc.endStream, seenTrailers := f.enc.seenTrailers,
                           s := INIT_STORE.(buffer := f.enc.s.buffer, recv := f.enc.s.Buffered()))
  }

  ghost predicate Steady(f: FilterView) {
    OtherSide(f) && Settled(f.At(f.Cur()))
  }

  ghost predicate Base(f: FilterView) {
    !f.destroyed && (Steady(f) || Parked(f) || Replied(f))
  }

  /** The filter as it was before Go's completion was posted. */
  function Unpost(f: FilterView): FilterView {
    if f.t.queue == [] then f else f.(t := f.t.(queue := [], running := true))
  }

  /** At most one completion is queued, and it is a legal one. */
  ghost predicate QueueOk(t: Traffic) {
    t.queue == [] || (!t.running && |t.queue| == 1 && LegalCompletion(t.calls, t.queue[0]))
  }

  ghost predicate Sound(f: FilterView) {
    QueueOk(f.t) && Base(Unpost(f))
  }

  ghost predicate Inv(f: FilterView) {
    && !f.Faulty() && !f.t.reentered && (f.entered ==> f.enc.started)
    && GoodCalls(f.t.calls) && Grammar(f.t.calls)
    && (f.destroyed || f == InitFilter(f.t.go) || Sound(f))
  }

  // ---------- every event keeps the invariant ----------

  lemma EnterEncodingKeeps(f: FilterView, end: bool)
    requires f.enc == INIT_PROC.(started := true, endStream := end)
    requires !f.waiting && !f.destroyed && !f.dec.fault && Enters(f.At(Encode)) && Quiet(f.t)
    requires !f.t.fault && !f.t.reentered && TrailersOnly(f.t)
    requires LegalCalls(f.t.calls) && GoodCalls(f.t.calls) && Grammar(f.t.calls)
    requires LegalCalls(EnterEncoding(f, end).t.calls)
    ensures Steady(EnterEncoding(f, end)) && !EnterEncoding(f, end).destroyed
  {
    hide Settled, DoHeaders, Grammar, GoodCalls, Enters;
    DoHeadersSettles(f.At(Encode), end);
    var (g, done) := DoHeaders(f.At(Encode), ResponseHeaders, end);
    if done { SettledSends(g, g.p.s.SendHeaders(end)); }
    SettledStarted(g);
  }

  /** What a response that starts early leaves alone. */
  ghost predicate SameButStores(f: FilterView, g: FilterView) {
    && g.t == f.t && g.entered == f.entered && g.destroyed == f.destroyed
    && KeepsInput(f.dec, g.dec) && KeepsInput(f.enc, g.enc)
    && g.dec.s.out == f.dec.s.out && g.enc.s.out == f.enc.s.out
    && g.dec.state == f.dec.state && g.enc.state == f.enc.state
  }

  lemma AbandonFacts(f: FilterView)
    ensures SameButStores(f, Abandon(f)) && Abandon(f).waiting == f.waiting
  {
  }

  lemma ParkFacts(f: FilterView)
    ensures SameButStores(f, Park(f)) && Park(f).waiting
  {
  }

  lemma SettledStarted(l: Lane)
    requires Settled(l)
    ensures l.p.started && !l.p.replied
  {
  }

  lemma EncodeHeadersKeeps(f: FilterView, end: bool)
    requires !f.destroyed && !f.enc.started && (f == InitFilter(f.t.go) || Base(f))
    requires LegalCalls(OnEncodeHeaders(f, end).t.calls)
    ensures Base(OnEncodeHeaders(f, end))
  {
    hide EnterEncoding;
    var g := f.(enc := f.enc.(endStream := end, started := true));
    if f.dec.state.Done? {
      EnterEncodingKeeps(g, end);
    } else if f.dec.ProcessingInGo() {
      assert Parked(OnEncodeHeaders(f, end));
    } else {
      EnterEncodingKeeps(g.WithStore(Decode, f.dec.s.Drain().ClearAll()), end);
    }
  }

  predicate IsFrame(e: Event) {
    !e.PostedEvent? && !e.GoCompletesEvent? && !e.DestroyEvent?
  }

  lemma DecodeFrameKeeps(f: FilterView, e: Event)
    requires Steady(f) && !f.entered && OpenForData(f.dec) && LegalCalls(Step(f, e).t.calls)
    requires e.DecodeDataEvent? || e.DecodeTrailersEvent?
    ensures Steady(Step(f, e))
  {
    hide Settled, DoData, DoTrailer;
    if e.DecodeDataEvent? {
      DoDataSettles(f.At(Decode), e.data, e.end);
      var (g, done) := DoData(Lane(Decode, Received(f.dec, e.data, e.end), f.t), e.data, e.end);
      if done { SettledSends(g, g.p.s.SendList(e.end)); }
    } else {
      DoTrailerSettles(f.At(Decode));
      var (g, done) := DoTrailer(Lane(Decode, f.dec.(seenTrailers := true), f.t), RequestTrailers);
      if done { SettledSends(g, g.p.s.SendTrailers()); }
    }
  }

  lemma EncodeFrameKeeps(f: FilterView, e: Event)
    requires Steady(f) && f.entered && OpenForData(f.enc) && LegalCalls(Step(f, e).t.calls)
    requires e.EncodeDataEvent? || e.EncodeTrailersEvent?
    ensures Steady(Step(f, e))
  {
    hide Settled, DoData, DoTrailer;
    if e.EncodeDataEvent? {
      DoDataSettles(f.At(Encode), e.data, e.end);
      var (g, done) := DoData(Lane(Encode, Received(f.enc, e.data, e.end), f.t), e.data, e.end);
      if done { SettledSends(g, g.p.s.SendList(e.end)); }
    } else {
      DoTrailerSettles(f.At(Encode));
      var (g, done) := DoTrailer(Lane(Encode, f.enc.(seenTrailers := true), f.t), ResponseTrailers);
      if done { SettledSends(g, g.p.s.SendTrailers()); }
    }
  }

  lemma ParkedFrameKeeps(f: FilterView, e: Event)
    requires Parked(f) && !f.destroyed && OpenForData(f.enc)
    requires e.EncodeDataEvent? || e.EncodeTrailersEvent?
    ensures Parked(Step(f, e)) && !Step(f, e).destroyed
  {
  }

  lemma FrameKeeps(f: FilterView, e: Event)
    requires Base(f) && Enabled(f, e) && LegalCalls(Step(f, e).t.calls) && IsFrame(e)
    ensures Base(Step(f, e))
  {
    match e
    case DecodeHeadersEvent(end) =>
    case EncodeHeadersEvent(end) => EncodeHeadersKeeps(f, end);
    case DecodeDataEvent(_, _) => DecodeFrameKeeps(f, e);
    case DecodeTrailersEvent => DecodeFrameKeeps(f, e);
    case EncodeDataEvent(_, _) => if f.waiting { ParkedFrameKeeps(f, e); } else { EncodeFrameKeeps(f, e); }
    case EncodeTrailersEvent => if f.waiting { ParkedFrameKeeps(f, e); } else { EncodeFrameKeeps(f, e); }
  }

  /** While a completion is queued, frames from Envoy do not reach Go: the order does not matter. */
  lemma FrameCommutes(f: FilterView, e: Event)
    requires f.t.queue != [] && Base(Unpost(f)) && Enabled(f, e) && IsFrame(e)
    ensures Enabled(Unpost(f), e)
    ensures Step(f, e).t.calls == f.t.calls && Step(f, e).t.queue == f.t.queue
    ensures Step(f, e).t.running == f.t.running
    ensures Unpost(Step(f, e)) == Step(Unpost(f), e)
  {
    var u := Unpost(f);
    assert !Replied(u);
    if u.waiting {
      assert Parked(u);
    } else {
      assert Steady(u) && u.P(u.Cur()).ProcessingInGo();
    }
  }

  /** Go resumes the direction it held. */
  lemma ResumeKeeps(f: FilterView, status: GolangStatus)
    requires Steady(f.(t := f.t.(running := true))) && Quiet(f.t) && !f.destroyed && !Async(status)
    requires !AsksForNoBody(f.P(f.Cur()), status)
    requires LegalCompletion(f.t.calls, Resume(status))
    requires LegalCalls(ContinueStream(f.At(f.Cur()), status).t.calls)
    ensures Steady(f.After(ContinueStream(f.At(f.Cur()), status)))
  {
    hide ContinueStream;
    ContinueStreamSettles(f.At(f.Cur()), status);
    SettledStarted(ContinueStream(f.At(f.Cur()), status));
  }

  /** Go ends the direction it held with a local reply. */
  lemma ReplyKeeps(f: FilterView)
    requires Steady(f.(t := f.t.(running := true))) && Quiet(f.t)
    ensures Replied(SendLocalReplyInternal(f))
  {
  }

  lemma PostedKeeps(f: FilterView)
    requires f.t.queue != [] && Sound(f) && !NullBody(f, PostedEvent)
    requires LegalCalls(OnPosted(f).t.calls)
    ensures Base(OnPosted(f))
  {
    hide ContinueStream, ContinueEncodeLocalReply, Settled, Parked, Replied;
    var g := f.(t := f.t.(queue := []));
    assert f.t.queue[1..] == [];
    PostedIsHeld(f);
    if f.waiting {
      ParkedKeeps(g);
    } else if f.t.queue[0].Resume? {
      ResumeKeeps(g, f.t.queue[0].status);
    } else {
      ReplyKeeps(g);
    }
  }

  /** A completion is queued only for a direction Go holds, or for a parked response. */
  lemma PostedIsHeld(f: FilterView)
    requires f.t.queue != [] && Sound(f)
    ensures if f.waiting then Parked(Unpost(f)) else Steady(Unpost(f))
    ensures |f.t.queue| == 1 && LegalCompletion(f.t.calls, f.t.queue[0]) && !f.t.running && !f.destroyed
  {
  }

  /** The parked response enters Go, whatever the completion that released it said. */
  lemma ParkedKeeps(f: FilterView)
    requires Parked(f.(t := f.t.(running := true))) && Quiet(f.t) && !f.destroyed
    requires LegalCalls(ContinueEncodeLocalReply(f).t.calls)
    requires !AsksForNoBody(f.enc.(state := ProcessingHeader), Answer(f.t))
    ensures Base(ContinueEncodeLocalReply(f))
  {
    hide ContinueStream;
    var g := f.WithStore(Decode, f.dec.s.ClearAll()).(waiting := false, entered := true);
    var l := EncodeParkedHeaders(g);
    ParkedEnters(f);
    ContinueStreamSettles(l, Answer(f.t));
    SettledStarted(ContinueStream(l, Answer(f.t)));
  }

  lemma ParkedEnters(f: FilterView)
    requires Parked(f.(t := f.t.(running := true))) && Quiet(f.t)
    requires LegalCalls(f.t.calls + [GoCall(EncodeHeader, ParkedEnd(f), [], Some(ResponseHeaders), Answer(f.t))])
    ensures var g := f.WithStore(Decode, f.dec.s.ClearAll()).(waiting := false, entered := true);
            var l := EncodeParkedHeaders(g);
            && l.d == Encode && TrafficInv(l.t) && l.t.queue == [] && RightMaps(l) && Placed(l)
            && ProcInv(l.p) && l.p.state.ProcessingHeader? && l.p.started && !l.p.replied
            && LegalAnswer(EncodeHeader, l.p.doEndStream, Answer(f.t))
            && (l.t.running <==> Async(Answer(f.t)))
  {
    CallsSnoc(f.t.calls, GoCall(EncodeHeader, ParkedEnd(f), [], Some(ResponseHeaders), Answer(f.t)));
  }

  /** The end_stream flag parked headers get: nothing of the response is parked behind them. */
  predicate ParkedEnd(f: FilterView) {
    f.enc.endStream && f.localTrailers.None? && f.enc.s.BufferEmpty()
  }

  lemma FirstEventKeeps(f: FilterView, e: Event)
    requires f == InitFilter(f.t.go) && Enabled(f, e) && LegalCalls(Step(f, e).t.calls) && !e.DestroyEvent?
    ensures Base(Step(f, e))
  {
    match e
    case DecodeHeadersEvent(end) =>
      hide DoHeaders, OnEncodeHeaders, KeepsInput;
      var l := Lane(Decode, f.dec.(endStream := end, started := true), f.t);
      DoHeadersSettles(l, end);
      var (g, done) := DoHeaders(l, RequestHeaders, end);
      if done { SettledSends(g, g.p.s.SendHeaders(end)); }
      hide Settled;
      assert Steady(Step(f, e));
    case EncodeHeadersEvent(end) =>
      hide OnEncodeHeaders, Base;
      EncodeHeadersKeeps(f, end);
  }

  /** A destroyed filter only empties its queue and hears from Go for the last time. */
  lemma DestroyedKeeps(f: FilterView, e: Event)
    requires f.destroyed && Enabled(f, e)
    ensures Step(f, e) == f.(t := f.t.(running := Step(f, e).t.running, queue := Step(f, e).t.queue))
    ensures |Step(f, e).t.queue| <= |f.t.queue| && (Step(f, e).t.running ==> f.t.running)
  {
  }

  /** Go's completion is always accepted: the filter knows that Go is in charge. */
  lemma CompletionKeeps(f: FilterView, c: Completion)
    requires Base(f) && f.t.running && LegalCompletion(f.t.calls, c)
    ensures GoCompletes(f, c).1 == CAPIOK
    ensures QueueOk(GoCompletes(f, c).0.t) && Unpost(GoCompletes(f, c).0) == f
  {
    if f.waiting {
      assert Parked(f);
    } else {
      assert Steady(f);
    }
  }

  lemma BaseSound(f: FilterView)
    requires Base(f)
    ensures Sound(f)
  {
  }

  lemma SoundInv(f: FilterView)
    requires Sound(f)
    ensures Inv(f)
  {
  }

  lemma FrameSound(f: FilterView, e: Event)
    requires Sound(f) && Enabled(f, e) && LegalCalls(Step(f, e).t.calls) && IsFrame(e)
    ensures Sound(Step(f, e))
  {
    hide Step;
    hide Base;
    if f.t.queue == [] {
      FrameKeeps(f, e);
      BaseSound(Step(f, e));
    } else {
      FrameCommutes(f, e);
      FrameKeeps(Unpost(f), e);
    }
  }

  lemma StepKeeps(f: FilterView, e: Event)
    requires Inv(f) && Link(f, e, Step(f, e))
    ensures Inv(Step(f, e))
  {
    hide Base;
    if f.destroyed {
      DestroyedKeeps(f, e);
    } else if e.DestroyEvent? {
    } else {
      LiveStepKeeps(f, e);
      SoundInv(Step(f, e));
    }
  }

  lemma LiveStepKeeps(f: FilterView, e: Event)
    requires f == InitFilter(f.t.go) || Sound(f)
    requires !f.destroyed && Link(f, e, Step(f, e)) && !e.DestroyEvent?
    ensures Sound(Step(f, e))
  {
    hide Base;
    if f == InitFilter(f.t.go) {
      FirstEventKeeps(f, e);
      BaseSound(Step(f, e));
    } else if e.PostedEvent? {
      PostedKeeps(f);
      BaseSound(Step(f, e));
    } else if e.GoCompletesEvent? {
      CompletionKeeps(f, e.completion);
    } else {
      FrameSound(f, e);
    }
  }

  /** A response that has not begun has left no trace. */
  lemma NotStarted(f: FilterView)
    requires Inv(f) && !f.destroyed && !f.enc.started
    ensures f.enc == INIT_PROC && !f.entered && !f.waiting
  {
    if f != InitFilter(f.t.go) {
      var u := Unpost(f);
      assert u.enc == f.enc;
    }
  }

  lemma NotBegun(f: FilterView)
    requires Inv(f) && !f.destroyed && !f.dec.started && !f.enc.started
    ensures f == InitFilter(f.t.go) && f.t.calls == []
  {
  }

  // ---------- whole runs ----------

  /**
   On every run no ASSERT of the filter fails, no null data_buffer_ is dereferenced, no state is
   unexpected, and no call into Go starts before the completion of the previous one was executed.
   */
  lemma {:induction false} RunSafe(go: Oracle, run: Run)
    requires Valid(go, run)
    ensures Inv(run.Last())
    decreases |run.events|
  {
    hide Inv, Step, Enabled, LegalCalls;
    if run.events == [] {
      InitInv(go);
    } else {
      DropLast(InitFilter(go), run);
      RunSafe(go, run.Before());
      StepKeeps(run.Before().Last(), run.LastEvent());
    }
  }

  lemma InitInv(go: Oracle)
    ensures Inv(InitFilter(go))
  {
  }
}
