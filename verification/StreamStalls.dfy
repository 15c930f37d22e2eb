/**
 The end of the stream, for every legal Go filter: a direction that Envoy has ended is Done once all is
 quiet, except where its trailers strand it. When that happens is told by guards on the state before.
 */
module StreamStalls {
  import opened StreamTypes
  import opened StreamSpec
  import opened StreamRuns
  import opened StreamSafety

  /** Trailers came, and Go waits for a body that will not come. */
  predicate StuckOnTrailers(p: ProcView) {
    && p.seenTrailers && p.s.BufferEmpty()
    && (p.state.WaitingData? || p.state.WaitingAllData? || p.state.WaitingTrailer?)
  }

  predicate Stops(status: GolangStatus) {
    status.StopAndBuffer? || status.StopAndBufferWatermark? || status.StopNoBuffer?
  }

  /** A completion makes the filter show Go what arrived meanwhile. */
  predicate ShowsMore(p: ProcView, status: GolangStatus) {
    !p.s.BufferEmpty() || (p.state.ProcessingHeader? && status.StopAndBuffer?)
  }

  /**
   A completion strands a direction whose trailers have come: Go lets go of the headers and there is
   nothing to show it; or it is shown what arrived meanwhile, and answers at once that it wants more.
   */
  predicate Strands(p: ProcView, status: GolangStatus, next: GolangStatus) {
    && p.seenTrailers && !Async(status) && !p.state.ProcessingTrailer?
    && if ShowsMore(p, status) then Stops(next) else p.state.ProcessingHeader?
  }

  lemma ShownStrands(l: Lane, data: Bytes)
    requires l.p.seenTrailers && !l.p.endStream && l.p.s.BufferEmpty() && l.t.trailers.Some?
    ensures var (g, done) := DoDataGo(l, data, false);
            && g.p.seenTrailers && g.p.s.BufferEmpty() && g.t.trailers == l.t.trailers
            && g.p.state == (if Async(Answer(l.t)) then ProcessingData else WaitingTrailer)
            && (done <==> Answer(l.t).Continue?)
  {
    hide PhaseOf, Grows, ListView.Push, ClearLatest;
  }

  lemma NoTrailersYet(l: Lane)
    requires !l.p.state.WaitingTrailer?
    ensures ResumeTrailers(l) == l
  {
  }

  lemma TrailersDoNotStrand(l: Lane)
    requires l.p.state.WaitingTrailer? && l.t.trailers.Some?
    ensures !StuckOnTrailers(ResumeTrailers(l).p)
  {
    hide CallGo, PhaseOf, Grows, KeepsInput;
  }

  /** What the first half of a completion leaves of a direction whose trailers have come. */
  lemma SettledByTrailers(p: ProcView, status: GolangStatus)
    requires ProcInv(p) && p.ProcessingInGo() && p.seenTrailers && !Async(status)
    requires LegalAnswer(PhaseOf(Decode, p.state), p.doEndStream, status)
    ensures var q := ApplyStatus(p, status);
            && q.seenTrailers && !q.endStream && q.s.buffer == p.s.buffer
            && q.state == (if p.state.ProcessingTrailer? then Done
                           else if p.state.ProcessingData? && p.s.BufferEmpty() then WaitingTrailer
                           else if status.StopAndBuffer? then WaitingAllData else WaitingData)
  {
    hide ContinueProcessing, ContinueDoData, DropLatest, ListView.ClearLatest;
    ForwardDoneKeeps(HandleGolangStatus(p, status).0, p.state);
  }

  lemma StreamKeepsInput(l: Lane, status: GolangStatus)
    ensures ContinueStream(l, status).p.seenTrailers == l.p.seenTrailers && ContinueStream(l, status).d == l.d
  {
    hide ContinueStream;
  }

  lemma AsyncDoesNotStrand(l: Lane, status: GolangStatus)
    requires ProcInv(l.p) && l.p.ProcessingInGo() && Async(status)
    ensures ContinueStream(l, status) == l
  {
  }

  lemma ResumedStrands(l: Lane)
    requires l.p.seenTrailers && !l.p.endStream && l.t.trailers.Some? && DataToResume(l.p) && l.p.s.buffer.Some?
    ensures var (g, more) := ResumeData(l);
            && g.p.seenTrailers && g.p.s.BufferEmpty() && g.t.trailers == l.t.trailers
            && g.p.state == (if Async(Answer(l.t)) then ProcessingData else WaitingTrailer)
            && (more <==> Answer(l.t).Continue?)
  {
    hide DoDataGo, ContinueDoData, Grows, KeepsInput;
    var l1 := l.(p := l.p.(s := l.p.s.TakeBuffer()));
    ShownStrands(l1, l.p.s.buffer.value);
    ForwardDoneKeeps(DoDataGo(l1, l.p.s.buffer.value, false).0.p, ProcessingData);
  }

  /** A completion with all it sets going leaves its direction stuck exactly if it strands it. */
  lemma StreamStrands(l: Lane, status: GolangStatus)
    requires ProcInv(l.p) && l.p.ProcessingInGo() && RightMaps(l) && !AsksForNoBody(l.p, status)
    requires LegalAnswer(PhaseOf(l.d, l.p.state), l.p.doEndStream, status)
    ensures StuckOnTrailers(ContinueStream(l, status).p) <==> Strands(l.p, status, Answer(l.t))
  {
    hide ApplyStatus, ContinueStream, Resumed, Grows, KeepsInput;
    if Async(status) {
      AsyncDoesNotStrand(l, status);
    } else if !l.p.seenTrailers {
      StreamKeepsInput(l, status);
    } else {
      SettledByTrailers(l.p, status);
      ResumedOrNot(l.(p := ApplyStatus(l.p, status)));
      StreamResumes(l, status);
    }
  }

  /** The second half of a completion. */
  function Resumed(l: Lane): Lane {
    var (g, more) := ResumeData(l);
    if more then ResumeTrailers(g) else g
  }

  lemma StreamResumes(l: Lane, status: GolangStatus)
    ensures ContinueStream(l, status) == Resumed(l.(p := ApplyStatus(l.p, status)))
  {
    hide ApplyStatus, ResumeData, ResumeTrailers;
  }

  lemma ResumedOrNot(l: Lane)
    requires l.p.seenTrailers && !l.p.endStream && l.t.trailers.Some? && !l.p.ProcessingInGo()
    requires DataToResume(l.p) ==> l.p.s.buffer.Some?
    ensures StuckOnTrailers(Resumed(l).p) <==>
            if DataToResume(l.p) then Stops(Answer(l.t)) else StuckOnTrailers(l.p) && !l.p.state.WaitingTrailer?
  {
    hide DoBufferedDataGo, ContinueDoData, ResumeTrailers, Grows, KeepsInput;
    if DataToResume(l.p) {
      ResumedStrands(l);
    }
    var g := ResumeData(l).0;
    if g.p.state.WaitingTrailer? {
      TrailersDoNotStrand(g);
    } else {
      NoTrailersYet(g);
    }
  }

  // ---------- every event ----------

  predicate Stuck(f: FilterView) {
    StuckOnTrailers(f.P(f.Cur()))
  }

  /**
   The events that strand a direction: trailers that find Go waiting for the whole body with nothing
   buffered, and completions that strand it.
   */
  predicate StrandsAt(f: FilterView, e: Event) {
    match e
    case DecodeTrailersEvent => f.dec.state.WaitingAllData? && f.dec.s.BufferEmpty()
    case EncodeTrailersEvent => !f.waiting && f.enc.state.WaitingAllData? && f.enc.s.BufferEmpty()
    case PostedEvent =>
      && f.t.queue != [] && !f.destroyed
      && if f.waiting then Strands(f.enc.(state := ProcessingHeader), Answer(f.t), f.t.go(|f.t.calls| + 1))
         else f.t.queue[0].Resume? && Strands(f.P(f.Cur()), f.t.queue[0].status, Answer(f.t))
    case _ => false
  }

  lemma TrailersShownLast(l: Lane, m: HeaderMap)
    ensures var p := DoTrailerGo(l, m).0.p; p.state.ProcessingTrailer? || p.state.Done?
  {
  }

  lemma TrailersStrand(l: Lane)
    requires ProcInv(l.p) && !l.p.StreamEnd() && l.p.started && !l.p.replied
    ensures StuckOnTrailers(DoTrailer(l.(p := l.p.(seenTrailers := true)), TrailersOf(l.d)).0.p) <==>
            l.p.state.WaitingAllData? && l.p.s.BufferEmpty()
  {
    hide DoDataGo, DoTrailerGo, Grows, KeepsInput;
    var p := l.p.(seenTrailers := true);
    var l1 := Lane(l.d, p.Check(!p.endStream && !p.doEndStream), l.t.(trailers := Some(TrailersOf(l.d))));
    if p.state.WaitingTrailer? || p.state.WaitingData? {
      TrailersShownLast(l1, TrailersOf(l.d));
    } else if p.state.WaitingAllData? && !p.s.BufferEmpty() {
      var l2 := l1.(p := l1.p.(s := l1.p.s.TakeBuffer()));
      ShownStrands(l2, p.s.buffer.value);
      TrailersShownLast(DoDataGo(l2, p.s.buffer.value, false).0, TrailersOf(l.d));
    }
  }

  /** Directions Envoy may still send to are live, and a response that has not begun is not stuck. */
  lemma Unended(f: FilterView)
    requires Inv(f) && !f.destroyed
    ensures f.dec.started && !f.enc.started && !f.dec.replied ==> ProcInv(f.dec) && !f.entered && !f.waiting
    ensures f.enc.started && !f.waiting && !f.enc.replied ==> f.entered && ProcInv(f.enc)
    ensures f.waiting ==> !f.entered && f.dec.ProcessingInGo()
    ensures !f.enc.started ==> f.enc == INIT_PROC && !f.entered
  {
    if f != InitFilter(f.t.go) {
      var u := Unpost(f);
      assert u.enc == f.enc && u.dec == f.dec;
    }
  }

  lemma FrameStrands(f: FilterView, e: Event)
    requires Inv(f) && !f.destroyed && Enabled(f, e)
    requires e.DecodeDataEvent? || e.DecodeTrailersEvent? || e.EncodeDataEvent? || e.EncodeTrailersEvent?
    ensures Stuck(Step(f, e)) <==> StrandsAt(f, e) || Stuck(f)
  {
    hide DoData, DoTrailer, Inv, ProcInv, KeepsInput, Store.SendList;
    Unended(f);
    match e
    case DecodeDataEvent(data, end) => DataKeepsOpen(Lane(Decode, Received(f.dec, data, end), f.t), data, end);
    case DecodeTrailersEvent => TrailersStrand(f.At(Decode));
    case EncodeDataEvent(data, end) => DataKeepsOpen(Lane(Encode, Received(f.enc, data, end), f.t), data, end);
    case EncodeTrailersEvent => if !f.waiting { TrailersStrand(f.At(Encode)); }
  }

  lemma DataKeepsOpen(l: Lane, data: Bytes, end: bool)
    ensures DoData(l, data, end).0.p.seenTrailers == l.p.seenTrailers
  {
    hide DoData;
  }

  lemma ResponseUnstuck(f: FilterView, end: bool)
    requires Inv(f) && !f.destroyed && !f.enc.started
    ensures !Stuck(OnEncodeHeaders(f, end))
  {
    hide EnterEncoding, Abandon, Park, Inv;
    Unended(f);
    var g := f.(enc := f.enc.(endStream := end, started := true));
    ParkFacts(g);
    AbandonFacts(g);
    EnteredOpen(g, end);
    EnteredOpen(Abandon(g), end);
  }

  lemma EnteredOpen(f: FilterView, end: bool)
    ensures EnterEncoding(f, end).entered && EnterEncoding(f, end).enc.seenTrailers == f.enc.seenTrailers
  {
    hide DoHeaders;
  }

  lemma ReleaseStrands(f: FilterView)
    requires Parked(f.(t := f.t.(running := true))) && Quiet(f.t) && !f.destroyed
    requires LegalCalls(ContinueEncodeLocalReply(f).t.calls)
    requires !AsksForNoBody(f.enc.(state := ProcessingHeader), Answer(f.t))
    ensures Stuck(ContinueEncodeLocalReply(f)) <==>
            Strands(f.enc.(state := ProcessingHeader), Answer(f.t), f.t.go(|f.t.calls| + 1))
  {
    hide ContinueStream, StuckOnTrailers;
    var g := f.WithStore(Decode, f.dec.s.ClearAll()).(waiting := false, entered := true);
    var l := EncodeParkedHeaders(g);
    ReleasedCalls(l, Answer(f.t));
    ParkedEnters(f);
    StreamStrands(l, Answer(f.t));
    StreamKeepsInput(l, Answer(f.t));
  }

  lemma ReleasedCalls(l: Lane, status: GolangStatus)
    ensures l.t.calls <= ContinueStream(l, status).t.calls
  {
    hide ContinueStream;
  }

  lemma PostedStrands(f: FilterView)
    requires f.t.queue != [] && Sound(f) && !NullBody(f, PostedEvent)
    requires LegalCalls(OnPosted(f).t.calls)
    ensures Stuck(OnPosted(f)) <==> StrandsAt(f, PostedEvent)
    ensures !Stuck(f)
  {
    hide ContinueStream, ContinueEncodeLocalReply, Parked, Strands;
    PostedIsHeld(f);
    HeldIsInGo(f);
    assert f.t.queue[1..] == [];
    var g := f.(t := f.t.(queue := []));
    if f.waiting {
      ReleaseStrands(g);
    } else if f.t.queue[0].Resume? {
      var status := f.t.queue[0].status;
      assert Settled(Unpost(f).At(f.Cur()));
      StreamStrands(g.At(g.Cur()), status);
      StreamKeepsInput(g.At(g.Cur()), status);
    }
  }

  lemma HeldIsInGo(f: FilterView)
    requires f.t.queue != [] && Sound(f)
    ensures f.P(f.Cur()).ProcessingInGo()
  {
  }

  lemma MarkingStrands(f: FilterView, e: Event)
    requires e.DestroyEvent? || e.GoCompletesEvent? || (e.PostedEvent? && (f.destroyed || f.t.queue == []))
    ensures Stuck(Step(f, e)) <==> Stuck(f)
  {
    hide StuckOnTrailers, ContinueStatusInternal, SendLocalReplyInternal;
  }

  lemma FirstNotStuck(f: FilterView, end: bool)
    requires Inv(f) && !f.destroyed && !f.dec.started && !f.enc.started
    ensures !Stuck(f) && !Stuck(OnDecodeHeaders(f, end))
  {
    hide DoHeaders, Inv;
    NotBegun(f);
  }

  /**
   One event: the current direction is stuck afterwards if and only if the event strands it, or it was stuck
   before and the event begins no response.
   */
  lemma StepStrands(f: FilterView, e: Event)
    requires Inv(f) && Link(f, e, Step(f, e))
    ensures Stuck(Step(f, e)) <==> StrandsAt(f, e) || (Stuck(f) && !e.EncodeHeadersEvent?)
  {
    hide Sound, LegalCalls, Stuck;
    hide OnDecodeHeaders, OnDecodeData, OnDecodeTrailers, OnEncodeHeaders, OnEncodeData, OnEncodeTrailers, OnPosted;
    match e
    case DecodeHeadersEvent(end) => FirstNotStuck(f, end);
    case EncodeHeadersEvent(end) => ResponseUnstuck(f, end);
    case DestroyEvent => MarkingStrands(f, e);
    case GoCompletesEvent(_) => MarkingStrands(f, e);
    case PostedEvent => if f.destroyed { MarkingStrands(f, e); } else { PostedStrands(f); }
    case _ => FrameStrands(f, e);
  }

  // ---------- whole runs ----------

  /** Event i stranded the direction the filter is still in: no response has begun since. */
  ghost predicate StrandedSince(run: Run, i: nat)
    requires run.Shaped() && i < |run.events|
  {
    StrandsAt(run.states[i], run.events[i]) && forall j :: i < j < |run.events| ==> !run.events[j].EncodeHeadersEvent?
  }

  lemma {:induction false} RunStrands(go: Oracle, run: Run)
    requires Valid(go, run)
    ensures Stuck(run.Last()) <==> exists i :: 0 <= i < |run.events| && StrandedSince(run, i)
    decreases |run.events|
  {
    if run.events == [] {
      NotStuckYet(go);
    } else {
      hide *;
      DropLast(InitFilter(go), run);
      RunStrands(go, run.Before());
      RunSafe(go, run.Before());
      LinkStrands(run.Before().Last(), run.LastEvent(), run.Last());
      StrandedSoFar(run);
    }
  }

  lemma LinkStrands(f: FilterView, e: Event, g: FilterView)
    requires Inv(f) && Link(f, e, g)
    ensures Stuck(g) <==> StrandsAt(f, e) || (Stuck(f) && !e.EncodeHeadersEvent?)
  {
    hide Inv, Step, Enabled, LegalCalls, GoesWrong, Stuck, StrandsAt;
    StepStrands(f, e);
  }

  /** The last event strands the direction, or an earlier one did and it begins no response. */
  lemma StrandedSoFar(run: Run)
    requires run.Shaped() && run.events != []
    ensures (exists i :: 0 <= i < |run.events| && StrandedSince(run, i)) <==>
            StrandsAt(run.Before().Last(), run.LastEvent()) ||
            ((exists i :: 0 <= i < |run.Before().events| && StrandedSince(run.Before(), i)) &&
             !run.LastEvent().EncodeHeadersEvent?)
  {
    hide StrandsAt, StrandedSince;
    var n := |run.events| - 1;
    StrandedLast(run);
    forall i | 0 <= i < n
      ensures StrandedSince(run, i) <==> StrandedSince(run.Before(), i) && !run.LastEvent().EncodeHeadersEvent?
    {
      StrandedBefore(run, i);
    }
    if i :| 0 <= i < |run.Before().events| && StrandedSince(run.Before(), i) {
      StrandedBefore(run, i);
    }
  }

  lemma StrandedLast(run: Run)
    requires run.Shaped() && run.events != []
    ensures StrandedSince(run, |run.events| - 1) <==> StrandsAt(run.Before().Last(), run.LastEvent())
  {
    hide StrandsAt;
    assert run.states[|run.events| - 1] == run.Before().Last();
  }

  lemma StrandedBefore(run: Run, i: nat)
    requires run.Shaped() && run.events != [] && i < |run.events| - 1
    ensures StrandedSince(run, i) <==> StrandedSince(run.Before(), i) && !run.LastEvent().EncodeHeadersEvent?
  {
    hide StrandsAt;
    var before, n := run.Before(), |run.events| - 1;
    assert run.events[n] == run.LastEvent() && run.states[i] == before.states[i];
    assert forall j :: 0 <= j < n ==> before.events[j] == run.events[j];
  }

  lemma NotStuckYet(go: Oracle)
    ensures !Stuck(InitFilter(go))
  {
  }

  /**
   For any legal Go filter: when Go is idle, nothing is queued and the stream has ended, the current
   direction is Done, unless Go ended it with a local reply, if and only if no event of the run has
   stranded it; and a stream that ended with an end_stream flag is never stranded.
   */
  lemma RunEnds(go: Oracle, run: Run)
    requires Valid(go, run)
    ensures var f := run.Last();
            var p := f.P(f.Cur());
            Quiet(f.t) && !f.destroyed && p.StreamEnd() && !p.replied ==>
              && (p.state.Done? <==> !exists i :: 0 <= i < |run.events| && StrandedSince(run, i))
              && (p.endStream ==> p.state.Done?)
  {
    hide Link, Inv, StrandedSince;
    RunSafe(go, run);
    RunStrands(go, run);
    QuietStates(run.Last());
  }

  lemma QuietStates(f: FilterView)
    requires Inv(f)
    ensures var p := f.P(f.Cur());
            Quiet(f.t) && !f.destroyed && p.StreamEnd() && !p.replied ==>
              (p.state.Done? <==> !Stuck(f)) && (p.endStream ==> p.state.Done?)
  {
  }
}
