/**
 What the protocol promises on every run, whatever legal filter Go runs: one call at a time in the
 order of the callback grammar, deferred local replies, the end of the stream, destruction.
 */
module StreamProtocol {
  import opened StreamTypes
  import opened StreamSpec
  import opened StreamRuns
  import opened StreamSafety
  import opened StreamDestroy

  // ---------- one call at a time ----------

  /**
   On every run: nothing goes wrong in the Envoy-side code; no call into Go starts while an earlier
   one is outstanding or its completion is queued; and as long as the filter lives, a call is
   outstanding exactly when the state of the current direction says so, the only exception being a
   direction that Go ended with a local reply.
   */
  lemma RunNeverReenters(go: Oracle, run: Run)
    requires Valid(go, run)
    ensures var f := run.Last();
            && !f.Faulty() && !f.t.reentered
            && (!f.destroyed ==>
                  && |f.t.queue| <= 1 && !(f.t.running && f.t.queue != [])
                  && (f.t.Pending() <==> f.P(f.Cur()).ProcessingInGo() && !f.P(f.Cur()).replied))
  {
    RunSafe(go, run);
    var f := run.Last();
    if !f.destroyed {
      InvPending(f);
    }
  }

  lemma InvPending(f: FilterView)
    requires Inv(f) && !f.destroyed
    ensures |f.t.queue| <= 1 && !(f.t.running && f.t.queue != [])
    ensures f.t.Pending() <==> f.P(f.Cur()).ProcessingInGo() && !f.P(f.Cur()).replied
  {
  }

  /**
   Between two events the state of a live direction tells what may be waiting: data_buffer_ holds
   something only while Go holds the direction or wants the whole body, trailers wait only for Go, a
   finished direction has nothing left; and response data that is not parked always finds the filter in
   the encode direction.
   */
  lemma RunStates(go: Oracle, run: Run, data: Bytes, end: bool)
    requires Valid(go, run)
    ensures var f := run.Last();
            var p := f.P(f.Cur());
            !f.destroyed && !p.replied ==>
              && (p.state.WaitingData? ==> p.s.BufferEmpty() && !p.endStream)
              && (p.state.WaitingTrailer? ==> p.s.BufferEmpty() && p.seenTrailers)
              && (p.state.ProcessingTrailer? ==> p.seenTrailers)
              && (p.state.Done? && !f.waiting ==> p.s.BufferEmpty() && p.StreamEnd())
              && (Enabled(f, EncodeDataEvent(data, end)) && !f.waiting ==> f.entered)
  {
    RunSafe(go, run);
    var f := run.Last();
    if !f.destroyed && !f.P(f.Cur()).replied {
      SoundStates(f);
    }
  }

  lemma SoundStates(f: FilterView)
    requires Inv(f) && !f.destroyed && !f.P(f.Cur()).replied
    ensures var p := f.P(f.Cur());
            && (f.waiting ==> p.ProcessingInGo() && (p.state.ProcessingTrailer? ==> p.seenTrailers))
            && (!f.waiting && f != InitFilter(f.t.go) ==> ProcInv(p))
            && (f.enc.started && !f.waiting ==> f.entered)
  {
  }

  lemma FrameEntersGo(f: FilterView, e: Event)
    requires IsFrame(e) && !e.EncodeHeadersEvent?
    ensures f.t.calls <= Step(f, e).t.calls && |Step(f, e).t.calls| <= |f.t.calls| + 2
  {
    hide DoHeaders, DoData, DoTrailer, KeepsInput, OnEncodeHeaders, OnPosted, OnDestroy, Received;
    hide Store.SendList, Store.AddBufferData, Store.SendTrailers, Store.SendHeaders, Store.SendData, Store.MoveOut;
  }

  lemma EncodingEntersGo(f: FilterView, end: bool)
    ensures f.t.calls <= EnterEncoding(f, end).t.calls && |EnterEncoding(f, end).t.calls| <= |f.t.calls| + 1
    ensures EnterEncoding(f, end).dec == f.dec && EnterEncoding(f, end).enc.started == f.enc.started
  {
    hide DoHeaders;
  }

  lemma ResponseEntersGo(f: FilterView, end: bool)
    requires !f.entered
    ensures f.t.calls <= OnEncodeHeaders(f, end).t.calls && |OnEncodeHeaders(f, end).t.calls| <= |f.t.calls| + 1
    ensures OnEncodeHeaders(f, end).dec.s.out == f.dec.s.out && OnEncodeHeaders(f, end).enc.started
  {
    hide EnterEncoding, Abandon, Park;
    var g := f.(enc := f.enc.(endStream := end, started := true));
    if f.dec.state.Done? {
      EncodingEntersGo(g, end);
    } else if f.dec.ProcessingInGo() {
      ParkFacts(g);
    } else {
      AbandonFacts(g);
      EncodingEntersGo(Abandon(g), end);
    }
  }

  lemma ReleaseEntersGo(f: FilterView)
    ensures f.t.calls <= ContinueEncodeLocalReply(f).t.calls
    ensures |ContinueEncodeLocalReply(f).t.calls| <= |f.t.calls| + 3
    ensures ContinueEncodeLocalReply(f).dec.s.out == f.dec.s.out
    ensures ContinueEncodeLocalReply(f).enc.started == f.enc.started
  {
    hide ContinueStream, PhaseOf;
    if f.localHeaders.Some? {
      var g := f.WithStore(f.Cur(), f.P(f.Cur()).s.ClearAll()).(waiting := false, entered := true);
      var l := EncodeParkedHeaders(g);
      assert g.After(ContinueStream(l, Answer(f.t))).t.calls == ContinueStream(l, Answer(f.t)).t.calls;
    }
  }

  lemma PostedEntersGo(f: FilterView)
    requires f.t.queue != []
    ensures f.t.calls <= OnPosted(f).t.calls && |OnPosted(f).t.calls| <= |f.t.calls| + 3
  {
    hide ContinueStream, ContinueEncodeLocalReply;
    var g := f.(t := f.t.(queue := f.t.queue[1..]));
    ReleaseEntersGo(g);
  }

  /** One event enters Go at most three times, and no call is ever taken back. */
  lemma StepEntersGo(f: FilterView, e: Event)
    requires Enabled(f, e) && (f.entered ==> f.enc.started)
    ensures f.t.calls <= Step(f, e).t.calls
    ensures |Step(f, e).t.calls| <= |f.t.calls| + if e.PostedEvent? then 3 else if IsFrame(e) then 2 else 0
  {
    hide OnDecodeHeaders, OnDecodeData, OnDecodeTrailers, OnEncodeHeaders, OnEncodeData, OnEncodeTrailers, OnPosted;
    match e
    case EncodeHeadersEvent(end) => ResponseEntersGo(f, end);
    case PostedEvent => PostedEntersGo(f);
    case DestroyEvent =>
    case GoCompletesEvent(_) =>
    case _ => FrameEntersGo(f, e);
  }

  // ---------- when the Envoy side goes wrong ----------

  lemma BodilessResume(f: FilterView)
    requires Inv(f) && !f.destroyed && !f.waiting && NullBody(f, PostedEvent)
    ensures OnPosted(f).Faulty()
  {
    hide DoDataGo, TrafficInv;
    PostedIsHeld(f);
    var p, status := f.P(f.Cur()), f.t.queue[0].status;
    assert ApplyStatus(p, status) == p.(state := WaitingAllData);
  }

  /**
   Whatever legal filter Go runs, an event goes wrong if and only if it settles held or parked headers by
   asking for the body of a direction whose trailers came with no data frame, where the null data_buffer_ is
   dereferenced, or it destroys a filter that no headers ever reached, where the ASSERT on req_ fails.
   */
  lemma StepFaults(f: FilterView, e: Event)
    requires Inv(f) && Enabled(f, e) && LegalCalls(Step(f, e).t.calls)
    ensures Step(f, e).Faulty() <==> GoesWrong(f, e)
  {
    hide Sound, OnPosted, LegalCalls;
    if e.DestroyEvent? {
      hide Inv;
      NotFaulty(f);
      DestroyNeedsRequest(f);
    } else if !NullBody(f, e) {
      StepKeeps(f, e);
    } else {
      OnlyPosted(f, e);
      if f.waiting { BodilessRelease(f); } else { BodilessResume(f); }
    }
  }

  lemma NotFaulty(f: FilterView)
    requires Inv(f)
    ensures !f.Faulty()
  {
  }

  lemma OnlyPosted(f: FilterView, e: Event)
    requires NullBody(f, e)
    ensures e.PostedEvent? && f.t.queue != [] && !f.destroyed
  {
  }

  /** The same at the end of any run, on which nothing has gone wrong. */
  lemma RunFaults(go: Oracle, run: Run, e: Event)
    requires Valid(go, run) && Enabled(run.Last(), e) && LegalCalls(Step(run.Last(), e).t.calls)
    ensures !run.Last().Faulty()
    ensures Step(run.Last(), e).Faulty() <==> GoesWrong(run.Last(), e)
  {
    hide Step, Enabled, LegalCalls, Link;
    RunSafe(go, run);
    StepFaults(run.Last(), e);
  }

  // ---------- the callback grammar ----------

  function Rank(phase: Phase): nat {
    match phase
    case DecodeHeader => 1
    case DecodeData => 2
    case DecodeTrailer => 3
    case EncodeHeader => 4
    case EncodeData => 5
    case EncodeTrailer => 6
    case AllDone => 7
  }

  /** Phases only advance, and only body phases repeat. */
  lemma {:induction false} GrammarAdvances(calls: seq<GoCall>, i: nat, j: nat)
    requires Grammar(calls) && i < j < |calls|
    ensures Rank(calls[i].phase) < Rank(calls[j].phase) ||
            (calls[i].phase == calls[j].phase && (calls[i].phase.DecodeData? || calls[i].phase.EncodeData?))
    decreases j
  {
    assert Follows(calls[j - 1], calls[j]);
    if i < j - 1 {
      GrammarAdvances(calls, i, j - 1);
    }
  }

  /** After a call that ended a direction, Go sees that direction no more. */
  lemma {:induction false} GrammarEnds(calls: seq<GoCall>, i: nat, j: nat)
    requires Grammar(calls) && i < j < |calls| && calls[i].end
    ensures InDirection(calls[i].phase, Decode) && InDirection(calls[j].phase, Encode)
    decreases j
  {
    assert Follows(calls[i], calls[i + 1]);
    assert Follows(calls[j - 1], calls[j]);
    if i < j - 1 {
      GrammarEnds(calls, i, j - 1);
    }
  }

  /** Two calls of one run, in this order. */
  predicate InOrderOfCalls(a: GoCall, b: GoCall) {
    && Rank(a.phase) <= Rank(b.phase)
    && (a.phase == b.phase ==> a.phase.DecodeData? || a.phase.EncodeData?)
    && (a.end ==> InDirection(a.phase, Decode) && InDirection(b.phase, Encode))
  }

  lemma GrammarOrders(calls: seq<GoCall>, i: nat, j: nat)
    requires Grammar(calls) && i < j < |calls|
    ensures InOrderOfCalls(calls[i], calls[j])
  {
    GrammarAdvances(calls, i, j);
    if calls[i].end {
      GrammarEnds(calls, i, j);
    }
  }

  /**
   The callbacks of any run are DH DD* DT? EH ED* ET?, decode missing or cut short only by a response:
   headers and trailers are seen at most once per direction, nothing follows an end of stream in its
   direction, each call gets its own header map, and each answer was legal.
   */
  lemma RunGrammar(go: Oracle, run: Run)
    requires Valid(go, run)
    ensures var calls := run.Last().t.calls;
            && Grammar(calls) && GoodCalls(calls) && LegalCalls(calls)
            && (forall i, j :: 0 <= i < j < |calls| ==> InOrderOfCalls(calls[i], calls[j]))
  {
    hide Step, Sound, Enabled, GoesWrong, InOrderOfCalls;
    RunSafe(go, run);
    if run.events != [] {
      DropLast(InitFilter(go), run);
    }
    var calls := run.Last().t.calls;
    forall i, j | 0 <= i < j < |calls|
      ensures InOrderOfCalls(calls[i], calls[j])
    {
      GrammarOrders(calls, i, j);
    }
  }

  /** No run takes a call back. */
  lemma {:induction false} RunGrows(f: FilterView, run: Run)
    requires Inv(f) && From(f, run)
    ensures f.t.calls <= run.Last().t.calls
    decreases |run.events|
  {
    hide Sound, Step, Enabled, LegalCalls, GoesWrong;
    if run.events != [] {
      DropLast(f, run);
      RunGrows(f, run.Before());
      RunKeeps(f, run.Before());
      StepEntersGo(run.Before().Last(), run.LastEvent());
    }
  }

  // ---------- deferred local replies ----------

  /** A response that starts while Go holds the decode direction is parked: Go is not entered. */
  lemma ParkingIsSilent(f: FilterView, end: bool)
    requires Inv(f) && Enabled(f, EncodeHeadersEvent(end)) && f.dec.ProcessingInGo()
    ensures var g := OnEncodeHeaders(f, end);
            && g.waiting && !g.entered
            && g.t == f.t && g.dec.s.out == f.dec.s.out && g.enc.s.out == []
            && g.dec.s.BufferEmpty()
  {
  }

  /** While it is parked, whatever else happens, Go is not entered and nothing is forwarded. */
  lemma ParkedIsSilent(f: FilterView, e: Event)
    requires Inv(f) && !f.destroyed && f.waiting && Enabled(f, e) && !e.PostedEvent?
    ensures var g := Step(f, e);
            && g.waiting && g.t.calls == f.t.calls
            && g.dec.s.out == f.dec.s.out && g.enc.s.out == []
  {
  }

  /**
   The pending completion, whichever it is, releases the parked response and says nothing else: the
   outcome is the same for every status and for a local reply of Go's own.
   */
  lemma CompletionDiscarded(f: FilterView, c1: Completion, c2: Completion)
    requires f.waiting
    ensures OnPosted(f.(t := f.t.(queue := [c1]))) == OnPosted(f.(t := f.t.(queue := [c2])))
  {
    hide ContinueEncodeLocalReply;
    assert [c1][1..] == [c2][1..] == [];
  }

  /**
   Releasing it enters Go first with the response headers, once, flagged with end_stream exactly if
   the response has ended with no body byte and no trailers parked; later calls of the same event are
   body or trailers of the response; nothing more of the request is forwarded.
   */
  lemma ReleaseEncodesOnce(f: FilterView)
    requires Inv(f) && !f.destroyed && f.waiting && f.t.queue != []
    requires LegalCalls(OnPosted(f).t.calls)
    ensures var g := OnPosted(f);
            var n := |f.t.calls|;
            && g.entered && !g.waiting
            && f.t.calls < g.t.calls && |g.t.calls| <= n + 3
            && g.t.calls[n].phase.EncodeHeader? && g.t.calls[n].headers == Some(ResponseHeaders)
            && (g.t.calls[n].end <==> f.enc.endStream && f.enc.s.recv == [] && !f.enc.seenTrailers)
            && (forall i :: n < i < |g.t.calls| ==> g.t.calls[i].phase.EncodeData? || g.t.calls[i].phase.EncodeTrailer?)
            && g.dec.s.out == f.dec.s.out
  {
    hide ContinueStream, GoodCalls, Grammar, LegalCalls, KeepsInput;
    ReleaseGrammar(f);
    var h := f.(t := f.t.(queue := [])).WithStore(Decode, f.dec.s.ClearAll()).(waiting := false, entered := true);
    PostedIsHeld(f);
    assert f.t.queue[1..] == [];
    var l := EncodeParkedHeaders(h);
    var g := OnPosted(f);
    assert l.t.calls <= g.t.calls && l.t.calls[|f.t.calls|].phase.EncodeHeader?;
    forall i | |f.t.calls| < i < |g.t.calls|
      ensures g.t.calls[i].phase.EncodeData? || g.t.calls[i].phase.EncodeTrailer?
    {
      GrammarAdvances(g.t.calls, |f.t.calls|, i);
      GrammarNotDone(g.t.calls, i);
    }
  }

  lemma ReleaseGrammar(f: FilterView)
    requires Inv(f) && !f.destroyed && f.waiting && f.t.queue != []
    requires LegalCalls(OnPosted(f).t.calls)
    ensures Grammar(OnPosted(f).t.calls)
  {
    if NullBody(f, PostedEvent) {
      BodilessRelease(f);
    } else {
      PostedKeeps(f);
    }
  }

  /** The null dereference comes right behind the call with the released headers. */
  lemma BodilessRelease(f: FilterView)
    requires Inv(f) && !f.destroyed && f.waiting && NullBody(f, PostedEvent)
    ensures OnPosted(f).enc.fault && !f.Faulty()
    ensures exists c :: OnPosted(f).t.calls == f.t.calls + [c] && c.phase.EncodeHeader?
    ensures Grammar(OnPosted(f).t.calls)
  {
    hide DoDataGo, Grammar, GoodCalls, LegalCalls, KeepsInput, Grows;
    PostedIsHeld(f);
    assert f.t.queue[1..] == [];
    var c := GoCall(EncodeHeader, false, [], Some(ResponseHeaders), StopAndBuffer);
    assert OnPosted(f).t.calls == f.t.calls + [c];
    CallsSnoc(f.t.calls, c);
  }

  /** No call carries the phase of a finished encode direction. */
  lemma GrammarNotDone(calls: seq<GoCall>, i: nat)
    requires Grammar(calls) && i < |calls|
    ensures !calls[i].phase.AllDone?
  {
    if i > 0 {
      assert Follows(calls[i - 1], calls[i]);
    }
  }

  lemma PostedFrozen(f: FilterView)
    requires f.t.queue != [] && Sound(f) && f.enc.started
    ensures OnPosted(f).dec.s.out == f.dec.s.out && OnPosted(f).enc.started
  {
    hide ContinueStream, ContinueEncodeLocalReply, Settled;
    PostedIsHeld(f);
    var g := f.(t := f.t.(queue := f.t.queue[1..]));
    if f.waiting {
      ReleaseEntersGo(g);
    } else {
      assert f.entered;
    }
  }

  lemma FrameFrozen(f: FilterView, e: Event)
    requires (f.entered ==> f.enc.started) && Enabled(f, e) && f.enc.started && IsFrame(e)
    requires f.waiting || f.entered
    ensures Step(f, e).dec.s.out == f.dec.s.out && Step(f, e).enc.started
  {
    hide DoHeaders, DoData, DoTrailer;
  }

  /** Once a response has begun, the request direction forwards nothing any more. */
  lemma DecodeFrozen(f: FilterView, e: Event)
    requires Inv(f) && Enabled(f, e) && LegalCalls(Step(f, e).t.calls)
    requires f.enc.started || e.EncodeHeadersEvent?
    ensures Step(f, e).dec.s.out == f.dec.s.out && Step(f, e).enc.started
  {
    hide Sound, OnDecodeData, OnEncodeData, OnDecodeTrailers, OnEncodeTrailers, OnEncodeHeaders, OnPosted, OnDestroy;
    if f.destroyed {
      DestroyedKeeps(f, e);
    } else {
      match e
      case EncodeHeadersEvent(end) => ResponseEntersGo(f, end);
      case PostedEvent => PostedFrozen(f);
      case DestroyEvent => DestroyOnlyMarks(f);
      case GoCompletesEvent(_) =>
      case _ => StartedSide(f); FrameFrozen(f, e);
    }
  }

  lemma DestroyOnlyMarks(f: FilterView)
    ensures OnDestroy(f).dec == f.dec && OnDestroy(f).enc == f.enc && OnDestroy(f).t.calls == f.t.calls
  {
  }

  /** A response that has begun is parked, or the filter is in the encode direction. */
  lemma StartedSide(f: FilterView)
    requires Inv(f) && !f.destroyed && f.enc.started
    ensures f.waiting || f.entered
  {
  }

  /** The invariant is kept from wherever a run is picked up. */
  lemma {:induction false} RunKeeps(f: FilterView, run: Run)
    requires Inv(f) && From(f, run)
    ensures Inv(run.Last())
    decreases |run.events|
  {
    hide Inv, Step, Enabled, LegalCalls;
    if run.events != [] {
      DropLast(f, run);
      RunKeeps(f, run.Before());
      StepKeeps(run.Before().Last(), run.LastEvent());
    }
  }

  lemma {:induction false} RunDecodeFrozen(f: FilterView, run: Run)
    requires Inv(f) && From(f, run) && f.enc.started
    ensures run.Last().dec.s.out == f.dec.s.out && run.Last().enc.started
    decreases |run.events|
  {
    hide Inv, Step, Enabled, LegalCalls;
    if run.events != [] {
      DropLast(f, run);
      RunDecodeFrozen(f, run.Before());
      RunKeeps(f, run.Before());
      DecodeFrozen(run.Before().Last(), run.LastEvent());
    }
  }

  /** What an early response leaves of the request: nothing buffered, and nothing held once it enters Go. */
  predicate Abandoned(f: FilterView) {
    && (f.waiting || f.entered ==> f.dec.s.BufferEmpty())
    && (f.entered && !f.dec.state.Done? ==> f.dec.s.list == EMPTY_LIST)
  }

  lemma EnteringAbandons(f: FilterView, end: bool)
    ensures EnterEncoding(f, end).dec == f.dec && EnterEncoding(f, end).entered
    ensures EnterEncoding(f, end).waiting == f.waiting
  {
    hide DoHeaders;
  }

  lemma NothingLeft(s: Store)
    ensures s.Drain().BufferEmpty() && s.Drain().ClearAll().BufferEmpty() && s.Drain().ClearAll().list == EMPTY_LIST
  {
    hide Settle;
  }

  lemma ResponseAbandons(f: FilterView, end: bool)
    requires !f.entered && (f.dec.state.Done? ==> f.dec.s.BufferEmpty())
    ensures Abandoned(OnEncodeHeaders(f, end))
  {
    hide EnterEncoding, Park, Abandon;
    var g := f.(enc := f.enc.(endStream := end, started := true));
    EnteringAbandons(g, end);
    EnteringAbandons(Abandon(g), end);
    DecodeDropped(g);
  }

  lemma DecodeDropped(f: FilterView)
    requires !f.entered
    ensures Park(f).dec.s.BufferEmpty() && !Park(f).entered && Abandon(f).dec.s.BufferEmpty()
    ensures Abandon(f).dec.s.list == EMPTY_LIST
  {
    hide Store.Drain, Store.ClearAll, Store.BufferEmpty;
    NothingLeft(f.dec.s);
  }

  lemma PostedAbandons(f: FilterView)
    requires Abandoned(f) && f.t.queue != [] && !(f.entered && f.waiting) && (f.waiting ==> f.localHeaders.Some?)
    ensures Abandoned(OnPosted(f))
  {
    hide ContinueStream, DoHeadersGo, Settle, EndWithReply;
  }

  lemma FrameAbandons(f: FilterView, e: Event)
    requires Abandoned(f) && (e.EncodeDataEvent? || e.EncodeTrailersEvent?) && (f.waiting || f.entered)
    ensures Abandoned(Step(f, e))
  {
    hide DoData, DoTrailer;
  }

  lemma RequestAbandons(f: FilterView, e: Event)
    requires !f.entered && !f.waiting && (e.DecodeHeadersEvent? || e.DecodeDataEvent? || e.DecodeTrailersEvent?)
    ensures Abandoned(Step(f, e))
  {
    hide DoHeaders, DoData, DoTrailer;
  }

  lemma DecodeSide(f: FilterView)
    requires Inv(f) && !f.destroyed
    ensures !f.enc.started ==> !f.entered && !f.waiting
    ensures !f.entered && !f.waiting && f.dec.state.Done? ==> f.dec.s.BufferEmpty()
    ensures f.waiting ==> !f.entered && f.localHeaders.Some?
  {
    hide Grammar, GoodCalls, LegalCalls, Placed;
  }

  lemma StepAbandons(f: FilterView, e: Event)
    requires Inv(f) && Enabled(f, e) && Abandoned(f)
    ensures Abandoned(Step(f, e))
  {
    hide Inv, OnDecodeHeaders, OnDecodeData, OnEncodeData;
    hide OnDecodeTrailers, OnEncodeTrailers, OnEncodeHeaders, OnPosted;
    if f.destroyed {
      DestroyedKeeps(f, e);
    } else {
      DecodeSide(f);
      match e
      case EncodeHeadersEvent(end) => ResponseAbandons(f, end);
      case PostedEvent => PostedAbandons(f);
      case DestroyEvent => DestroyOnlyMarks(f);
      case GoCompletesEvent(_) =>
      case EncodeDataEvent(_, _) => StartedSide(f); FrameAbandons(f, e);
      case EncodeTrailersEvent => StartedSide(f); FrameAbandons(f, e);
      case _ => RequestAbandons(f, e);
    }
  }

  /**
   Over any run: from the moment a response is parked nothing of the request is buffered, and once a response
   has entered Go before the request was Done, nothing of the request is held either.
   */
  lemma {:induction false} RunAbandons(go: Oracle, run: Run)
    requires Valid(go, run)
    ensures var f := run.Last();
            && (f.waiting || f.entered ==> f.dec.s.BufferEmpty())
            && (f.entered && !f.dec.state.Done? ==> f.dec.s.list == EMPTY_LIST)
    decreases |run.events|
  {
    hide Inv, Step, Enabled, LegalCalls, GoesWrong;
    if run.events != [] {
      DropLast(InitFilter(go), run);
      RunAbandons(go, run.Before());
      RunSafe(go, run.Before());
      StepAbandons(run.Before().Last(), run.LastEvent());
    }
  }

  /** The phase of a state belongs to its direction, up to Done; Done of the request is where the response begins. */
  lemma PhasesMeet(d: Direction, state: FilterState)
    ensures InDirection(PhaseOf(d, state), d) <==> !state.Done?
    ensures PhaseOf(Decode, Done) == PhaseOf(Encode, WaitingHeader)
    ensures PhaseOf(Encode, Done) == AllDone
  {
  }

  /**
   A parked response stays parked, Go is not entered and nothing is forwarded in either direction,
   through every run in which the pending completion is not executed.
   */
  lemma {:induction false} RunParked(f: FilterView, run: Run)
    requires Inv(f) && !f.destroyed && f.waiting && From(f, run)
    requires PostedEvent !in run.events
    ensures var g := run.Last();
            && g.waiting && g.t.calls == f.t.calls
            && g.dec.s.out == f.dec.s.out && g.enc.s.out == f.enc.s.out == []
    decreases |run.events|
  {
    hide Inv, Step, Enabled, LegalCalls;
    if run.events == [] {
      ParkedOut(f);
    } else {
      DropLast(f, run);
      var before, e := run.Before(), run.LastEvent();
      assert e in run.events && run.events == before.events + [e];
      RunParked(f, before);
      RunKeeps(f, before);
      var g := before.Last();
      if g.destroyed {
        DestroyedKeeps(g, e);
      } else {
        ParkedIsSilent(g, e);
      }
    }
  }

  /**
   A deferred reply from beginning to end. On any run, from a state k in which a response is parked to
   the event j that executes the pending completion: Go is not called in between, the event calls it
   first with the response headers, flagged with end_stream exactly if the response is over by then with
   no body byte and no trailers; no other call of the whole run has response headers, what the completion
   said does not matter, and nothing of the request is forwarded ever after.
   */
  lemma RunDefers(go: Oracle, run: Run, k: nat, j: nat)
    requires Valid(go, run) && k <= j < |run.events|
    requires run.states[k].waiting && !run.states[k].destroyed && !run.states[j].destroyed
    requires PostedEvent !in run.events[k..j] && run.events[j] == PostedEvent
    ensures var f, g, n := run.states[j], run.states[j + 1], |run.states[k].t.calls|;
            && f.waiting && f.t.calls == run.states[k].t.calls
            && f.t.calls < g.t.calls
            && g.t.calls[n].phase.EncodeHeader? && g.t.calls[n].headers == Some(ResponseHeaders)
            && (g.t.calls[n].end <==> f.enc.endStream && f.enc.s.recv == [] && !f.enc.seenTrailers)
            && (forall i :: 0 <= i < |run.Last().t.calls| ==> (run.Last().t.calls[i].phase.EncodeHeader? <==> i == n))
            && run.Last().dec.s.out == run.states[k].dec.s.out
            && (forall c :: OnPosted(f.(t := f.t.(queue := [c]))) == g)
  {
    hide Inv, Step, Enabled, LegalCalls, GoesWrong, InOrderOfCalls, OnPosted, Grammar, GoodCalls;
    var f0 := InitFilter(go);
    SliceFrom(f0, run, 0, k);
    RunSafe(go, Slice(run, 0, k));
    SliceFrom(f0, run, k, j);
    RunParked(run.states[k], Slice(run, k, j));
    RunKeeps(run.states[k], Slice(run, k, j));
    assert run.events[j] == PostedEvent && Link(run.states[j], run.events[j], run.states[j + 1]);
    PostedStep(run.states[j]);
    ReleaseEncodesOnce(run.states[j]);
    AnyCompletion(run.states[j]);
    WaitingStarted(run.states[j]);
    DecodeFrozen(run.states[j], PostedEvent);
    StepKeeps(run.states[j], PostedEvent);
    SliceFrom(f0, run, j + 1, |run.events|);
    var rest := Slice(run, j + 1, |run.events|);
    RunDecodeFrozen(run.states[j + 1], rest);
    RunGrows(run.states[j + 1], rest);
    RunGrammar(go, run);
    OnlyHeaders(run.Last().t.calls, |run.states[k].t.calls|);
  }

  lemma AnyCompletion(f: FilterView)
    requires Inv(f) && !f.destroyed && f.waiting && f.t.queue != []
    ensures forall c :: OnPosted(f.(t := f.t.(queue := [c]))) == OnPosted(f)
  {
    hide OnPosted;
    PostedIsHeld(f);
    var c0 := f.t.queue[0];
    assert f.t.queue == [c0] && f == f.(t := f.t.(queue := [c0]));
    forall c
      ensures OnPosted(f.(t := f.t.(queue := [c]))) == OnPosted(f)
    {
      CompletionDiscarded(f, c, c0);
    }
  }

  lemma OnlyHeaders(calls: seq<GoCall>, n: nat)
    requires forall i, j :: 0 <= i < j < |calls| ==> InOrderOfCalls(calls[i], calls[j])
    requires n < |calls| && calls[n].phase.EncodeHeader?
    ensures forall i :: 0 <= i < |calls| ==> (calls[i].phase.EncodeHeader? <==> i == n)
  {
  }

  lemma PostedStep(f: FilterView)
    requires Enabled(f, PostedEvent)
    ensures f.t.queue != [] && Step(f, PostedEvent) == OnPosted(f)
  {
  }

  lemma WaitingStarted(f: FilterView)
    requires Inv(f) && !f.destroyed && f.waiting
    ensures f.enc.started
  {
  }

  lemma ParkedOut(f: FilterView)
    requires Inv(f) && !f.destroyed && f.waiting
    ensures f.enc.s.out == []
  {
  }
}
