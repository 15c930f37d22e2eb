/**
 Short runs, written out state by state: each reaches one of the places where the code does less than one
 would expect, so that the conditions proved for those places are about something that happens.
 */
module StreamWitnesses {
  import opened StreamTypes
  import opened StreamSpec
  import opened StreamRuns
  import opened StreamSafety
  import opened StreamProtocol
  import opened StreamStalls

  // ---------- building runs ----------

  lemma Start(go: Oracle) returns (run: Run)
    ensures Valid(go, run) && run.events == [] && run.states == [InitFilter(go)] && run.Last() == InitFilter(go)
  {
    run := Run([], [InitFilter(go)]);
  }

  lemma Extend(go: Oracle, run: Run, e: Event, g: FilterView) returns (longer: Run)
    requires Valid(go, run) && Link(run.Last(), e, g)
    ensures Valid(go, longer) && longer.Last() == g
    ensures longer.events == run.events + [e] && longer.states == run.states + [g]
  {
    hide Link, InitFilter;
    longer := Run(run.events + [e], run.states + [g]);
    forall i | 0 <= i < |longer.events|
      ensures Link(longer.states[i], longer.events[i], longer.states[i + 1])
    {
      if i < |run.events| {
        assert longer.events[i] == run.events[i] && longer.states[i] == run.states[i];
      } else {
        assert longer.states[i] == run.Last();
      }
    }
  }

  // ---------- single steps ----------

  /** The request headers have been shown to Go, which keeps them or asks for the whole body. */
  function Asked(go: Oracle): FilterView {
    var p := INIT_PROC.(state := if go(0).StopAndBuffer? then WaitingAllData else ProcessingHeader, started := true);
    var t := InitTraffic(go).(headers := Some(RequestHeaders), hasReq := true, running := !go(0).StopAndBuffer?,
                              calls := [GoCall(DecodeHeader, false, [], Some(RequestHeaders), go(0))]);
    InitFilter(go).(dec := p, t := t)
  }

  lemma HeadersShown(go: Oracle)
    requires go(0).StopAndBuffer? || go(0).Running?
    ensures Link(InitFilter(go), DecodeHeadersEvent(false), Asked(go))
  {
    var c := GoCall(DecodeHeader, false, [], Some(RequestHeaders), go(0));
    assert [] + [c] == [c];
  }

  /** Trailers come while Go holds the headers or wants the whole body, and nothing is buffered. */
  lemma TrailersArrive(f: FilterView)
    requires !f.destroyed && !f.enc.started && OpenForData(f.dec) && !f.dec.replied && LegalCalls(f.t.calls)
    requires f.dec.state.ProcessingHeader? || (f.dec.state.WaitingAllData? && f.dec.s.BufferEmpty())
    requires !f.dec.doEndStream
    ensures Link(f, DecodeTrailersEvent,
                 f.(dec := f.dec.(seenTrailers := true), t := f.t.(trailers := Some(RequestTrailers))))
  {
  }

  lemma DataArrives(f: FilterView, data: Bytes)
    requires !f.destroyed && !f.enc.started && OpenForData(f.dec) && !f.dec.replied && LegalCalls(f.t.calls)
    requires f.dec.state.ProcessingHeader? || f.dec.state.WaitingAllData?
    requires f.dec.s.recv == [] && f.dec.s.buffer.None?
    ensures Link(f, DecodeDataEvent(data, false),
                 f.(dec := f.dec.(s := f.dec.s.(buffer := Some(data), recv := data))))
  {
    assert [] + data == data;
  }

  lemma GoCompletesNow(f: FilterView, c: Completion)
    requires !f.destroyed && f.t.running && f.t.queue == [] && f.P(f.Cur()).ProcessingInGo()
    requires LegalCompletion(f.t.calls, c) && LegalCalls(f.t.calls)
    ensures Link(f, GoCompletesEvent(c), f.(t := f.t.(running := false, queue := [c])))
  {
    assert [] + [c] == [c];
  }

  lemma ResponseParks(f: FilterView)
    requires !f.destroyed && !f.enc.started && !f.entered && f.dec.ProcessingInGo() && f.dec.s.buffer.None?
    requires LegalCalls(f.t.calls)
    ensures Link(f, EncodeHeadersEvent(false),
                 f.(enc := f.enc.(endStream := false, started := true), waiting := true,
                    localHeaders := Some(ResponseHeaders)))
  {
  }

  lemma ParkedTrailersArrive(f: FilterView)
    requires !f.destroyed && f.waiting && OpenForData(f.enc) && !f.enc.replied && LegalCalls(f.t.calls)
    ensures Link(f, EncodeTrailersEvent,
                 f.(enc := f.enc.(seenTrailers := true), localTrailers := Some(ResponseTrailers)))
  {
  }

  lemma ParkedDataArrives(f: FilterView, data: Bytes)
    requires !f.destroyed && f.waiting && OpenForData(f.enc) && !f.enc.replied && LegalCalls(f.t.calls)
    requires f.enc.s == INIT_STORE && !f.enc.endStream
    ensures Link(f, EncodeDataEvent(data, false),
                 f.(enc := f.enc.(s := INIT_STORE.(buffer := Some(data), recv := data))))
  {
    assert [] + data == data;
  }

  /** Go stops the headers of a parked response, and the body parked behind them. */
  lemma ParkedBodyStopped(f: FilterView, data: Bytes)
    requires |f.t.queue| == 1 && !f.destroyed && f.waiting && !f.entered
    requires f.localHeaders == Some(ResponseHeaders) && f.localTrailers == Some(ResponseTrailers)
    requires f.enc == INIT_PROC.(started := true, seenTrailers := true,
                                 s := INIT_STORE.(buffer := Some(data), recv := data))
    requires f.t.go(|f.t.calls|).StopAndBuffer? && f.t.go(|f.t.calls| + 1).StopAndBuffer?
    ensures OnPosted(f).t.calls == f.t.calls + [GoCall(EncodeHeader, false, [], Some(ResponseHeaders), StopAndBuffer)]
                                             + [GoCall(EncodeData, false, data, None, StopAndBuffer)]
  {
    hide Store.SendList, Store.Push, Store.ClearAll, KeepsInput;
    var h := Release(f.(t := f.t.(queue := f.t.queue[1..])));
    var l := EncodeParkedHeaders(h);
    assert l.t.calls == f.t.calls + [GoCall(EncodeHeader, false, [], Some(ResponseHeaders), StopAndBuffer)];
    assert ApplyStatus(l.p, StopAndBuffer) == l.p.(state := WaitingAllData);
    var l1 := l.(p := l.p.(state := WaitingAllData));
    assert ContinueStream(l, StopAndBuffer).t == DoBufferedDataGo(l1, false).0.t;
  }

  // ---------- destruction before any headers ----------

  /** A filter that is destroyed before its first event has no request to finish. */
  lemma NeverCalled(go: Oracle) returns (run: Run)
    ensures Valid(go, run) && run.events == []
    ensures Enabled(run.Last(), DestroyEvent) && Step(run.Last(), DestroyEvent).Faulty()
  {
    run := Start(go);
  }

  // ---------- a null data_buffer_ ----------

  /** Go answers everything later. */
  function Later(k: nat): GolangStatus { Running }

  /** Go answers the first callback later, and stops at every other one. */
  function ThenStops(k: nat): GolangStatus {
    if k == 0 then Running else StopAndBuffer
  }

  /** A request whose headers Go holds, with trailers and no body. */
  lemma BodilessHeld(go: Oracle, c: Completion) returns (run: Run)
    requires go(0).Running? && (c.Resume? ==> !Async(c.status) && LegalAnswer(DecodeHeader, false, c.status))
    ensures Valid(go, run) && run.events == [DecodeHeadersEvent(false), DecodeTrailersEvent, GoCompletesEvent(c)]
    ensures run.Last() ==
            Asked(go).(dec := Asked(go).dec.(seenTrailers := true),
                       t := Asked(go).t.(trailers := Some(RequestTrailers), running := false, queue := [c]))
  {
    hide Link, Inv;
    var f := Asked(go);
    run := Start(go);
    HeadersShown(go);
    run := Extend(go, run, DecodeHeadersEvent(false), f);
    TrailersArrive(f);
    var f2 := f.(dec := f.dec.(seenTrailers := true), t := f.t.(trailers := Some(RequestTrailers)));
    run := Extend(go, run, DecodeTrailersEvent, f2);
    GoCompletesNow(f2, c);
    run := Extend(go, run, GoCompletesEvent(c), f2.(t := f2.t.(running := false, queue := [c])));
  }

  lemma NullBodyFaults(f: FilterView)
    requires Inv(f) && NullBody(f, PostedEvent)
    ensures Step(f, PostedEvent).Faulty()
  {
    hide Inv, OnPosted;
    if f.waiting { BodilessRelease(f); } else { BodilessResume(f); }
  }

  /** A request with trailers and no body, of which Go asks to buffer the body: the filter goes wrong. */
  lemma BodilessRequest() returns (run: Run)
    ensures Valid(Later, run) && Enabled(run.Last(), PostedEvent) && Step(run.Last(), PostedEvent).Faulty()
  {
    hide Link, Inv, Step;
    run := BodilessHeld(Later, Resume(StopAndBuffer));
    RunSafe(Later, run);
    NullBodyFaults(run.Last());
  }

  /** The same for a response that is parked with its trailers and no body. */
  lemma BodilessResponse() returns (run: Run)
    ensures Valid(ThenStops, run) && run.Last().waiting
    ensures Enabled(run.Last(), PostedEvent) && Step(run.Last(), PostedEvent).Faulty()
  {
    hide Link, Inv, Step;
    var f := Asked(ThenStops);
    run := Start(ThenStops);
    HeadersShown(ThenStops);
    run := Extend(ThenStops, run, DecodeHeadersEvent(false), f);
    ResponseParks(f);
    var f2 := f.(enc := f.enc.(endStream := false, started := true), waiting := true,
                 localHeaders := Some(ResponseHeaders));
    run := Extend(ThenStops, run, EncodeHeadersEvent(false), f2);
    ParkedTrailersArrive(f2);
    var f3 := f2.(enc := f2.enc.(seenTrailers := true), localTrailers := Some(ResponseTrailers));
    run := Extend(ThenStops, run, EncodeTrailersEvent, f3);
    GoCompletesNow(f3, Resume(Continue));
    run := Extend(ThenStops, run, GoCompletesEvent(Resume(Continue)),
                  f3.(t := f3.t.(running := false, queue := [Resume(Continue)])));
    RunSafe(ThenStops, run);
    NullBodyFaults(run.Last());
  }

  // ---------- stranded directions ----------

  /** Go stops the first headers to buffer, and answers everything else later. */
  function StopsHeaders(k: nat): GolangStatus {
    if k == 0 then StopAndBuffer else Running
  }

  /** Trailers find Go waiting for a body. */
  lemma StrandedByTrailers() returns (run: Run)
    ensures Valid(StopsHeaders, run) && run.events == [DecodeHeadersEvent(false), DecodeTrailersEvent]
    ensures StrandsAt(run.states[1], run.events[1]) && Stuck(run.Last()) && Quiet(run.Last().t)
  {
    hide Link;
    var f := Asked(StopsHeaders);
    run := Start(StopsHeaders);
    HeadersShown(StopsHeaders);
    run := Extend(StopsHeaders, run, DecodeHeadersEvent(false), f);
    TrailersArrive(f);
    var f2 := f.(dec := f.dec.(seenTrailers := true), t := f.t.(trailers := Some(RequestTrailers)));
    run := Extend(StopsHeaders, run, DecodeTrailersEvent, f2);
  }

  lemma BodilessLetGo(f: FilterView)
    requires f.t.queue == [Resume(Continue)] && !f.destroyed && !f.waiting && !f.entered && LegalCalls(f.t.calls)
    requires f.dec.state.ProcessingHeader? && f.dec.seenTrailers && !f.dec.endStream && !f.dec.doEndStream
    requires !f.dec.fault && f.dec.s.buffer.None?
    ensures Link(f, PostedEvent, f.(dec := f.dec.(state := WaitingData), t := f.t.(queue := [])))
  {
    assert f.t.queue[1..] == [];
  }

  /** Go lets go of headers behind which there are only trailers. */
  lemma StrandedByHeaders() returns (run: Run)
    ensures Valid(Later, run) && run.events ==
            [DecodeHeadersEvent(false), DecodeTrailersEvent, GoCompletesEvent(Resume(Continue)), PostedEvent]
    ensures StrandsAt(run.states[3], PostedEvent) && Stuck(run.Last()) && Quiet(run.Last().t)
  {
    hide Link;
    run := BodilessHeld(Later, Resume(Continue));
    var f := run.Last();
    BodilessLetGo(f);
    run := Extend(Later, run, PostedEvent, f.(dec := f.dec.(state := WaitingData), t := f.t.(queue := [])));
  }

  /** Go holds the headers; a chunk and trailers come; Go lets the headers go. */
  function Gathered(data: Bytes): FilterView {
    var f := Asked(ThenStops);
    f.(dec := f.dec.(seenTrailers := true, s := f.dec.s.(buffer := Some(data), recv := data)),
       t := f.t.(trailers := Some(RequestTrailers), running := false, queue := [Resume(Continue)]))
  }

  lemma Gather(data: Bytes) returns (run: Run)
    ensures Valid(ThenStops, run) && run.Last() == Gathered(data)
    ensures run.events == [DecodeHeadersEvent(false), DecodeDataEvent(data, false), DecodeTrailersEvent,
                           GoCompletesEvent(Resume(Continue))]
  {
    hide Link;
    var f := Asked(ThenStops);
    run := Start(ThenStops);
    HeadersShown(ThenStops);
    run := Extend(ThenStops, run, DecodeHeadersEvent(false), f);
    DataArrives(f, data);
    var f2 := f.(dec := f.dec.(s := f.dec.s.(buffer := Some(data), recv := data)));
    run := Extend(ThenStops, run, DecodeDataEvent(data, false), f2);
    TrailersArrive(f2);
    var f3 := f2.(dec := f2.dec.(seenTrailers := true), t := f2.t.(trailers := Some(RequestTrailers)));
    run := Extend(ThenStops, run, DecodeTrailersEvent, f3);
    GoCompletesNow(f3, Resume(Continue));
    run := Extend(ThenStops, run, GoCompletesEvent(Resume(Continue)), Gathered(data));
  }

  /** The chunk is shown, and Go stops at it at once. */
  function StoppedChunk(data: Bytes): FilterView {
    var f := Gathered(data);
    var c := GoCall(DecodeData, false, data, None, StopAndBuffer);
    f.(dec := f.dec.(state := WaitingTrailer,
                     s := f.dec.s.(buffer := Some([]), list := ListView([data], Wrap(|data|)),
                                   hist := [Piece(data, true, Held)])),
       t := f.t.(queue := [], calls := f.t.calls + [c]))
  }

  lemma ChunkStopped(data: Bytes)
    requires data != []
    ensures Link(Gathered(data), PostedEvent, StoppedChunk(data))
  {
    hide Wrap, KeepsInput, Grows;
    assert [] + [data] == [data] && [] + [Piece(data, true, Held)] == [Piece(data, true, Held)];
    assert [Resume(Continue)][1..] == [];
  }

  /** Go is shown what arrived meanwhile, and wants more although only trailers are left. */
  lemma StrandedByChunk(data: Bytes) returns (run: Run)
    requires data != []
    ensures Valid(ThenStops, run) && |run.events| == 5 && run.events[4] == PostedEvent
    ensures StrandsAt(run.states[4], PostedEvent) && Stuck(run.Last()) && Quiet(run.Last().t)
  {
    hide Link;
    run := Gather(data);
    ChunkStopped(data);
    assert run.states[4] == Gathered(data);
    run := Extend(ThenStops, run, PostedEvent, StoppedChunk(data));
  }
}
