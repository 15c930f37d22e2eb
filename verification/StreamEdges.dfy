/**
 Where the code does not do what one would expect of it, and exactly when.
 */
module StreamEdges {
  import opened StreamTypes
  import opened StreamSpec
  import opened StreamRuns
  import opened StreamSafety
  import opened StreamReturns
  import opened StreamLedger
  import opened StreamTransparency
  import opened StreamWitnesses

  // ---------- trailers while Go holds the headers ----------

  /**
   Trailers that arrive while Go still holds the headers of a direction in which no data frame came: a
   completion dereferences the null data_buffer_ if and only if Go asks to buffer the body; every other
   legal completion leaves the direction stuck.
   */
  lemma TrailersDuringHeaders(l: Lane, status: GolangStatus)
    requires Settled(l) && !l.p.StreamEnd() && l.p.state.ProcessingHeader? && l.p.s.buffer.None?
    requires !Async(status) && LegalAnswer(PhaseOf(l.d, ProcessingHeader), l.p.doEndStream, status)
    ensures var held := DoTrailer(l.(p := l.p.(seenTrailers := true)), TrailersOf(l.d)).0;
            var g := ContinueStream(held.(t := held.t.(running := false)), status);
            && !held.p.fault && held.t.calls == l.t.calls
            && (g.p.fault <==> status.StopAndBuffer?)
            && (!g.p.fault ==> g.p.state.WaitingData? && g.p.seenTrailers && g.t.calls == l.t.calls && g.p.s == l.p.s)
  {
  }

  // ---------- conservation, and what a finished direction may still hold ----------

  /** The number of bytes that were dropped. */
  ghost function DroppedBytes(hist: seq<Piece>): nat {
    if hist == [] then 0
    else
      var last := hist[|hist| - 1];
      DroppedBytes(hist[..|hist| - 1]) + if last.fate.Dropped? then |last.bytes| else 0
  }

  lemma {:induction false} HistSizes(hist: seq<Piece>)
    ensures |HistBytes(hist)| == |Flat(Select(hist, Forwarded))| + |Flat(Select(hist, Held))| + DroppedBytes(hist)
  {
    if hist != [] {
      var init, last := hist[..|hist| - 1], hist[|hist| - 1];
      HistSizes(init);
      FlatSnoc(Select(init, Forwarded), last.bytes);
      FlatSnoc(Select(init, Held), last.bytes);
    }
  }

  /** On every run, in both directions: bytes in are bytes out, held, buffered or dropped. */
  lemma RunConserves(go: Oracle, run: Run, d: Direction)
    requires Valid(go, run)
    ensures var s := run.Last().P(d).s;
            |Body(run.events, d)| ==
              |OutBytes(s.out)| + |Flat(s.list.queue)| + |s.Buffered()| + DroppedBytes(s.hist)
  {
    hide HistBytes, Select, Flat, OutBytes, DroppedBytes, Body, Link;
    RunLedger(go, run);
    RunInput(go, run, d);
    HistSizes(run.Last().P(d).s.hist);
  }

  /** empty() is exact modulo 2^32: a list whose total is a multiple of it passes for empty. */
  lemma EmptyCountsModulo(s: Store)
    requires Ledger(s)
    ensures s.list.Empty() <==> |Flat(s.list.queue)| % UINT32_SIZE == 0
  {
  }

  // ---------- trailers and stopped bodies ----------

  /**
   Trailers that Go lets through at once do not flush the list: with nothing dropped so far, the next
   filter has the whole body in front of them if and only if nothing was held or buffered when they
   arrived.
   */
  lemma SyncTrailersStrand(l: Lane)
    requires Ledger(l.p.s) && NoDrops(l.p.s.hist)
    ensures var (g, done) := DoTrailer(l.(p := l.p.(seenTrailers := true)), TrailersOf(l.d));
            done ==>
              (OutBytes(g.p.s.SendTrailers().out) == l.p.s.recv <==>
                 Flat(l.p.s.list.queue) == [] && l.p.s.BufferEmpty())
  {
    var (g, done) := DoTrailer(l.(p := l.p.(seenTrailers := true)), TrailersOf(l.d));
    DoTrailerOut(l);
    hide DoTrailer, OutBytes, HistBytes, Flat, Select;
    NoDropsSplit(l.p.s.hist);
    OutSnoc([], Headers(false));
    OutSnoc(g.p.s.Flushed(), Trailers);
    assert [] + [Headers(false)] == [Headers(false)];
    var sent, rest := OutBytes(l.p.s.out), Flat(l.p.s.list.queue) + l.p.s.Buffered();
    assert OutBytes(g.p.s.SendTrailers().out) == sent;
    assert l.p.s.recv == sent + rest;
    assert |l.p.s.recv| == |sent| + |rest|;
  }

  /** A Go filter that stops the request headers to buffer, and lets everything else through. */
  function StopsFirst(k: nat): GolangStatus {
    if k == 0 then StopAndBuffer else Continue
  }

  lemma HeadersStopped(go: Oracle)
    requires go(0).StopAndBuffer?
    ensures var f := Step(InitFilter(go), DecodeHeadersEvent(false));
            && f.dec == INIT_PROC.(state := WaitingAllData, started := true)
            && !f.destroyed && !f.enc.started && !f.t.running && f.t.hasReq && f.t.go == go
            && f.t.calls == [GoCall(DecodeHeader, false, [], Some(RequestHeaders), StopAndBuffer)]
  {
    assert [] + [GoCall(DecodeHeader, false, [], Some(RequestHeaders), StopAndBuffer)]
        == [GoCall(DecodeHeader, false, [], Some(RequestHeaders), StopAndBuffer)];
  }

  lemma BodyBuffered(f: FilterView, body: Bytes)
    requires f.dec == INIT_PROC.(state := WaitingAllData, started := true)
    ensures Step(f, DecodeDataEvent(body, false)) ==
            f.(dec := f.dec.(s := f.dec.s.(buffer := Some(body), recv := body)))
  {
    assert [] + body == body;
  }

  lemma TrailersPassAlone(f: FilterView, body: Bytes)
    requires f.dec == INIT_PROC.(state := WaitingAllData, started := true,
                                 s := INIT_STORE.(buffer := Some(body), recv := body))
    requires body != [] && f.t.go(|f.t.calls|).Continue? && f.t.go(|f.t.calls| + 1).Continue?
    ensures var g := Step(f, DecodeTrailersEvent);
            && g.dec.state.Done? && g.dec.s.out == [Headers(false), Trailers] && g.dec.s.list.queue == [body]
            && g.t.calls == f.t.calls + [GoCall(DecodeData, false, body, None, Continue)]
                                      + [GoCall(DecodeTrailer, true, [], Some(RequestTrailers), Continue)]
  {
    var l := Lane(Decode, f.dec.(seenTrailers := true), f.t.(trailers := Some(RequestTrailers)));
    var (h, done) := DoBufferedDataGo(l, false);
    assert [] + [body] == [body];
    assert h.p.state.WaitingTrailer? && h.p.s.list.queue == [body] && h.p.s.out == [];
    assert [Headers(false)] + [Trailers] == [Headers(false), Trailers];
  }

  /** A run on which that happens, for any body. */
  lemma StrandedBody(body: Bytes) returns (run: Run)
    requires body != []
    ensures run.events == [DecodeHeadersEvent(false), DecodeDataEvent(body, false), DecodeTrailersEvent]
    ensures Valid(StopsFirst, run)
    ensures var p := run.Last().dec;
            p.state.Done? && p.s.out == [Headers(false), Trailers] && p.s.list.queue == [body]
  {
    hide Step;
    var e1, e2, e3 := DecodeHeadersEvent(false), DecodeDataEvent(body, false), DecodeTrailersEvent;
    var f0 := InitFilter(StopsFirst);
    var f1 := Step(f0, e1);
    var f2 := Step(f1, e2);
    var f3 := Step(f2, e3);
    HeadersStopped(StopsFirst);
    BodyBuffered(f1, body);
    TrailersPassAlone(f2, body);
    assert Link(f0, e1, f1) && Link(f1, e2, f2) && Link(f2, e3, f3);
    run := Run([e1, e2, e3], [f0, f1, f2, f3]);
  }

  lemma EndsAppend(out: seq<Frame>, one: Frame)
    ensures Ends(out + [one]) == Ends(out) + if EndsStream(one) then 1 else 0
  {
    assert (out + [one])[..|out|] == out;
  }

  /** Flushing pending headers ends nothing; each frame that ends the stream counts once. */
  lemma SendEnds(s: Store, data: Bytes)
    ensures Ends(s.Flushed()) == Ends(s.out)
    ensures Ends(s.SendData(data, true).out) == Ends(s.out) + 1
    ensures var out := s.SendTrailers().out; Ends(out) == Ends(s.out) + 1 && out[|out| - 1] == Trailers
  {
    hide Ends;
    assert Ends([]) == 0 by { NoFrames(); }
    EndsAppend([], Headers(false));
    assert [] + [Headers(false)] == [Headers(false)];
    EndsAppend(s.Flushed(), Data(data, true));
    EndsAppend(s.Flushed(), Trailers);
  }

  lemma NoFrames()
    ensures Ends([]) == 0
  {
  }

  /** Trailers leave behind headers that are still pending, which do not end the stream. */
  lemma ContinueWithTrailers(p: ProcView)
    requires p.seenTrailers
    ensures ContinueProcessing(p) == p.(s := p.s.SendTrailers())
  {
    assert [] + [Headers(false)] == [Headers(false)];
  }

  lemma TrailersFlush(p: ProcView)
    requires ProcInv(p) && p.state.ProcessingTrailer?
    ensures var q := ApplyStatus(p, Continue);
            && q.state.Done? && q.s.out[|q.s.out| - 1] == Trailers
            && Ends(q.s.out) == Ends(p.s.out) + if p.s.list.Empty() then 1 else 2
  {
    hide Ends, Flat, Settle, Store.SendData, Store.SendTrailers, ContinueProcessing, KeepsInput;
    var q := HandleTrailer(p, Continue).0;
    var r := ContinueDoData(q);
    SendEnds(q.s, Flat(q.s.list.queue));
    SendEnds(q.s.MoveOut(), Flat(q.s.list.queue));
    SendEnds(r.s, []);
    ContinueWithTrailers(r);
  }

  /**
   When Go lets the trailers through later, the bytes it had stopped go out first, but flagged as the
   end of the stream: the next filter sees the stream end twice if and only if the list is not empty by its
   counter, which for a direction whose books are right means that no multiple of 2^32 bytes was held.
   */
  lemma AsyncTrailersEndTwice(p: ProcView)
    requires ProcInv(p) && p.state.ProcessingTrailer?
    ensures var q := ApplyStatus(p, Continue);
            && q.state.Done? && q.s.out[|q.s.out| - 1] == Trailers
            && Ends(q.s.out) == Ends(p.s.out) + (if p.s.list.Empty() then 1 else 2)
            && (Ledger(p.s) ==>
                  Ends(q.s.out) == Ends(p.s.out) + if |Flat(p.s.list.queue)| % UINT32_SIZE == 0 then 1 else 2)
  {
    hide ProcInv, ApplyStatus, Ends, Ledger, Flat, ListView.Empty;
    TrailersFlush(p);
    if Ledger(p.s) { EmptyCountsModulo(p.s); }
  }

  /** Go stops headers and body, and answers the trailers later. */
  function StopsTwice(k: nat): GolangStatus {
    if k < 2 then StopAndBuffer else Running
  }

  /** Headers and a chunk are stopped; the trailers bring both to Go, which keeps the trailers. */
  function HeldTrailers(data: Bytes): FilterView {
    var f := Asked(StopsTwice);
    var c1 := GoCall(DecodeData, false, data, None, StopAndBuffer);
    var c2 := GoCall(DecodeTrailer, true, [], Some(RequestTrailers), Running);
    f.(dec := f.dec.(state := ProcessingTrailer, seenTrailers := true, doEndStream := true,
                     s := f.dec.s.(buffer := Some([]), recv := data, list := ListView([data], Wrap(|data|)),
                                   hist := [Piece(data, true, Held)])),
       t := f.t.(trailers := Some(RequestTrailers), running := true, calls := f.t.calls + [c1] + [c2]))
  }

  lemma TrailersHeld(data: Bytes)
    requires data != []
    ensures var f := Asked(StopsTwice);
            var g := f.(dec := f.dec.(s := f.dec.s.(buffer := Some(data), recv := data)));
            Link(g, DecodeTrailersEvent, HeldTrailers(data))
  {
    hide Wrap, KeepsInput, Grows;
    assert [] + [data] == [data] && [] + [Piece(data, true, Held)] == [Piece(data, true, Held)];
  }

  lemma TrailersReleased(f: FilterView)
    requires f.t.queue == [Resume(Continue)] && !f.destroyed && !f.waiting && !f.entered && LegalCalls(f.t.calls)
    requires f.dec.state.ProcessingTrailer?
    ensures Link(f, PostedEvent, OnPosted(f)) && OnPosted(f).dec == ApplyStatus(f.dec, Continue)
  {
    hide ForwardDone, DoBufferedDataGo, ContinueEncodeLocalReply, LegalCalls, KeepsInput, Grows;
    assert f.t.queue[1..] == [];
    ForwardDoneKeeps(HandleTrailer(f.dec, Continue).0, ProcessingTrailer);
  }

  /** A run on which that happens: the next filter of the request sees the stream end twice. */
  lemma EndsTwice(data: Bytes) returns (run: Run)
    requires Wrap(|data|) != 0
    ensures Valid(StopsTwice, run) && run.Last().dec.state.Done? && Ends(run.Last().dec.s.out) == 2
  {
    hide Link, Inv, ApplyStatus, Ends;
    assert data != [];
    var f := Asked(StopsTwice);
    run := Start(StopsTwice);
    HeadersShown(StopsTwice);
    run := Extend(StopsTwice, run, DecodeHeadersEvent(false), f);
    DataArrives(f, data);
    run := Extend(StopsTwice, run, DecodeDataEvent(data, false),
                  f.(dec := f.dec.(s := f.dec.s.(buffer := Some(data), recv := data))));
    TrailersHeld(data);
    run := Extend(StopsTwice, run, DecodeTrailersEvent, HeldTrailers(data));
    var f2 := HeldTrailers(data);
    GoCompletesNow(f2, Resume(Continue));
    var f3 := f2.(t := f2.t.(running := false, queue := [Resume(Continue)]));
    run := Extend(StopsTwice, run, GoCompletesEvent(Resume(Continue)), f3);
    TrailersReleased(f3);
    run := Extend(StopsTwice, run, PostedEvent, OnPosted(f3));
    AsyncTrailersEndTwice(f3.dec);
    NoFrames();
  }
}
