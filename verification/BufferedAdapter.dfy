/**
 The full-buffering adapter of pkg/http/buffered: a Go filter that stops the stream until all of it is
 there, runs an inner filter once in a goroutine of its own, and completes when that returns. Composed
 with the stream protocol it runs the inner filter exactly once per complete direction, with the whole
 body, however the body was cut into frames.
 */
module BufferedAdapter {
  import opened StreamTypes
  import opened StreamSpec
  import opened StreamRuns
  import opened StreamSafety
  import opened StreamStalls
  import opened StreamWitnesses
  import opened StreamTransparency

  // ---------- the adapter ----------

  /** One call of the inner Decode or Encode; None is Go's nil. */
  datatype InnerRun = InnerRun(header: Option<HeaderMap>, data: Option<Bytes>, trailer: Option<HeaderMap>)

  /** reqHeader and reqData (or rspHeader and rspData), and the goroutines started so far. */
  datatype Side = Side(header: Option<HeaderMap>, data: Option<Bytes>, runs: seq<InnerRun>)

  const EMPTY_SIDE := Side(None, None, [])

  /** What a callback does to the side it belongs to. */
  function SideStep(s: Side, c: GoCall): Side {
    match c.phase
    case DecodeHeader | EncodeHeader =>
      if c.end then s.(runs := s.runs + [InnerRun(c.headers, None, None)]) else s.(header := c.headers)
    case DecodeData | EncodeData =>
      if c.end then s.(runs := s.runs + [InnerRun(s.header, Some(c.bytes), None)]) else s.(data := Some(c.bytes))
    case DecodeTrailer | EncodeTrailer => s.(runs := s.runs + [InnerRun(s.header, s.data, c.headers)])
    case AllDone => s
  }

  /** The status a callback returns. */
  function AdapterAnswer(phase: Phase, end: bool): GolangStatus {
    if end || phase.DecodeTrailer? || phase.EncodeTrailer? then Running else StopAndBuffer
  }

  /** bufferedFilter, with the dispatch on the phase that calls it. */
  class BufferedFilter {
    var reqHeader: Option<HeaderMap>
    var reqData: Option<Bytes>
    var rspHeader: Option<HeaderMap>
    var rspData: Option<Bytes>
    var decodes: seq<InnerRun>
    var encodes: seq<InnerRun>

    ghost function View(d: Direction): Side
      reads this
    {
      if d.Decode? then Side(reqHeader, reqData, decodes) else Side(rspHeader, rspData, encodes)
    }

    constructor ()
      ensures View(Decode) == View(Encode) == EMPTY_SIDE
    {
      reqHeader, reqData, rspHeader, rspData, decodes, encodes := None, None, None, None, [], [];
    }

    method DecodeHeaders(header: Option<HeaderMap>, end: bool) returns (status: GolangStatus)
      modifies this
      ensures View(Encode) == old(View(Encode)) && status == AdapterAnswer(DecodeHeader, end)
      ensures View(Decode) == SideStep(old(View(Decode)), GoCall(DecodeHeader, end, [], header, status))
    {
      if end {
        decodes := decodes + [InnerRun(header, None, None)];
        return Running;
      }
      reqHeader := header;
      return StopAndBuffer;
    }

    method DecodeData(buffer: Bytes, end: bool) returns (status: GolangStatus)
      modifies this
      ensures View(Encode) == old(View(Encode)) && status == AdapterAnswer(Phase.DecodeData, end)
      ensures View(Decode) == SideStep(old(View(Decode)), GoCall(Phase.DecodeData, end, buffer, None, status))
    {
      if end {
        decodes := decodes + [InnerRun(reqHeader, Some(buffer), None)];
        return Running;
      }
      reqData := Some(buffer);
      return StopAndBuffer;
    }

    method DecodeTrailers(trailers: Option<HeaderMap>) returns (status: GolangStatus)
      modifies this
      ensures View(Encode) == old(View(Encode)) && status == AdapterAnswer(DecodeTrailer, true)
      ensures View(Decode) == SideStep(old(View(Decode)), GoCall(DecodeTrailer, true, [], trailers, status))
    {
      decodes := decodes + [InnerRun(reqHeader, reqData, trailers)];
      return Running;
    }

    method EncodeHeaders(header: Option<HeaderMap>, end: bool) returns (status: GolangStatus)
      modifies this
      ensures View(Decode) == old(View(Decode)) && status == AdapterAnswer(EncodeHeader, end)
      ensures View(Encode) == SideStep(old(View(Encode)), GoCall(EncodeHeader, end, [], header, status))
    {
      if end {
        encodes := encodes + [InnerRun(header, None, None)];
        return Running;
      }
      rspHeader := header;
      return StopAndBuffer;
    }

    method EncodeData(buffer: Bytes, end: bool) returns (status: GolangStatus)
      modifies this
      ensures View(Decode) == old(View(Decode)) && status == AdapterAnswer(Phase.EncodeData, end)
      ensures View(Encode) == SideStep(old(View(Encode)), GoCall(Phase.EncodeData, end, buffer, None, status))
    {
      if end {
        encodes := encodes + [InnerRun(rspHeader, Some(buffer), None)];
        return Running;
      }
      rspData := Some(buffer);
      return StopAndBuffer;
    }

    method EncodeTrailers(trailers: Option<HeaderMap>) returns (status: GolangStatus)
      modifies this
      ensures View(Decode) == old(View(Decode)) && status == AdapterAnswer(EncodeTrailer, true)
      ensures View(Encode) == SideStep(old(View(Encode)), GoCall(EncodeTrailer, true, [], trailers, status))
    {
      encodes := encodes + [InnerRun(rspHeader, rspData, trailers)];
      return Running;
    }

    /** moeOnHttpHeader and moeOnHttpData: the phase picks the callback. */
    method Dispatch(phase: Phase, end: bool, bytes: Bytes, headers: Option<HeaderMap>) returns (status: GolangStatus)
      requires !phase.AllDone? && (phase.DecodeTrailer? || phase.EncodeTrailer? ==> end)
      modifies this
      ensures status == AdapterAnswer(phase, end)
      ensures forall d: Direction :: View(d) ==
                if InDirection(phase, d) then SideStep(old(View(d)), GoCall(phase, end, bytes, headers, status))
                else old(View(d))
    {
      match phase
      case DecodeHeader => status := DecodeHeaders(headers, end);
      case DecodeData => status := DecodeData(bytes, end);
      case DecodeTrailer => status := DecodeTrailers(headers);
      case EncodeHeader => status := EncodeHeaders(headers, end);
      case EncodeData => status := EncodeData(bytes, end);
      case EncodeTrailer => status := EncodeTrailers(headers);
    }
  }

  // ---------- the calls of one direction ----------

  /** The calls into Go that belong to a direction. */
  ghost function CallsOf(calls: seq<GoCall>, d: Direction): seq<GoCall> {
    if calls == [] then []
    else
      var init, last := calls[..|calls| - 1], calls[|calls| - 1];
      if InDirection(last.phase, d) then CallsOf(init, d) + [last] else CallsOf(init, d)
  }

  lemma CallsOfSnoc(calls: seq<GoCall>, c: GoCall, d: Direction)
    ensures CallsOf(calls + [c], d) == if InDirection(c.phase, d) then CallsOf(calls, d) + [c] else CallsOf(calls, d)
  {
    assert (calls + [c])[..|calls|] == calls;
  }

  /** The state the adapter is in after its callbacks. */
  ghost function SideOf(calls: seq<GoCall>): Side {
    if calls == [] then EMPTY_SIDE else SideStep(SideOf(calls[..|calls| - 1]), calls[|calls| - 1])
  }

  lemma SideOfSnoc(calls: seq<GoCall>, c: GoCall)
    ensures SideOf(calls + [c]) == SideStep(SideOf(calls), c)
  {
    assert (calls + [c])[..|calls|] == calls;
  }

  /** Every answer is the adapter's. */
  ghost predicate AdapterCalls(calls: seq<GoCall>) {
    forall i :: 0 <= i < |calls| ==> calls[i].answer == AdapterAnswer(calls[i].phase, calls[i].end)
  }

  /**
   Runs of the adapter: its goroutine completes with Continue, or, when the inner filter panics, with a
   local reply.
   */
  predicate AdapterEvent(e: Event) {
    e.GoCompletesEvent? ==> e.completion == Resume(Continue) || e.completion == Reply
  }

  ghost predicate AdapterLink(f: FilterView, e: Event, g: FilterView) {
    AdapterEvent(e) && AdapterCalls(g.t.calls)
  }

  ghost predicate AdapterRun(run: Run)
    requires run.Shaped()
  {
    forall i {:trigger run.events[i], run.states[i]} :: 0 <= i < |run.events| ==>
      AdapterLink(run.states[i], run.events[i], run.states[i + 1])
  }

  lemma DropLastAdapter(run: Run)
    requires run.Shaped() && AdapterRun(run) && run.events != []
    ensures AdapterRun(run.Before()) && AdapterLink(run.Before().Last(), run.LastEvent(), run.Last())
  {
    hide AdapterLink;
    var n := |run.events| - 1;
    assert run.events[n] == run.LastEvent();
    forall i | 0 <= i < n
      ensures AdapterLink(run.Before().states[i], run.Before().events[i], run.Before().states[i + 1])
    {
      assert run.events[i] == run.Before().events[i];
    }
  }

  // ---------- the invariant ----------

  function HeaderCall(d: Direction, end: bool): GoCall {
    GoCall(PhaseOf(d, ProcessingHeader), end, [], Some(HeadersOf(d)), AdapterAnswer(PhaseOf(d, ProcessingHeader), end))
  }

  function DataCall(d: Direction, bytes: Bytes, end: bool): GoCall {
    GoCall(PhaseOf(d, ProcessingData), end, bytes, None, AdapterAnswer(PhaseOf(d, ProcessingData), end))
  }

  function TrailerCall(d: Direction): GoCall {
    GoCall(PhaseOf(d, ProcessingTrailer), true, [], Some(TrailersOf(d)), Running)
  }

  /** The three ways a complete direction reaches the adapter. */
  ghost predicate Bare(p: ProcView, d: Direction, cs: seq<GoCall>) {
    p.endStream && !p.seenTrailers && p.s.recv == [] && cs == [HeaderCall(d, true)]
  }

  ghost predicate WithBody(p: ProcView, d: Direction, cs: seq<GoCall>) {
    p.endStream && !p.seenTrailers && cs == [HeaderCall(d, false), DataCall(d, p.s.recv, true)]
  }

  ghost predicate WithTrailers(p: ProcView, d: Direction, cs: seq<GoCall>) {
    && p.seenTrailers && p.s.recv != []
    && cs == [HeaderCall(d, false), DataCall(d, p.s.recv, false), TrailerCall(d)]
  }

  ghost predicate Delivered(p: ProcView, d: Direction, cs: seq<GoCall>) {
    Bare(p, d, cs) || WithBody(p, d, cs) || WithTrailers(p, d, cs)
  }

  /**
   Which calls a direction has made, by its state. Two states are stuck: trailers came before any body
   byte, or the trailers of a response were parked with it.
   */
  ghost predicate Served(p: ProcView, d: Direction, cs: seq<GoCall>) {
    match p.state
    case WaitingHeader => if p.replied then Delivered(p, d, cs) else cs == []
    case WaitingAllData => cs == [HeaderCall(d, false)] && !p.endStream && (p.seenTrailers ==> p.s.recv == [])
    case WaitingTrailer =>
      d.Encode? && p.seenTrailers && !p.endStream && cs == [HeaderCall(d, false), DataCall(d, p.s.recv, false)]
    case ProcessingHeader => Bare(p, d, cs) && p.doEndStream
    case ProcessingData => WithBody(p, d, cs) && p.doEndStream
    case ProcessingTrailer => WithTrailers(p, d, cs) && p.doEndStream && !p.endStream
    case Done => Delivered(p, d, cs)
    case _ => false
  }

  /** What the next filter gets of a direction the adapter let go. */
  function Sent(cs: seq<GoCall>, body: Bytes): seq<Frame> {
    if |cs| == 1 then [Headers(true)]
    else if |cs| == 2 then [Headers(false), Data(body, true)]
    else if Wrap(|body|) == 0 then [Headers(false), Trailers]
    else [Headers(false), Data(body, true), Trailers]
  }

  /** Where the bytes are, as long as no response cuts the direction short. */
  ghost predicate Holding(p: ProcView, cs: seq<GoCall>) {
    match p.state
    case WaitingAllData => p.s.recv == p.s.Buffered() && p.s.list == EMPTY_LIST && p.s.out == []
    case ProcessingHeader => p.s.list == EMPTY_LIST && p.s.out == []
    case ProcessingData | WaitingTrailer | ProcessingTrailer =>
      p.s.list == ListView([p.s.recv], Wrap(|p.s.recv|)) && p.s.out == []
    case Done => p.s.out == Sent(cs, p.s.recv)
    case _ => true
  }

  /** One direction of the adapter between two events. */
  ghost predicate Buffering(l: Lane) {
    Served(l.p, l.d, CallsOf(l.t.calls, l.d)) && (l.p.replied || Holding(l.p, CallsOf(l.t.calls, l.d)))
  }

  // ---------- the handlers of one direction ----------

  lemma LastAnswer(calls: seq<GoCall>, n: nat)
    requires AdapterCalls(calls) && n < |calls|
    ensures calls[n].answer == AdapterAnswer(calls[n].phase, calls[n].end)
  {
  }

  /** A direction's own call is added to its calls, and to no others. */
  lemma CallsOfCallGo(t: Traffic, d: Direction, state: FilterState, end: bool, bytes: Bytes, m: Option<HeaderMap>)
    requires !state.Done?
    ensures var c := GoCall(PhaseOf(d, state), end, bytes, m, Answer(t));
            var calls := CallGo(t, PhaseOf(d, state), end, bytes, m).calls;
            && CallsOf(calls, d) == CallsOf(t.calls, d) + [c]
            && forall o: Direction :: o != d ==> CallsOf(calls, o) == CallsOf(t.calls, o)
  {
    var c := GoCall(PhaseOf(d, state), end, bytes, m, Answer(t));
    forall o: Direction
      ensures CallsOf(t.calls + [c], o) == if o == d then CallsOf(t.calls, o) + [c] else CallsOf(t.calls, o)
    {
      CallsOfSnoc(t.calls, c, o);
    }
  }

  /** The calls of the other direction and the queue are not touched. */
  ghost predicate Apart(l: Lane, g: Lane) {
    && g.d == l.d && g.t.queue == l.t.queue && g.p.started == l.p.started
    && forall o: Direction :: o != l.d ==> CallsOf(g.t.calls, o) == CallsOf(l.t.calls, o)
  }

  lemma HeadersBuffer(l: Lane, end: bool)
    requires l.p == INIT_PROC.(started := true, endStream := end) && CallsOf(l.t.calls, l.d) == []
    requires AdapterCalls(DoHeaders(l, HeadersOf(l.d), end).0.t.calls)
    ensures var (g, done) := DoHeaders(l, HeadersOf(l.d), end);
            !done && Buffering(g) && Apart(l, g) && !g.p.state.WaitingHeader? && !g.p.state.WaitingTrailer?
  {
    hide CallsOf, Sent, Grows, KeepsInput;
    LastAnswer(DoHeaders(l, HeadersOf(l.d), end).0.t.calls, |l.t.calls|);
    CallsOfCallGo(l.t, l.d, ProcessingHeader, end, [], Some(HeadersOf(l.d)));
    assert [] + [HeaderCall(l.d, end)] == [HeaderCall(l.d, end)];
  }

  /** The whole body enters Go in one call, and the adapter takes it. */
  lemma WholeBodyGo(l: Lane, body: Bytes)
    requires l.p.state.WaitingAllData? && CallsOf(l.t.calls, l.d) == [HeaderCall(l.d, false)]
    requires body == l.p.s.recv && l.p.s.list == EMPTY_LIST && l.p.s.out == []
    requires l.p.endStream && !l.p.seenTrailers && !l.p.replied
    requires AdapterCalls(DoDataGo(l, body, true).0.t.calls)
    ensures var (g, done) := DoDataGo(l, body, true);
            !done && Buffering(g) && Apart(l, g) && g.p.state.ProcessingData? && g.p.endStream
  {
    hide CallsOf, Sent, Grows, KeepsInput, Wrap;
    LastAnswer(DoDataGo(l, body, true).0.t.calls, |l.t.calls|);
    CallsOfCallGo(l.t, l.d, ProcessingData, true, body, None);
    assert [HeaderCall(l.d, false)] + [DataCall(l.d, body, true)]
        == [HeaderCall(l.d, false), DataCall(l.d, body, true)];
    assert [] + [body] == [body];
  }

  lemma DataBuffers(l: Lane, data: Bytes, end: bool)
    requires Buffering(l) && l.p.state.WaitingAllData? && !l.p.replied && !l.p.StreamEnd()
    requires AdapterCalls(DoData(l.(p := Received(l.p, data, end)), data, end).0.t.calls)
    ensures var (g, done) := DoData(l.(p := Received(l.p, data, end)), data, end);
            !done && Buffering(g) && Apart(l, g) && (g.p.state.WaitingAllData? || g.p.state.ProcessingData?)
  {
    hide CallsOf, Sent, Grows, KeepsInput, DoDataGo;
    var p := Received(l.p, data, end);
    if end {
      if p.s.BufferEmpty() {
        assert [] + data == data;
        WholeBodyGo(l.(p := p), data);
      } else {
        WholeBodyGo(l.(p := p.(s := p.s.TakeBuffer())), p.s.Buffered() + data);
      }
    }
  }

  /** Ahead of trailers the body enters Go without an end, and the adapter keeps it. */
  lemma KeptBodyGo(l: Lane)
    requires l.p.state.WaitingAllData? && CallsOf(l.t.calls, l.d) == [HeaderCall(l.d, false)]
    requires l.p.s.buffer == Some(l.p.s.recv) && l.p.s.list == EMPTY_LIST && l.p.s.out == []
    requires l.p.seenTrailers && !l.p.endStream && !l.p.replied
    requires AdapterCalls(DoBufferedDataGo(l, false).0.t.calls)
    ensures var (g, done) := DoBufferedDataGo(l, false);
            && !done && Apart(l, g) && g.t.running == l.t.running && g.p.s.BufferEmpty() && g.p.fault == l.p.fault
            && CallsOf(g.t.calls, l.d) == [HeaderCall(l.d, false), DataCall(l.d, l.p.s.recv, false)]
            && g.p.state.WaitingTrailer? && g.p.s.list == ListView([l.p.s.recv], Wrap(|l.p.s.recv|)) && g.p.s.out == []
            && g.p.s.recv == l.p.s.recv && g.p.seenTrailers && !g.p.endStream && !g.p.replied
  {
    hide CallsOf, Sent, Grows, KeepsInput, Wrap;
    LastAnswer(DoBufferedDataGo(l, false).0.t.calls, |l.t.calls|);
    CallsOfCallGo(l.t, l.d, ProcessingData, false, l.p.s.recv, None);
    assert [HeaderCall(l.d, false)] + [DataCall(l.d, l.p.s.recv, false)]
        == [HeaderCall(l.d, false), DataCall(l.d, l.p.s.recv, false)];
    assert [] + [l.p.s.recv] == [l.p.s.recv];
  }

  lemma KeptTrailersGo(l: Lane)
    requires l.p.state.WaitingTrailer? && l.p.s.list == ListView([l.p.s.recv], Wrap(|l.p.s.recv|)) && l.p.s.out == []
    requires CallsOf(l.t.calls, l.d) == [HeaderCall(l.d, false), DataCall(l.d, l.p.s.recv, false)]
    requires l.p.seenTrailers && !l.p.endStream && !l.p.replied && l.p.s.recv != []
    requires AdapterCalls(DoTrailerGo(l, TrailersOf(l.d)).0.t.calls)
    ensures var (g, done) := DoTrailerGo(l, TrailersOf(l.d));
            !done && Buffering(g) && Apart(l, g) && g.p.state.ProcessingTrailer?
  {
    hide CallsOf, Sent, Grows, KeepsInput, Wrap;
    LastAnswer(DoTrailerGo(l, TrailersOf(l.d)).0.t.calls, |l.t.calls|);
    CallsOfCallGo(l.t, l.d, ProcessingTrailer, true, [], Some(TrailersOf(l.d)));
    assert [HeaderCall(l.d, false), DataCall(l.d, l.p.s.recv, false)] + [TrailerCall(l.d)]
        == [HeaderCall(l.d, false), DataCall(l.d, l.p.s.recv, false), TrailerCall(l.d)];
  }

  lemma AllDataTrailerCalls(l: Lane, m: HeaderMap)
    requires !l.p.s.BufferEmpty()
    ensures DoBufferedDataGo(l, false).0.t.calls <= DoAllDataTrailerGo(l, m).0.t.calls
  {
    hide DoBufferedDataGo, DoTrailerGo;
  }

  lemma PrefixAnswers(some: seq<GoCall>, all: seq<GoCall>)
    requires AdapterCalls(all) && some <= all
    ensures AdapterCalls(some)
  {
  }

  /** Trailers: the body enters Go, the adapter keeps it, and the trailers follow. */
  lemma TrailersBuffer(l: Lane)
    requires Buffering(l) && l.p.state.WaitingAllData? && !l.p.replied && !l.p.StreamEnd() && l.p.s.recv != []
    requires AdapterCalls(DoTrailer(l.(p := l.p.(seenTrailers := true)), TrailersOf(l.d)).0.t.calls)
    ensures var (g, done) := DoTrailer(l.(p := l.p.(seenTrailers := true)), TrailersOf(l.d));
            !done && Buffering(g) && Apart(l, g) && g.p.state.ProcessingTrailer?
  {
    hide CallsOf, Sent, Grows, KeepsInput, DoBufferedDataGo, DoTrailerGo, AdapterCalls;
    var p := l.p.(seenTrailers := true);
    var l1 := Lane(l.d, p.Check(!p.endStream && !p.doEndStream), l.t.(trailers := Some(TrailersOf(l.d))));
    AllDataTrailerCalls(l1, TrailersOf(l.d));
    PrefixAnswers(DoBufferedDataGo(l1, false).0.t.calls, DoAllDataTrailerGo(l1, TrailersOf(l.d)).0.t.calls);
    KeptBodyGo(l1);
    KeptTrailersGo(DoBufferedDataGo(l1, false).0);
  }

  /** Trailers before any body byte: the adapter goes on waiting for one. */
  lemma BodilessTrailers(l: Lane)
    requires Buffering(l) && l.p.state.WaitingAllData? && !l.p.replied && !l.p.StreamEnd() && l.p.s.recv == []
    ensures var (g, done) := DoTrailer(l.(p := l.p.(seenTrailers := true)), TrailersOf(l.d));
            !done && Buffering(g) && Apart(l, g) && g.p.state.WaitingAllData?
  {
    hide CallsOf, Sent, Grows, KeepsInput, DoBufferedDataGo, DoTrailerGo, AdapterCalls;
  }

  ghost predicate LetGo(p: ProcView, q: ProcView, out: seq<Frame>) {
    && q.state.Done? && q.s.out == out && q.s.recv == p.s.recv
    && q.endStream == p.endStream && q.seenTrailers == p.seenTrailers
    && q.replied == p.replied && q.started == p.started
  }

  lemma HeadersLetGo(p: ProcView)
    requires p.state.ProcessingHeader? && p.doEndStream && p.endStream && !p.seenTrailers && p.s.out == []
    ensures LetGo(p, ApplyStatus(p, Continue), [Headers(true)])
  {
    hide KeepsInput;
    assert [] + [Headers(true)] == [Headers(true)];
  }

  /** The list, holding one chunk, leaves in one frame. */
  lemma ListLetGo(s: Store, body: Bytes)
    requires s.list.queue == [body] && s.out == []
    ensures s.SendList(true).out == [Headers(false), Data(body, true)] && s.SendList(true).recv == s.recv
  {
    FlatSnoc([], body);
    assert [] + [body] == [body] && [] + body == body;
    assert [Headers(false)] + [Data(body, true)] == [Headers(false), Data(body, true)];
  }

  lemma BodyLetGo(p: ProcView)
    requires p.state.ProcessingData? && p.doEndStream && p.endStream && !p.seenTrailers
    requires p.s.list.queue == [p.s.recv] && p.s.out == []
    ensures LetGo(p, ApplyStatus(p, Continue), [Headers(false), Data(p.s.recv, true)])
  {
    hide KeepsInput, Store.SendList;
    ListLetGo(p.s, p.s.recv);
  }

  lemma TrailersLetGo(p: ProcView)
    requires p.state.ProcessingTrailer? && p.doEndStream && !p.endStream && p.seenTrailers
    requires p.s.list == ListView([p.s.recv], Wrap(|p.s.recv|)) && p.s.out == []
    ensures LetGo(p, ApplyStatus(p, Continue),
                  if Wrap(|p.s.recv|) == 0 then [Headers(false), Trailers]
                  else [Headers(false), Data(p.s.recv, true), Trailers])
  {
    hide KeepsInput, Store.SendList, Wrap;
    ListLetGo(p.s, p.s.recv);
    var body := p.s.recv;
    assert [Headers(false), Data(body, true)] + [Trailers] == [Headers(false), Data(body, true), Trailers];
    assert [Headers(false)] + [Trailers] == [Headers(false), Trailers] && [] + [Headers(false)] == [Headers(false)];
  }

  /** The goroutine of the adapter returns: the direction is over, and all of it is passed on. */
  lemma ContinueBuffered(l: Lane)
    requires Buffering(l) && !l.p.replied && l.p.ProcessingInGo()
    ensures var g := ContinueStream(l, Continue);
            && g.t == l.t && g.d == l.d && Buffering(g) && g.p.state.Done? && !g.p.replied && g.p.started == l.p.started
  {
    hide CallsOf, Wrap, Grows, KeepsInput, ApplyStatus;
    match l.p.state {
      case ProcessingHeader => HeadersLetGo(l.p);
      case ProcessingData => BodyLetGo(l.p);
      case ProcessingTrailer => TrailersLetGo(l.p);
    }
  }

  // ---------- the invariant of the filter ----------

  /** The request: served by its state, and with its bytes in place unless a response cut it short. */
  ghost predicate RequestSide(f: FilterView) {
    && Served(f.dec, Decode, CallsOf(f.t.calls, Decode))
    && (f.dec.state.WaitingHeader? && !f.dec.replied ==> !f.dec.started && !f.dec.StreamEnd())
    && (f.dec.replied || (f.enc.started && !f.dec.state.Done?) || Holding(f.dec, CallsOf(f.t.calls, Decode)))
  }

  ghost predicate ResponseSide(f: FilterView) {
    && Buffering(f.At(Encode))
    && (f.enc.state.WaitingHeader? && !f.enc.replied <==> f.waiting || !f.enc.started)
    && (!f.enc.started ==> !f.enc.StreamEnd())
    && (f.enc.state.WaitingTrailer? ==> f.localTrailers.Some?)
    && (f.localTrailers.Some? ==> f.enc.seenTrailers && |CallsOf(f.t.calls, Encode)| <= 2)
  }

  ghost predicate AdapterQueue(queue: seq<Completion>) {
    forall i :: 0 <= i < |queue| ==> queue[i] == Resume(Continue) || queue[i] == Reply
  }

  ghost predicate AdapterInv(f: FilterView) {
    RequestSide(f) && ResponseSide(f) && AdapterQueue(f.t.queue)
  }

  lemma FirstHeadersBuffer(f: FilterView, end: bool)
    requires Inv(f) && !f.destroyed && AdapterInv(f) && Enabled(f, DecodeHeadersEvent(end))
    requires AdapterCalls(OnDecodeHeaders(f, end).t.calls)
    ensures AdapterInv(OnDecodeHeaders(f, end))
  {
    hide CallsOf, Sent, Grows, KeepsInput, DoHeaders, AdapterCalls;
    NotStarted(f);
    NotBegun(f);
    var l := Lane(Decode, f.dec.(endStream := end, started := true), f.t);
    assert CallsOf(l.t.calls, l.d) == [];
    HeadersBuffer(l, end);
  }

  lemma ResponseBuffers(f: FilterView, end: bool)
    requires f.enc == INIT_PROC.(started := true, endStream := end) && !f.waiting && f.localTrailers.None?
    requires CallsOf(f.t.calls, Encode) == [] && RequestSide(f) && AdapterQueue(f.t.queue)
    requires AdapterCalls(EnterEncoding(f, end).t.calls)
    ensures AdapterInv(EnterEncoding(f, end))
  {
    hide CallsOf, Sent, Grows, KeepsInput, DoHeaders, AdapterCalls, Holding;
    HeadersBuffer(f.At(Encode), end);
    var g := DoHeaders(f.At(Encode), ResponseHeaders, end).0;
    assert CallsOf(g.t.calls, Decode) == CallsOf(f.t.calls, Decode);
  }

  lemma ResponseStartBuffers(f: FilterView, end: bool)
    requires Inv(f) && !f.destroyed && AdapterInv(f) && !f.enc.started
    requires AdapterCalls(OnEncodeHeaders(f, end).t.calls)
    ensures AdapterInv(OnEncodeHeaders(f, end))
  {
    hide CallsOf, Sent, EnterEncoding, AdapterCalls;
    NotStarted(f);
    var g := f.(enc := f.enc.(endStream := end, started := true));
    if f.dec.state.Done? {
      ResponseBuffers(g, end);
    } else if !f.dec.ProcessingInGo() {
      ResponseBuffers(Abandon(g), end);
    }
  }

  lemma RequestFrameBuffers(f: FilterView, e: Event)
    requires !f.enc.started && AdapterInv(f) && Enabled(f, e) && AdapterEvent(e)
    requires e.DecodeDataEvent? || e.DecodeTrailersEvent?
    requires AdapterCalls(Step(f, e).t.calls)
    ensures AdapterInv(Step(f, e))
  {
    hide CallsOf, Sent, KeepsInput, DoData, DoTrailer, AdapterCalls;
    assert f.dec.state.WaitingAllData?;
    if e.DecodeDataEvent? {
      DataBuffers(f.At(Decode), e.data, e.end);
    } else if f.dec.s.recv == [] {
      BodilessTrailers(f.At(Decode));
    } else {
      TrailersBuffer(f.At(Decode));
    }
  }

  lemma ResponseFrameBuffers(f: FilterView, e: Event)
    requires Inv(f) && f.enc.started && AdapterInv(f) && Enabled(f, e) && AdapterEvent(e)
    requires e.EncodeDataEvent? || e.EncodeTrailersEvent?
    requires AdapterCalls(Step(f, e).t.calls)
    ensures AdapterInv(Step(f, e))
  {
    hide CallsOf, Sent, KeepsInput, DoData, DoTrailer, AdapterCalls, Inv;
    if f.waiting {
    } else if e.EncodeDataEvent? {
      DataBuffers(f.At(Encode), e.data, e.end);
    } else if f.enc.s.recv == [] {
      BodilessTrailers(f.At(Encode));
    } else {
      TrailersBuffer(f.At(Encode));
    }
  }

  // ---------- completions ----------

  /** A parked response without trailers, as the filter is released. */
  ghost predicate Released(f: FilterView) {
    && f.localHeaders == Some(ResponseHeaders) && f.localTrailers.None?
    && CallsOf(f.t.calls, Encode) == []
    && f.enc == INIT_PROC.(started := true, endStream := f.enc.endStream,
                           s := INIT_STORE.(buffer := f.enc.s.buffer, recv := f.enc.s.Buffered()))
  }

  lemma ParkedHeadersGo(f: FilterView)
    requires Released(f) && AdapterCalls(EncodeParkedHeaders(f).t.calls)
    ensures var l := EncodeParkedHeaders(f);
            var end := f.enc.endStream && f.enc.s.BufferEmpty();
            && l.d == Encode && l.p == f.enc.(state := ProcessingHeader, doEndStream := end) && l.t.queue == f.t.queue
            && CallsOf(l.t.calls, Encode) == [HeaderCall(Encode, end)]
            && CallsOf(l.t.calls, Decode) == CallsOf(f.t.calls, Decode)
            && Answer(f.t) == AdapterAnswer(EncodeHeader, end)
  {
    hide CallsOf, Sent, Grows, KeepsInput;
    var end := f.enc.endStream && f.enc.s.BufferEmpty();
    LastAnswer(EncodeParkedHeaders(f).t.calls, |f.t.calls|);
    var t := f.t.(hasReq := true, headers := Some(ResponseHeaders));
    CallsOfCallGo(t, Encode, ProcessingHeader, end, [], Some(ResponseHeaders));
    assert [] + [HeaderCall(Encode, end)] == [HeaderCall(Encode, end)];
  }

  /** Go stops the released headers; what was parked behind them goes on, whole, if the response is over. */
  lemma ParkedBodyGo(l: Lane)
    requires l.p == INIT_PROC.(state := ProcessingHeader, started := true, endStream := l.p.endStream,
                               s := INIT_STORE.(buffer := l.p.s.buffer, recv := l.p.s.Buffered()))
    requires l.p.endStream ==> l.p.s.buffer.Some?
    requires CallsOf(l.t.calls, l.d) == [HeaderCall(l.d, false)]
    requires AdapterCalls(ContinueStream(l, StopAndBuffer).t.calls)
    ensures var g := ContinueStream(l, StopAndBuffer);
            && Buffering(g) && Apart(l, g) && (g.p.state.WaitingAllData? || g.p.state.ProcessingData?)
            && g.p.endStream == l.p.endStream && !g.p.seenTrailers
  {
    hide CallsOf, Sent, Grows, KeepsInput, DoDataGo, Wrap;
    var l1 := l.(p := l.p.(state := WaitingAllData));
    assert ApplyStatus(l.p, StopAndBuffer) == l1.p;
    if l.p.endStream {
      ResumeDataCalls(l, StopAndBuffer);
      PrefixAnswers(ResumeData(l1).0.t.calls, ContinueStream(l, StopAndBuffer).t.calls);
      WholeBodyGo(l1.(p := l1.p.(s := l1.p.s.TakeBuffer())), l.p.s.buffer.value);
    }
  }

  lemma ResumeDataCalls(l: Lane, status: GolangStatus)
    ensures ResumeData(l.(p := ApplyStatus(l.p, status))).0.t.calls <= ContinueStream(l, status).t.calls
  {
    hide ApplyStatus, ResumeData, ResumeTrailers;
  }

  lemma RunningKeeps(l: Lane)
    requires l.p.state.ProcessingHeader? && !l.p.fault
    ensures ContinueStream(l, Running) == l
  {
  }

  lemma ReleaseBuffers(f: FilterView)
    requires Released(f) && !f.waiting && RequestSide(f) && AdapterQueue(f.t.queue) && !f.dec.state.Done?
    requires AdapterCalls(f.After(ContinueStream(EncodeParkedHeaders(f), Answer(f.t))).t.calls)
    ensures var g := ContinueStream(EncodeParkedHeaders(f), Answer(f.t));
            AdapterInv(f.After(g)) && g.d == Encode && g.p.endStream == f.enc.endStream
  {
    hide CallsOf, Sent, KeepsInput, EncodeParkedHeaders, ContinueStream, AdapterCalls;
    var l := EncodeParkedHeaders(f);
    var g := ContinueStream(l, Answer(f.t));
    PrefixAnswers(l.t.calls, g.t.calls);
    ParkedHeadersGo(f);
    if f.enc.endStream && f.enc.s.BufferEmpty() {
      RunningKeeps(l);
      assert Buffering(g);
    } else {
      ParkedBodyGo(l);
    }
  }

  lemma StrandedHeadersGo(h: FilterView)
    requires h.localHeaders == Some(ResponseHeaders) && h.localTrailers == Some(ResponseTrailers)
    requires CallsOf(h.t.calls, Encode) == [] && !h.t.running
    requires AdapterCalls(EncodeParkedHeaders(h).t.calls)
    ensures var l := EncodeParkedHeaders(h);
            && l.d == Encode && l.p == h.enc.(state := ProcessingHeader, doEndStream := false, fault := l.p.fault)
            && (h.enc.state.WaitingHeader? ==> l.p.fault == h.enc.fault)
            && l.t.queue == h.t.queue && !l.t.running
            && CallsOf(l.t.calls, Encode) == [HeaderCall(Encode, false)] && Answer(h.t) == StopAndBuffer
            && CallsOf(l.t.calls, Decode) == CallsOf(h.t.calls, Decode)
  {
    hide CallsOf, Sent, Grows, KeepsInput;
    LastAnswer(EncodeParkedHeaders(h).t.calls, |h.t.calls|);
    var t := h.t.(trailers := h.localTrailers, hasReq := true, headers := Some(ResponseHeaders));
    CallsOfCallGo(t, Encode, ProcessingHeader, false, [], Some(ResponseHeaders));
    assert [] + [HeaderCall(Encode, false)] == [HeaderCall(Encode, false)];
  }

  lemma StreamGrows(l: Lane, status: GolangStatus)
    ensures l.t.calls <= ContinueStream(l, status).t.calls && ContinueStream(l, status).d == l.d
  {
    hide ContinueStream;
  }

  /** The headers of a response whose trailers are parked too are stopped; the body is shown, and kept. */
  lemma StrandedResponse(h: FilterView)
    requires h.localHeaders == Some(ResponseHeaders) && h.localTrailers == Some(ResponseTrailers)
    requires CallsOf(h.t.calls, Encode) == [] && Quiet(h.t) && h.enc.s.buffer.Some?
    requires h.enc == INIT_PROC.(started := true, seenTrailers := true,
                                 s := INIT_STORE.(buffer := h.enc.s.buffer, recv := h.enc.s.Buffered()))
    requires AdapterCalls(ContinueStream(EncodeParkedHeaders(h), Answer(h.t)).t.calls)
    ensures var g := ContinueStream(EncodeParkedHeaders(h), Answer(h.t));
            && g.d == Encode && StuckOnTrailers(g.p) && Quiet(g.t) && g.p.s.out == [] && !g.p.fault
            && g.p.state.WaitingTrailer? && Buffering(g) && g.p.seenTrailers && !g.p.endStream && !g.p.replied
            && g.p.started
            && CallsOf(g.t.calls, Encode) == [HeaderCall(Encode, false), DataCall(Encode, h.enc.s.recv, false)]
            && CallsOf(g.t.calls, Decode) == CallsOf(h.t.calls, Decode)
  {
    hide CallsOf, SideOf, KeepsInput, Wrap, EncodeParkedHeaders, DoBufferedDataGo, AdapterCalls, Grows;
    var l := EncodeParkedHeaders(h);
    StreamGrows(l, Answer(h.t));
    PrefixAnswers(l.t.calls, ContinueStream(l, Answer(h.t)).t.calls);
    StrandedHeadersGo(h);
    var l1 := l.(p := l.p.(state := WaitingAllData));
    assert ApplyStatus(l.p, StopAndBuffer) == l1.p;
    ResumeDataCalls(l, StopAndBuffer);
    PrefixAnswers(ResumeData(l1).0.t.calls, ContinueStream(l, StopAndBuffer).t.calls);
    KeptBodyGo(l1);
  }

  lemma ReleaseStops(h: FilterView)
    requires h.localHeaders == Some(ResponseHeaders) && h.localTrailers == Some(ResponseTrailers)
    requires CallsOf(h.t.calls, Encode) == [] && Quiet(h.t) && h.enc.s.buffer.Some?
    requires h.enc == INIT_PROC.(started := true, seenTrailers := true,
                                 s := INIT_STORE.(buffer := h.enc.s.buffer, recv := h.enc.s.Buffered()))
    requires !h.waiting && RequestSide(h) && !h.dec.state.Done?
    requires AdapterCalls(h.After(ContinueStream(EncodeParkedHeaders(h), Answer(h.t))).t.calls)
    ensures AdapterInv(h.After(ContinueStream(EncodeParkedHeaders(h), Answer(h.t))))
  {
    hide CallsOf, Sent, KeepsInput, EncodeParkedHeaders, ContinueStream, AdapterCalls, StuckOnTrailers;
    StrandedResponse(h);
    var g := ContinueStream(EncodeParkedHeaders(h), Answer(h.t));
  }

  lemma PostedBuffers(f: FilterView)
    requires Sound(f) && f.t.queue != [] && AdapterInv(f) && !NullBody(f, PostedEvent) && !f.destroyed
    requires AdapterCalls(OnPosted(f).t.calls)
    ensures AdapterInv(OnPosted(f))
  {
    if f.waiting { ParkedBuffers(f); } else { HeldBuffers(f); }
  }

  lemma ParkedBuffers(f: FilterView)
    requires Sound(f) && f.t.queue != [] && AdapterInv(f) && !NullBody(f, PostedEvent) && !f.destroyed && f.waiting
    requires AdapterCalls(OnPosted(f).t.calls)
    ensures AdapterInv(OnPosted(f))
  {
    hide CallsOf, Sent, KeepsInput, EncodeParkedHeaders, ContinueStream, AdapterCalls, Grows;
    PostedIsHeld(f);
    assert f.t.queue[1..] == [];
    var g := f.(t := f.t.(queue := []));
    if f.enc.seenTrailers {
      StoppedAnswer(Release(g));
      ReleaseStops(Release(g));
    } else {
      ReleaseBuffers(Release(g));
    }
  }

  lemma HeldBuffers(f: FilterView)
    requires Sound(f) && f.t.queue != [] && AdapterInv(f) && !f.destroyed && !f.waiting
    requires AdapterCalls(OnPosted(f).t.calls)
    ensures AdapterInv(OnPosted(f))
  {
    hide CallsOf, Sent, KeepsInput, ContinueStream, AdapterCalls, Grows;
    PostedIsHeld(f);
    assert f.t.queue[1..] == [];
    var g := f.(t := f.t.(queue := []));
    HeldIsWhole(f);
    if f.t.queue[0].Resume? {
      ContinueBuffered(g.At(g.Cur()));
    }
  }

  lemma StoppedAnswer(h: FilterView)
    requires h.localHeaders == Some(ResponseHeaders) && h.localTrailers == Some(ResponseTrailers)
    requires CallsOf(h.t.calls, Encode) == [] && !h.t.running
    requires AdapterCalls(ContinueStream(EncodeParkedHeaders(h), Answer(h.t)).t.calls)
    ensures Answer(h.t) == StopAndBuffer
  {
    hide ContinueStream, EncodeParkedHeaders, CallsOf, AdapterCalls;
    StreamGrows(EncodeParkedHeaders(h), Answer(h.t));
    PrefixAnswers(EncodeParkedHeaders(h).t.calls, ContinueStream(EncodeParkedHeaders(h), Answer(h.t)).t.calls);
    StrandedHeadersGo(h);
  }

  /** A direction Go holds, with no response parked, has its bytes in place. */
  lemma HeldIsWhole(f: FilterView)
    requires AdapterInv(f) && f.t.queue != [] && !f.waiting && Steady(Unpost(f))
    ensures Buffering(f.At(f.Cur())) && f.P(f.Cur()).ProcessingInGo() && !f.P(f.Cur()).replied
    ensures f.entered <==> f.enc.started
  {
    hide CallsOf, Sent;
  }

  // ---------- whole runs ----------

  lemma StepBuffers(f: FilterView, e: Event)
    requires Inv(f) && AdapterInv(f) && Enabled(f, e) && AdapterEvent(e)
    requires LegalCalls(Step(f, e).t.calls) && AdapterCalls(Step(f, e).t.calls) && !GoesWrong(f, e)
    ensures AdapterInv(Step(f, e))
  {
    hide RequestSide, ResponseSide, AdapterCalls, LegalCalls, OnPosted, Sound;
    match e
    case DestroyEvent => DestroyBuffers(f);
    case GoCompletesEvent(_) => CompletionBuffers(f, e.completion);
    case PostedEvent =>
      if f.destroyed { DestroyedBuffers(f); } else { PostedBuffers(f); }
    case DecodeHeadersEvent(end) => FirstHeadersBuffer(f, end);
    case EncodeHeadersEvent(end) => ResponseStartBuffers(f, end);
    case DecodeDataEvent(_, _) => RequestFrameBuffers(f, e);
    case DecodeTrailersEvent => RequestFrameBuffers(f, e);
    case EncodeDataEvent(_, _) => ResponseFrameBuffers(f, e);
    case EncodeTrailersEvent => ResponseFrameBuffers(f, e);
  }

  /** The two sides say nothing about what is running, queued or destroyed. */
  lemma SameSides(f: FilterView, g: FilterView)
    requires RequestSide(f) && ResponseSide(f)
    requires g.dec == f.dec && g.enc == f.enc && g.t.calls == f.t.calls
    requires g.waiting == f.waiting && g.localTrailers == f.localTrailers
    ensures RequestSide(g) && ResponseSide(g)
  {
    hide CallsOf, Served, Holding;
  }

  lemma DestroyBuffers(f: FilterView)
    requires AdapterInv(f)
    ensures AdapterInv(OnDestroy(f))
  {
    hide RequestSide, ResponseSide;
    SameSides(f, OnDestroy(f));
  }

  lemma CompletionBuffers(f: FilterView, c: Completion)
    requires AdapterInv(f) && (c == Resume(Continue) || c == Reply)
    ensures AdapterInv(GoCompletes(f, c).0)
  {
    hide RequestSide, ResponseSide;
    SameSides(f, GoCompletes(f, c).0);
  }

  lemma DestroyedBuffers(f: FilterView)
    requires AdapterInv(f) && f.destroyed && f.t.queue != []
    ensures AdapterInv(OnPosted(f))
  {
    hide RequestSide, ResponseSide;
    SameSides(f, OnPosted(f));
  }

  lemma InitBuffers(go: Oracle)
    ensures AdapterInv(InitFilter(go))
  {
  }

  lemma {:induction false} RunBuffers(go: Oracle, run: Run)
    requires Valid(go, run) && AdapterRun(run)
    ensures AdapterInv(run.Last())
    decreases |run.events|
  {
    hide Inv, AdapterInv, Step, Enabled, AdapterEvent, LegalCalls, AdapterCalls, GoesWrong;
    if run.events == [] {
      InitBuffers(go);
    } else {
      DropLast(InitFilter(go), run);
      DropLastAdapter(run);
      RunBuffers(go, run.Before());
      RunSafe(go, run.Before());
      StepBuffers(run.Before().Last(), run.LastEvent());
    }
  }

  /** The inner filter is given all of a direction; nil data only when there was no body byte. */
  predicate Whole(run: InnerRun, d: Direction, body: Bytes, trailers: bool) {
    && run.header == Some(HeadersOf(d))
    && (run.data == Some(body) || (run.data.None? && body == []))
    && run.trailer == (if trailers then Some(TrailersOf(d)) else None)
  }

  /** What the next filter gets after the inner filter ran. */
  function Passed(run: InnerRun, body: Bytes): seq<Frame> {
    if run.data.None? then [Headers(true)]
    else if run.trailer.None? then [Headers(false), Data(body, true)]
    else if Wrap(|body|) == 0 then [Headers(false), Trailers]
    else [Headers(false), Data(body, true), Trailers]
  }

  lemma ThreeCalls(a: GoCall, b: GoCall, c: GoCall)
    ensures SideOf([a]) == SideStep(EMPTY_SIDE, a)
    ensures SideOf([a, b]) == SideStep(SideStep(EMPTY_SIDE, a), b)
    ensures SideOf([a, b, c]) == SideStep(SideStep(SideStep(EMPTY_SIDE, a), b), c)
  {
    hide SideStep;
    SideOfSnoc([], a);
    SideOfSnoc([a], b);
    SideOfSnoc([a, b], c);
    assert [] + [a] == [a] && [a] + [b] == [a, b] && [a, b] + [c] == [a, b, c];
  }

  lemma EmptySide()
    ensures SideOf([]) == EMPTY_SIDE
  {
  }

  /** What the adapter did with the calls of a direction. */
  lemma ServedRuns(p: ProcView, d: Direction, cs: seq<GoCall>)
    requires Served(p, d, cs)
    ensures var runs := SideOf(cs).runs;
            if Delivered(p, d, cs) then
              && |runs| == 1 && Whole(runs[0], d, p.s.recv, p.seenTrailers)
              && Sent(cs, p.s.recv) == Passed(runs[0], p.s.recv)
            else runs == [] && (p.state.WaitingHeader? || p.state.WaitingAllData? || p.state.WaitingTrailer?)
  {
    hide SideOf, Wrap;
    var body := p.s.recv;
    ThreeCalls(HeaderCall(d, true), HeaderCall(d, true), TrailerCall(d));
    ThreeCalls(HeaderCall(d, false), DataCall(d, body, true), TrailerCall(d));
    ThreeCalls(HeaderCall(d, false), DataCall(d, body, false), TrailerCall(d));
    assert SideOf([]) == EMPTY_SIDE by { EmptySide(); }
  }

  /** Whether response trailers came while the response was parked. */
  ghost predicate TrailersParked(run: Run)
    requires run.Shaped()
  {
    exists i {:trigger run.events[i], run.states[i]} ::
      0 <= i < |run.events| && run.events[i].EncodeTrailersEvent? && run.states[i].waiting
  }

  lemma StepParksTrailers(f: FilterView, e: Event)
    requires Enabled(f, e)
    ensures Step(f, e).localTrailers.Some? <==> f.localTrailers.Some? || (e.EncodeTrailersEvent? && f.waiting)
  {
    hide DoHeaders, DoData, DoTrailer, OnPosted, OnEncodeHeaders, Received, KeepsInput, Grows;
    match e
    case PostedEvent => PostedParksNothing(f);
    case EncodeHeadersEvent(end) => StartParksNothing(f, end);
    case _ =>
  }

  lemma PostedParksNothing(f: FilterView)
    requires f.t.queue != []
    ensures OnPosted(f).localTrailers == f.localTrailers
  {
    hide ContinueStream, EncodeParkedHeaders, EndWithReply, Store.ClearAll;
  }

  lemma StartParksNothing(f: FilterView, end: bool)
    ensures OnEncodeHeaders(f, end).localTrailers == f.localTrailers
  {
    hide DoHeaders, Store.Drain, Store.ClearAll;
  }

  lemma {:induction false} RunParksTrailers(go: Oracle, run: Run)
    requires Valid(go, run)
    ensures run.Last().localTrailers.Some? <==> TrailersParked(run)
    decreases |run.events|
  {
    hide Step, Enabled, LegalCalls, GoesWrong;
    if run.events != [] {
      DropLast(InitFilter(go), run);
      RunParksTrailers(go, run.Before());
      StepParksTrailers(run.Before().Last(), run.LastEvent());
      assert run.events == run.Before().events + [run.LastEvent()];
      assert run.states[|run.events| - 1] == run.Before().Last();
    }
  }

  /** The trailers of a direction came before any body byte, or while its headers were still parked. */
  ghost predicate Misses(run: Run, d: Direction)
    requires run.Shaped()
  {
    TrailersCame(run.events, d) && (Body(run.events, d) == [] || (d.Encode? && TrailersParked(run)))
  }

  lemma ServedOrNot(f: FilterView, d: Direction)
    requires AdapterInv(f)
    ensures var p := f.P(d);
            Delivered(p, d, CallsOf(f.t.calls, d)) <==>
            && p.StreamEnd() && (d.Encode? ==> !f.waiting)
            && !(p.seenTrailers && (p.s.recv == [] || (d.Encode? && f.localTrailers.Some?)))
  {
    hide CallsOf, Sent, Holding;
  }

  /**
   Delivered once. On every run of the adapter and in each direction the inner filter runs at most once,
   and it runs exactly once if and only if Envoy has ended the direction, it is not a response still
   parked behind the request, and trailers did not come before any body byte or while the response was
   parked. It is given the headers, the whole body and the trailers, however the body was cut. When
   it has returned, the next filter receives exactly that, the body in one frame.
   */
  lemma RunDeliversOnce(go: Oracle, run: Run, d: Direction)
    requires Valid(go, run) && AdapterRun(run)
    ensures var f := run.Last();
            var p, runs := f.P(d), SideOf(CallsOf(f.t.calls, d)).runs;
            && |runs| <= 1
            && (|runs| == 1 <==> p.StreamEnd() && (d.Encode? ==> !f.waiting) && !Misses(run, d))
            && (|runs| == 1 ==> Whole(runs[0], d, Body(run.events, d), TrailersCame(run.events, d)))
            && (p.state.Done? && !p.replied ==> |runs| == 1 && p.s.out == Passed(runs[0], Body(run.events, d)))
  {
    hide Link, AdapterLink, CallsOf, SideOf, Whole, Passed, Sent, Body, TrailersCame, TrailersParked, Delivered;
    RunBuffers(go, run);
    RunInput(go, run, d);
    RunParksTrailers(go, run);
    var f := run.Last();
    ServedOrNot(f, d);
    ServedRuns(f.P(d), d, CallsOf(f.t.calls, d));
  }

  /**
   How the second of those comes about: a deferred response whose trailers are parked too. When the
   request direction lets go, the response headers are stopped, the parked body is shown and kept, and
   there the response stays: the inner Encode never runs, and nothing is forwarded. So the release of a
   parked response that is over runs the inner Encode if and only if no trailers are parked. Trailers
   parked with no data frame are worse: then the null data_buffer_ is dereferenced.
   */
  lemma ParkedTrailersStrand(f: FilterView)
    requires Sound(f) && f.waiting && f.t.queue != [] && AdapterInv(f)
    requires AdapterCalls(OnPosted(f).t.calls)
    ensures var g := OnPosted(f);
            var runs := SideOf(CallsOf(g.t.calls, Encode)).runs;
            && (f.enc.StreamEnd() ==> (|runs| == 1 <==> !f.enc.seenTrailers))
            && (f.enc.seenTrailers ==> runs == [] && StuckOnTrailers(g.enc) && Quiet(g.t) && g.enc.s.out == [])
            && (f.enc.seenTrailers ==> (g.enc.fault <==> f.enc.s.buffer.None?))
  {
    hide CallsOf, SideOf, Sent, KeepsInput, EncodeParkedHeaders, ContinueStream, AdapterCalls, Grows;
    PostedIsHeld(f);
    assert f.t.queue[1..] == [];
    var h := Release(f.(t := f.t.(queue := [])));
    if f.enc.seenTrailers {
      ThreeCalls(HeaderCall(Encode, false), DataCall(Encode, f.enc.s.recv, false), TrailerCall(Encode));
      if f.enc.s.buffer.Some? { StrandedResponse(h); } else { BodilessResponse(h); }
      assert OnPosted(f).enc == ContinueStream(EncodeParkedHeaders(h), Answer(h.t)).p;
    } else {
      ReleaseBuffers(h);
      ServedRuns(OnPosted(f).enc, Encode, CallsOf(OnPosted(f).t.calls, Encode));
    }
  }

  lemma BodilessResponse(h: FilterView)
    requires h.localHeaders == Some(ResponseHeaders) && h.localTrailers == Some(ResponseTrailers)
    requires CallsOf(h.t.calls, Encode) == [] && Quiet(h.t)
    requires h.enc == INIT_PROC.(started := true, seenTrailers := true)
    requires AdapterCalls(ContinueStream(EncodeParkedHeaders(h), Answer(h.t)).t.calls)
    ensures var g := ContinueStream(EncodeParkedHeaders(h), Answer(h.t));
            && g.d == Encode && StuckOnTrailers(g.p) && Quiet(g.t) && g.p.s.out == [] && g.p.fault
            && SideOf(CallsOf(g.t.calls, Encode)).runs == []
  {
    hide CallsOf, SideOf, KeepsInput, Wrap, EncodeParkedHeaders, DoDataGo, AdapterCalls, Grows;
    var l := EncodeParkedHeaders(h);
    StreamGrows(l, Answer(h.t));
    PrefixAnswers(l.t.calls, ContinueStream(l, Answer(h.t)).t.calls);
    StrandedHeadersGo(h);
    assert ApplyStatus(l.p, StopAndBuffer) == l.p.(state := WaitingAllData);
    ThreeCalls(HeaderCall(Encode, false), DataCall(Encode, [], false), TrailerCall(Encode));
  }

  /** A request that ended with its headers, held by the inner filter. */
  function EndedRequest(): FilterView {
    var p := INIT_PROC.(state := ProcessingHeader, started := true, endStream := true, doEndStream := true);
    var t := InitTraffic(ThenStops).(headers := Some(RequestHeaders), hasReq := true, running := true,
                                     calls := [HeaderCall(Decode, true)]);
    InitFilter(ThenStops).(dec := p, t := t)
  }

  lemma RequestEnds()
    ensures Link(InitFilter(ThenStops), DecodeHeadersEvent(true), EndedRequest())
  {
    assert [] + [HeaderCall(Decode, true)] == [HeaderCall(Decode, true)];
  }

  lemma ExtendAdapter(run: Run, longer: Run)
    requires run.Shaped() && longer.Shaped() && AdapterRun(run)
    requires longer.events != [] && longer.Before() == run && AdapterLink(run.Last(), longer.LastEvent(), longer.Last())
    ensures AdapterRun(longer)
  {
    hide AdapterLink;
    forall i | 0 <= i < |longer.events|
      ensures AdapterLink(longer.states[i], longer.events[i], longer.states[i + 1])
    {
      if i < |run.events| {
        assert longer.events[i] == run.events[i] && longer.states[i] == run.states[i];
        assert longer.states[i + 1] == run.states[i + 1];
      } else {
        assert longer.states[i] == run.Last();
      }
    }
  }

  /** A run of the adapter up to the release of a response that is parked whole: it will be stranded. */
  lemma ParkedWhole(data: Bytes) returns (run: Run)
    requires data != []
    ensures Valid(ThenStops, run) && AdapterRun(run) && Enabled(run.Last(), PostedEvent)
    ensures run.Last().waiting && run.Last().enc.seenTrailers && run.Last().enc.s.recv == data
    ensures var g := Step(run.Last(), PostedEvent);
            && LegalCalls(g.t.calls) && AdapterCalls(g.t.calls)
            && StuckOnTrailers(g.enc) && SideOf(CallsOf(g.t.calls, Encode)).runs == []
  {
    hide Link, Inv, AdapterInv, OnPosted, SideOf, CallsOf, StuckOnTrailers;
    var go := ThenStops;
    var f := EndedRequest();
    run := Start(go);
    RequestEnds();
    run := ExtendedBy(run, DecodeHeadersEvent(true), f);
    ResponseParks(f);
    var f2 := f.(enc := f.enc.(endStream := false, started := true), waiting := true,
                 localHeaders := Some(ResponseHeaders));
    run := ExtendedBy(run, EncodeHeadersEvent(false), f2);
    ParkedDataArrives(f2, data);
    var f3 := f2.(enc := f2.enc.(s := INIT_STORE.(buffer := Some(data), recv := data)));
    run := ExtendedBy(run, EncodeDataEvent(data, false), f3);
    ParkedTrailersArrive(f3);
    var f4 := f3.(enc := f3.enc.(seenTrailers := true), localTrailers := Some(ResponseTrailers));
    run := ExtendedBy(run, EncodeTrailersEvent, f4);
    GoCompletesNow(f4, Resume(Continue));
    var f5 := f4.(t := f4.t.(running := false, queue := [Resume(Continue)]));
    run := ExtendedBy(run, GoCompletesEvent(Resume(Continue)), f5);
    RunBuffers(go, run);
    RunSafe(go, run);
    LiveIsSound(f5);
    ParkedBodyStopped(f5, data);
    ParkedTrailersStrand(f5);
  }

  lemma LiveIsSound(f: FilterView)
    requires Inv(f) && !f.destroyed && f.t.calls != []
    ensures Sound(f)
  {
    hide Sound;
  }

  lemma ExtendedBy(run: Run, e: Event, g: FilterView) returns (longer: Run)
    requires Valid(ThenStops, run) && AdapterRun(run) && Link(run.Last(), e, g) && AdapterLink(run.Last(), e, g)
    ensures Valid(ThenStops, longer) && AdapterRun(longer) && longer.Last() == g
  {
    hide Link, AdapterLink;
    longer := Extend(ThenStops, run, e, g);
    assert longer.Before() == run;
    ExtendAdapter(run, longer);
  }
}
