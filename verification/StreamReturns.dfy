/**
 What the handlers return to Envoy. Returning Continue makes Envoy pass the frame on, and nothing else does
 while a frame is handled; so the returned value and what the next filter receives have to agree.
 */
module StreamReturns {
  import opened StreamTypes
  import opened StreamSpec
  import opened StreamRuns

  // ---------- entering Go forwards nothing ----------

  lemma SettleDataOut(p: ProcView, status: GolangStatus)
    ensures SettleData(p, status).s.out == p.s.out
  {
    hide DropLatest, ListView.ClearLatest, AfterData;
  }

  lemma HandleDataOut(p: ProcView, status: GolangStatus)
    ensures HandleData(p, status).0.s.out == p.s.out
  {
    hide SettleData, KeepsInput;
    SettleDataOut(p.Check(p.state.ProcessingData?), status);
  }

  lemma BufferedDataGoOut(l: Lane, end: bool)
    ensures DoBufferedDataGo(l, end).0.p.s.out == l.p.s.out
  {
    hide HandleData;
    if l.p.s.buffer.Some? {
      var s := l.p.s.TakeBuffer().Push(l.p.s.buffer.value);
      HandleDataOut(ProcessData(l.p, end).(s := s), Answer(l.t));
    }
  }

  lemma AllDataTrailerOut(l: Lane, trailers: HeaderMap)
    ensures DoAllDataTrailerGo(l, trailers).0.p.s.out == l.p.s.out
  {
    hide DoBufferedDataGo, CallGo, Grows;
    BufferedDataGoOut(l, false);
  }

  lemma DoTrailerOut(l: Lane)
    ensures DoTrailer(l.(p := l.p.(seenTrailers := true)), TrailersOf(l.d)).0.p.s.out == l.p.s.out
  {
    hide DoAllDataTrailerGo, CallGo, Grows, KeepsInput, PhaseOf;
    var p := l.p.(seenTrailers := true);
    AllDataTrailerOut(
      Lane(l.d, p.Check(!p.endStream && !p.doEndStream), l.t.(trailers := Some(TrailersOf(l.d)))), TrailersOf(l.d));
  }

  lemma DataGoOut(l: Lane, data: Bytes, end: bool)
    ensures DoDataGo(l, data, end).0.p.s.out == l.p.s.out
  {
    hide HandleData, CallGo;
    HandleDataOut(ProcessData(l.p, end).(s := l.p.s.Push(data)), Answer(l.t));
  }

  lemma DoDataOut(l: Lane, data: Bytes, end: bool)
    ensures DoData(l, data, end).0.p.s.out == l.p.s.out
  {
    hide DoDataGo, DoAllDataGo, Grows, KeepsInput, ProcView.Check;
    DataGoOut(l, data, end);
    AllDataOut(l, data);
    CheckOut(l.p);
  }

  lemma AllDataOut(l: Lane, data: Bytes)
    ensures DoAllDataGo(l, data).0.p.s.out == l.p.s.out
  {
    hide DoDataGo, Grows, KeepsInput;
    DataGoOut(l, data, true);
    DataGoOut(l.(p := l.p.(s := l.p.s.TakeBuffer())), l.p.s.Buffered() + data, true);
  }

  lemma CheckOut(p: ProcView)
    ensures forall ok: bool :: p.Check(ok).s.out == p.s.out
  {
  }

  lemma HandleHeaderOut(p: ProcView, status: GolangStatus)
    ensures HandleHeader(p, status).0.s == p.s
  {
    hide KeepsInput;
    match status
    case Continue =>
    case StopAndBuffer =>
    case StopAndBufferWatermark =>
    case _ =>
  }

  lemma DoHeadersOut(l: Lane, headers: HeaderMap, end: bool)
    ensures DoHeaders(l, headers, end).0.p.s.out == l.p.s.out
  {
    hide CallGo, Grows, KeepsInput, HandleHeader, PhaseOf, Store.BufferEmpty;
    HandleHeaderOut(ProcessHeader(l.p.Check(l.p.s.BufferEmpty()), end), Answer(l.t));
  }

  // ---------- what Continue means ----------

  predicate InRequest(e: Event) {
    e.DecodeHeadersEvent? || e.DecodeDataEvent? || e.DecodeTrailersEvent?
  }

  /** The frames that go out before a body frame or trailers: headers that are still pending go first. */
  function Ahead(out: seq<Frame>): seq<Frame> {
    if out == [] then [Headers(false)] else out
  }

  /** The frame of the event went to the next filter, with its end_stream flag, and behind everything before it. */
  predicate PassedOn(before: seq<Frame>, after: seq<Frame>, e: Event) {
    match e
    case DecodeHeadersEvent(end) => after == before + [Headers(end)]
    case EncodeHeadersEvent(end) => after == before + [Headers(end)]
    case DecodeDataEvent(_, end) =>
      after != [] && after[..|after| - 1] == Ahead(before) && after[|after| - 1].Data? && after[|after| - 1].end == end
    case EncodeDataEvent(_, end) =>
      after != [] && after[..|after| - 1] == Ahead(before) && after[|after| - 1].Data? && after[|after| - 1].end == end
    case DecodeTrailersEvent => after == Ahead(before) + [Trailers]
    case EncodeTrailersEvent => after == Ahead(before) + [Trailers]
    case _ => false
  }

  /** The handler of a frame returned Continue exactly if the frame was passed on; and only that ever is. */
  predicate Answered(f: FilterView, e: Event, done: bool, g: FilterView) {
    var (before, after) := if InRequest(e) then (f.dec.s.out, g.dec.s.out) else (f.enc.s.out, g.enc.s.out);
    && (done <==> PassedOn(before, after, e))
    && (!done ==> after == before)
    && (if InRequest(e) then g.enc.s.out == f.enc.s.out else g.dec.s.out == f.dec.s.out)
  }

  lemma Sent(before: seq<Frame>, e: Event)
    ensures !PassedOn(before, before, e)
  {
    assert |Ahead(before)| >= |before|;
  }

  lemma DecodeHeadersAnswers(f: FilterView, end: bool)
    ensures var done := DoHeaders(Lane(Decode, f.dec.(endStream := end, started := true), f.t), RequestHeaders, end).1;
            Answered(f, DecodeHeadersEvent(end), done, OnDecodeHeaders(f, end))
  {
    hide DoHeaders;
    Sent(f.dec.s.out, DecodeHeadersEvent(end));
    DoHeadersOut(Lane(Decode, f.dec.(endStream := end, started := true), f.t), RequestHeaders, end);
  }

  lemma DecodeDataAnswers(f: FilterView, data: Bytes, end: bool)
    ensures var done := DoData(Lane(Decode, Received(f.dec, data, end), f.t), data, end).1;
            Answered(f, DecodeDataEvent(data, end), done, OnDecodeData(f, data, end))
  {
    hide DoData, Flat, Settle;
    Sent(f.dec.s.out, DecodeDataEvent(data, end));
    DoDataOut(Lane(Decode, Received(f.dec, data, end), f.t), data, end);
  }

  lemma DecodeTrailersAnswers(f: FilterView)
    ensures var done := DoTrailer(Lane(Decode, f.dec.(seenTrailers := true), f.t), RequestTrailers).1;
            Answered(f, DecodeTrailersEvent, done, OnDecodeTrailers(f))
  {
    hide DoTrailer;
    Sent(f.dec.s.out, DecodeTrailersEvent);
    DoTrailerOut(f.At(Decode));
  }

  /** A response that starts: the headers go on if Go lets them, and never when they are parked. */
  lemma EntersEncoding(f: FilterView, end: bool)
    ensures var done := DoHeaders(f.At(Encode), ResponseHeaders, end).1;
            Answered(f, EncodeHeadersEvent(end), done, EnterEncoding(f, end))
  {
    hide DoHeaders;
    Sent(f.enc.s.out, EncodeHeadersEvent(end));
    DoHeadersOut(f.At(Encode), ResponseHeaders, end);
  }

  lemma ParksHeaders(f: FilterView, end: bool)
    ensures Answered(f, EncodeHeadersEvent(end), false, Park(f)) && Abandon(f).dec.s.out == f.dec.s.out
    ensures Abandon(f).enc.s.out == f.enc.s.out
  {
    Sent(f.enc.s.out, EncodeHeadersEvent(end));
  }

  lemma EncodeDataAnswers(f: FilterView, data: Bytes, end: bool)
    ensures var done := !f.waiting && DoData(Lane(Encode, Received(f.enc, data, end), f.t), data, end).1;
            Answered(f, EncodeDataEvent(data, end), done, OnEncodeData(f, data, end))
  {
    hide DoData, Flat, Settle;
    Sent(f.enc.s.out, EncodeDataEvent(data, end));
    DoDataOut(Lane(Encode, Received(f.enc, data, end), f.t), data, end);
  }

  lemma EncodeTrailersAnswers(f: FilterView)
    ensures var done := !f.waiting && DoTrailer(Lane(Encode, f.enc.(seenTrailers := true), f.t), ResponseTrailers).1;
            Answered(f, EncodeTrailersEvent, done, OnEncodeTrailers(f))
  {
    hide DoTrailer;
    Sent(f.enc.s.out, EncodeTrailersEvent);
    DoTrailerOut(f.At(Encode));
  }
}
