/**
 Conservation of bytes. Every received byte is in exactly one place: in a chunk that was forwarded,
 in a chunk held in doDataList, in a chunk that was dropped for a stated reason, or in data_buffer_;
 and what was forwarded left in the order in which it came.
 */
module StreamLedger {
  import opened StreamTypes
  import opened StreamSpec
  import opened StreamRuns
  import opened StreamSafety

  // ---------- sequences of chunks ----------

  lemma {:induction false} FlatConcat(a: seq<Bytes>, b: seq<Bytes>)
    ensures Flat(a + b) == Flat(a) + Flat(b)
  {
    if b == [] {
      assert a + b == a;
    } else {
      var last := b[|b| - 1];
      assert a + b == (a + b[..|b| - 1]) + [last];
      FlatSnoc(a + b[..|b| - 1], last);
      FlatConcat(a, b[..|b| - 1]);
    }
  }

  /** The chunks Go was shown, in order. */
  ghost function Shown(hist: seq<Piece>): seq<Bytes> {
    if hist == [] then []
    else
      var init, last := hist[..|hist| - 1], hist[|hist| - 1];
      if last.shown then Shown(init) + [last.bytes] else Shown(init)
  }

  lemma HistSnoc(hist: seq<Piece>, piece: Piece, fate: Fate)
    ensures HistBytes(hist + [piece]) == HistBytes(hist) + piece.bytes
    ensures Select(hist + [piece], fate) ==
            if piece.fate == fate then Select(hist, fate) + [piece.bytes] else Select(hist, fate)
    ensures Shown(hist + [piece]) == if piece.shown then Shown(hist) + [piece.bytes] else Shown(hist)
  {
    assert (hist + [piece])[..|hist|] == hist;
  }

  /** Nothing is forwarded past a chunk that is still held. */
  ghost predicate InOrder(hist: seq<Piece>) {
    forall i, j :: 0 <= i < j < |hist| && hist[j].fate.Forwarded? ==> !hist[i].fate.Held?
  }

  lemma {:induction false} SettlePointwise(hist: seq<Piece>, fate: Fate)
    ensures |Settle(hist, fate)| == |hist|
    ensures forall i :: 0 <= i < |hist| ==> Settle(hist, fate)[i] == SettlePiece(hist[i], fate)
  {
    if hist != [] {
      SettlePointwise(hist[..|hist| - 1], fate);
    }
  }

  /** Giving held pieces another fate moves no bytes and leaves nothing held. */
  lemma {:induction false} SettleShape(hist: seq<Piece>, fate: Fate)
    requires !fate.Held?
    ensures HistBytes(Settle(hist, fate)) == HistBytes(hist)
    ensures Shown(Settle(hist, fate)) == Shown(hist)
    ensures Select(Settle(hist, fate), Held) == []
  {
    if hist != [] {
      var init, last := hist[..|hist| - 1], hist[|hist| - 1];
      SettleShape(init, fate);
      HistSnoc(Settle(init, fate), SettlePiece(last, fate), Held);
    }
  }

  /** Dropping what is held leaves what was forwarded as it is. */
  lemma {:induction false} SettleDropped(hist: seq<Piece>, reason: DropReason)
    ensures Select(Settle(hist, Dropped(reason)), Forwarded) == Select(hist, Forwarded)
  {
    if hist != [] {
      var init, last := hist[..|hist| - 1], hist[|hist| - 1];
      SettleDropped(init, reason);
      HistSnoc(Settle(init, Dropped(reason)), SettlePiece(last, Dropped(reason)), Forwarded);
    }
  }

  lemma {:induction false} NothingHeld(hist: seq<Piece>)
    requires forall i :: 0 <= i < |hist| ==> !hist[i].fate.Held?
    ensures Select(hist, Held) == []
  {
    if hist != [] {
      NothingHeld(hist[..|hist| - 1]);
    }
  }

  lemma InOrderInit(init: seq<Piece>, last: Piece)
    requires InOrder(init + [last])
    ensures InOrder(init)
    ensures last.fate.Forwarded? ==> Select(init, Held) == []
  {
    var hist := init + [last];
    assert forall i :: 0 <= i < |init| ==> init[i] == hist[i];
    if last.fate.Forwarded? {
      assert hist[|init|] == last;
      NothingHeld(init);
    }
  }

  lemma SettleSnoc(init: seq<Piece>, last: Piece, fate: Fate)
    ensures Settle(init + [last], fate) == Settle(init, fate) + [SettlePiece(last, fate)]
  {
    assert (init + [last])[..|init|] == init;
  }

  lemma ChunkAssoc(a: seq<Bytes>, b: seq<Bytes>, c: seq<Bytes>)
    ensures (a + b) + c == a + (b + c)
  {
  }

  lemma SettleForwardedStep(init: seq<Piece>, last: Piece)
    requires Select(Settle(init, Forwarded), Forwarded) == Select(init, Forwarded) + Select(init, Held)
    requires last.fate.Forwarded? ==> Select(init, Held) == []
    ensures var hist := init + [last];
            Select(Settle(hist, Forwarded), Forwarded) == Select(hist, Forwarded) + Select(hist, Held)
  {
    hide Select, Settle, HistBytes, Shown;
    SettleSnoc(init, last, Forwarded);
    HistSnoc(Settle(init, Forwarded), SettlePiece(last, Forwarded), Forwarded);
    HistSnoc(init, last, Forwarded);
    HistSnoc(init, last, Held);
    var sent, held := Select(init, Forwarded), Select(init, Held);
    match last.fate
    case Held => ChunkAssoc(sent, held, [last.bytes]);
    case Forwarded => assert sent + [] == sent && (sent + [last.bytes]) + [] == sent + [last.bytes];
    case Dropped(_) =>
  }

  /** Forwarding what is held, when nothing overtook it, appends exactly the held chunks. */
  lemma {:induction false} SettleForwarded(hist: seq<Piece>)
    requires InOrder(hist)
    ensures Select(Settle(hist, Forwarded), Forwarded) == Select(hist, Forwarded) + Select(hist, Held)
    decreases |hist|
  {
    if hist == [] {
      NothingSettled();
    } else {
      hide *;
      var init, last := hist[..|hist| - 1], hist[|hist| - 1];
      assert hist == init + [last];
      InOrderInit(init, last);
      SettleForwarded(init);
      SettleForwardedStep(init, last);
    }
  }

  lemma NothingSettled()
    ensures Select(Settle([], Forwarded), Forwarded) == Select([], Forwarded) + Select([], Held)
  {
  }

  // ---------- the ledger of a direction ----------

  /** The body bytes the next filter received. */
  ghost function OutBytes(out: seq<Frame>): Bytes {
    if out == [] then []
    else
      var init, last := out[..|out| - 1], out[|out| - 1];
      if last.Data? then OutBytes(init) + last.bytes else OutBytes(init)
  }

  lemma OutSnoc(out: seq<Frame>, frame: Frame)
    ensures OutBytes(out + [frame]) == if frame.Data? then OutBytes(out) + frame.bytes else OutBytes(out)
  {
    assert (out + [frame])[..|out|] == out;
  }

  /**
   The ledger balances. Rest is what has been neither shown nor dropped: data_buffer_, or the data a
   handler has in its hands. bytes_ is the total of the list as a uint32_t holds it.
   */
  ghost predicate LedgerWith(s: Store, rest: Bytes) {
    && s.recv == HistBytes(s.hist) + rest
    && s.list.queue == Select(s.hist, Held)
    && OutBytes(s.out) == Flat(Select(s.hist, Forwarded))
    && InOrder(s.hist)
    && s.list.bytes == Wrap(|Flat(s.list.queue)|)
  }

  ghost predicate Ledger(s: Store) {
    LedgerWith(s, s.Buffered())
  }

  lemma WrapAdd(a: int, b: int)
    ensures Wrap(Wrap(a) + b) == Wrap(a + b)
  {
  }

  lemma ListPush(list: ListView, data: Bytes)
    requires list.bytes == Wrap(|Flat(list.queue)|)
    ensures list.Push(data).bytes == Wrap(|Flat(list.queue + [data])|)
  {
    hide Wrap, Flat;
    FlatSnoc(list.queue, data);
    WrapAdd(|Flat(list.queue)|, |data|);
  }

  lemma PushLedger(s: Store, data: Bytes)
    requires LedgerWith(s, data)
    ensures LedgerWith(s.Push(data), [])
    ensures Shown(s.Push(data).hist) == Shown(s.hist) + [data]
  {
    hide Wrap, Flat, HistBytes, Select, Shown, OutBytes;
    var piece := Piece(data, true, Held);
    HistSnoc(s.hist, piece, Held);
    HistSnoc(s.hist, piece, Forwarded);
    ListPush(s.list, data);
  }

  /** Dropping the latest chunk takes it, and nothing else, out of what is held. */
  lemma DropLatestShape(init: seq<Piece>, last: Piece)
    requires last.fate.Held?
    ensures var h, g := init + [last], init + [last.(fate := Dropped(NoBufferAsked))];
            && DropLatest(h) == g
            && HistBytes(g) == HistBytes(h) && Shown(g) == Shown(h)
            && Select(h, Held) == Select(init, Held) + [last.bytes]
            && Select(g, Held) == Select(init, Held)
            && Select(g, Forwarded) == Select(h, Forwarded)
            && (InOrder(h) ==> InOrder(g))
  {
    hide HistBytes, Select, Shown;
    var dropped := last.(fate := Dropped(NoBufferAsked));
    HistSnoc(init, last, Held);
    HistSnoc(init, last, Forwarded);
    HistSnoc(init, dropped, Held);
    HistSnoc(init, dropped, Forwarded);
    assert (init + [last])[..|init|] == init;
  }

  lemma ListClearLatest(list: ListView, queue: seq<Bytes>, last: Bytes)
    requires list.queue == queue + [last] && list.bytes == Wrap(|Flat(list.queue)|)
    ensures list.ClearLatest().queue == queue
    ensures list.ClearLatest().bytes == Wrap(|Flat(queue)|)
  {
    hide Flat, Wrap;
    FlatSnoc(queue, last);
    WrapAdd(|Flat(list.queue)|, -|last|);
    assert list.queue[..|queue|] == queue;
  }

  lemma ClearLatestLedger(s: Store)
    requires Ledger(s) && s.hist != [] && s.hist[|s.hist| - 1].fate.Held?
    ensures s.list.queue != [] && Ledger(s.ClearLatest())
    ensures Shown(s.ClearLatest().hist) == Shown(s.hist)
  {
    hide HistBytes, Select, Shown, Flat, OutBytes, InOrder, DropLatest;
    var init, last := s.hist[..|s.hist| - 1], s.hist[|s.hist| - 1];
    assert s.hist == init + [last];
    DropLatestShape(init, last);
    ListClearLatest(s.list, Select(init, Held), last.bytes);
  }

  lemma ClearAllLedger(s: Store)
    requires Ledger(s)
    ensures Ledger(s.ClearAll())
    ensures Shown(s.ClearAll().hist) == Shown(s.hist)
  {
    SettlePointwise(s.hist, Dropped(LocalReplyStarted));
    SettleShape(s.hist, Dropped(LocalReplyStarted));
    SettleDropped(s.hist, LocalReplyStarted);
  }

  lemma DrainLedger(s: Store)
    requires Ledger(s)
    ensures Ledger(s.Drain())
    ensures Shown(s.Drain().hist) == Shown(s.hist)
  {
    if !s.BufferEmpty() {
      var piece := Piece(s.buffer.value, false, Dropped(LocalReplyStarted));
      HistSnoc(s.hist, piece, Held);
      HistSnoc(s.hist, piece, Forwarded);
    }
  }

  lemma MoveOutLedger(s: Store)
    requires Ledger(s)
    ensures var h := s.MoveOut().hist;
            && HistBytes(h) == HistBytes(s.hist) && Shown(h) == Shown(s.hist)
            && Select(h, Held) == [] && InOrder(h)
            && Flat(Select(h, Forwarded)) == Flat(Select(s.hist, Forwarded)) + Flat(s.list.queue)
  {
    SettlePointwise(s.hist, Forwarded);
    SettleShape(s.hist, Forwarded);
    SettleForwarded(s.hist);
    FlatConcat(Select(s.hist, Forwarded), Select(s.hist, Held));
  }

  lemma SendListLedger(s: Store, end: bool)
    requires Ledger(s)
    ensures Ledger(s.SendList(end))
    ensures Shown(s.SendList(end).hist) == Shown(s.hist)
  {
    MoveOutLedger(s);
    OutSnoc([], Headers(false));
    OutSnoc(s.Flushed(), Data(Flat(s.list.queue), end));
  }

  /** Headers and trailers carry no body bytes. */
  lemma FrameLedger(s: Store, end: bool)
    requires Ledger(s)
    ensures Ledger(s.SendHeaders(end)) && Ledger(s.SendTrailers())
  {
    OutSnoc([], Headers(false));
    OutSnoc(s.out, Headers(end));
    OutSnoc(s.Flushed(), Trailers);
  }

  // ---------- the ledger through the handlers ----------

  /** The chunk Go is looking at is still in the list. */
  ghost predicate LastHeld(p: ProcView) {
    p.state.ProcessingData? ==>
      p.s.hist != [] && p.s.hist[|p.s.hist| - 1].fate.Held? && p.s.hist[|p.s.hist| - 1].shown
  }

  ghost predicate ProcLedger(p: ProcView) {
    Ledger(p.s) && LastHeld(p)
  }

  lemma HandleDataLedger(p: ProcView, status: GolangStatus)
    requires ProcLedger(p) && p.state.ProcessingData?
    ensures var (q, done) := HandleData(p, status);
            ProcLedger(q) && Shown(q.s.hist) == Shown(p.s.hist) && (done ==> !q.state.ProcessingData?)
  {
    hide LedgerWith, HistBytes, Select, Settle, Flat, Shown, OutBytes;
    if status.StopNoBuffer? {
      ClearLatestLedger(p.s);
    }
  }

  /** Answers to headers and trailers move no bytes. */
  lemma HandleHeaderLedger(p: ProcView, status: GolangStatus)
    ensures var (q, done) := HandleHeader(p, status);
            q.s == p.s && (q.state.ProcessingData? ==> p.state.ProcessingData? && !done)
  {
  }

  lemma HandleTrailerLedger(p: ProcView, status: GolangStatus)
    ensures var (q, done) := HandleTrailer(p, status);
            q.s == p.s && (q.state.ProcessingData? ==> p.state.ProcessingData? && !done)
  {
  }

  lemma HandleGolangLedger(p: ProcView, status: GolangStatus)
    requires ProcLedger(p)
    ensures var (q, done) := HandleGolangStatus(p, status);
            ProcLedger(q) && Shown(q.s.hist) == Shown(p.s.hist) && (done ==> !q.state.ProcessingData?)
  {
    hide Ledger, Shown, HandleData, HandleHeader, HandleTrailer, KeepsInput;
    match p.state {
      case ProcessingHeader => HandleHeaderLedger(p, status);
      case ProcessingData => HandleDataLedger(p, status);
      case ProcessingTrailer => HandleTrailerLedger(p, status);
      case _ =>
    }
  }

  lemma ForwardLedger(p: ProcView)
    requires Ledger(p.s)
    ensures Ledger(ContinueDoData(p).s) && Ledger(ContinueProcessing(p).s)
    ensures ContinueDoData(p).state == p.state == ContinueProcessing(p).state
    ensures Shown(ContinueDoData(p).s.hist) == Shown(p.s.hist)
    ensures ContinueProcessing(p).s.hist == p.s.hist
  {
    hide Ledger, Shown;
    SendListLedger(p.s, p.doEndStream);
    var s := if p.s.out == [] then p.s.SendHeaders(p.endStream && !p.seenTrailers) else p.s;
    FrameLedger(p.s, p.endStream && !p.seenTrailers);
    FrameLedger(s, false);
  }

  lemma CheckKeepsStore(p: ProcView)
    ensures p.Check(false) == p.(fault := true)
  {
  }

  lemma ForwardDoneLedger(p: ProcView, saved: FilterState)
    requires Ledger(p.s)
    ensures var q := ForwardDone(p, saved);
            Ledger(q.s) && q.state == p.state && Shown(q.s.hist) == Shown(p.s.hist)
  {
    hide Ledger, Shown, ContinueDoData, ContinueProcessing, KeepsInput, ProcView.Check;
    CheckKeepsStore(p);
    ForwardLedger(p);
    if saved.ProcessingTrailer? {
      ForwardLedger(ContinueDoData(p));
    }
  }

  lemma ApplyStatusLedger(p: ProcView, status: GolangStatus)
    requires ProcLedger(p)
    ensures var q := ApplyStatus(p, status);
            ProcLedger(q) && Shown(q.s.hist) == Shown(p.s.hist)
  {
    hide Ledger, Shown;
    HandleGolangLedger(p, status);
    ForwardDoneLedger(HandleGolangStatus(p, status).0, p.state);
  }

  predicate IsDataCall(c: GoCall, d: Direction) {
    c.phase == PhaseOf(d, ProcessingData)
  }

  /** The body chunks Go was called with in a direction, in order. */
  ghost function DataCalls(calls: seq<GoCall>, d: Direction): seq<Bytes> {
    if calls == [] then []
    else
      var init, last := calls[..|calls| - 1], calls[|calls| - 1];
      if IsDataCall(last, d) then DataCalls(init, d) + [last.bytes] else DataCalls(init, d)
  }

  /** Entering Go adds its body, if it has one, to the body chunks of its own direction. */
  lemma CallGoBody(t: Traffic, phase: Phase, end: bool, bytes: Bytes, headers: Option<HeaderMap>, d: Direction)
    ensures DataCalls(CallGo(t, phase, end, bytes, headers).calls, d) ==
            if phase == PhaseOf(d, ProcessingData) then DataCalls(t.calls, d) + [bytes] else DataCalls(t.calls, d)
  {
    var c := GoCall(phase, end, bytes, headers, Answer(t));
    assert (t.calls + [c])[..|t.calls|] == t.calls;
  }

  /** A lane whose ledger balances: what Go was shown is what it was called with. */
  ghost predicate Balanced(l: Lane) {
    ProcLedger(l.p) && Shown(l.p.s.hist) == DataCalls(l.t.calls, l.d)
  }

  /** A handler of one direction calls Go with no body of the other. */
  ghost predicate OtherCalls(l: Lane, g: Lane) {
    var other := if l.d.Decode? then Encode else Decode;
    DataCalls(g.t.calls, other) == DataCalls(l.t.calls, other)
  }

  /**
   StopNoBuffer drops one chunk, and it is the one Go was last called with: it leaves the list, and
   every other chunk keeps its place and its fate.
   */
  lemma StopDropsShown(l: Lane)
    requires Balanced(l) && l.p.state.ProcessingData?
    ensures var q := HandleData(l.p, StopNoBuffer).0;
            var shown, n, k := DataCalls(l.t.calls, l.d), |l.p.s.hist|, |l.p.s.list.queue|;
            && shown != [] && n > 0 && k > 0
            && l.p.s.hist[n - 1].bytes == l.p.s.list.queue[k - 1] == shown[|shown| - 1]
            && q.s.hist == l.p.s.hist[..n - 1] + [l.p.s.hist[n - 1].(fate := Dropped(NoBufferAsked))]
            && q.s.list.queue == l.p.s.list.queue[..k - 1]
            && q.s.out == l.p.s.out && q.s.buffer == l.p.s.buffer
  {
    hide Flat, HistBytes, OutBytes, InOrder, Wrap;
    var init, last := l.p.s.hist[..|l.p.s.hist| - 1], l.p.s.hist[|l.p.s.hist| - 1];
    assert l.p.s.hist == init + [last];
    HistSnoc(init, last, Held);
  }

  lemma DoDataGoLedger(l: Lane, data: Bytes, end: bool)
    requires LedgerWith(l.p.s, data) && l.p.s.BufferEmpty() && Shown(l.p.s.hist) == DataCalls(l.t.calls, l.d)
    ensures var (g, done) := DoDataGo(l, data, end);
            Balanced(g) && OtherCalls(l, g) && (done ==> !g.p.state.ProcessingData?)
  {
    hide LedgerWith, Shown, DataCalls, HandleData, CallGo;
    PushLedger(l.p.s, data);
    HandleDataLedger(ProcessData(l.p, end).(s := l.p.s.Push(data)), Answer(l.t));
    var t := l.t.Check(l.t.hasReq);
    CallGoBody(t, PhaseOf(l.d, ProcessingData), end, data, None, Decode);
    CallGoBody(t, PhaseOf(l.d, ProcessingData), end, data, None, Encode);
  }

  lemma DoBufferedDataGoLedger(l: Lane, end: bool)
    requires Balanced(l)
    ensures var (g, done) := DoBufferedDataGo(l, end);
            Balanced(g) && OtherCalls(l, g) && (done ==> !g.p.state.ProcessingData?)
  {
    if l.p.s.buffer.Some? {
      DoDataGoLedger(l.(p := l.p.(s := l.p.s.TakeBuffer())), l.p.s.buffer.value, end);
    }
  }

  lemma DoTrailerGoLedger(l: Lane, trailers: HeaderMap)
    requires Balanced(l)
    ensures var g := DoTrailerGo(l, trailers).0; Balanced(g) && OtherCalls(l, g)
  {
    hide Ledger, Shown, DataCalls, HandleTrailer, CallGo;
    var t := l.t.Check(l.t.hasReq);
    CallGoBody(t, PhaseOf(l.d, ProcessingTrailer), true, [], Some(trailers), Decode);
    CallGoBody(t, PhaseOf(l.d, ProcessingTrailer), true, [], Some(trailers), Encode);
    HandleTrailerLedger(ProcessTrailer(l.p), Answer(l.t));
  }

  lemma DoHeadersLedger(l: Lane, headers: HeaderMap, end: bool)
    requires Balanced(l)
    ensures var g := DoHeaders(l, headers, end).0; Balanced(g) && OtherCalls(l, g)
  {
    hide Ledger, Shown, DataCalls, HandleHeader, CallGo;
    var t := l.t.(hasReq := true, headers := Some(headers));
    CallGoBody(t, PhaseOf(l.d, ProcessingHeader), end, [], Some(headers), Decode);
    CallGoBody(t, PhaseOf(l.d, ProcessingHeader), end, [], Some(headers), Encode);
    HandleHeaderLedger(ProcessHeader(l.p.Check(l.p.s.BufferEmpty()), end), Answer(l.t));
  }

  lemma ResumeDataLedger(l: Lane)
    requires Balanced(l)
    ensures var g := ResumeData(l).0; Balanced(g) && OtherCalls(l, g)
  {
    hide Ledger, Shown, DoBufferedDataGo;
    DoBufferedDataGoLedger(l, l.p.endStream);
    ForwardLedger(DoBufferedDataGo(l, l.p.endStream).0.p);
  }

  lemma ResumeTrailersLedger(l: Lane)
    requires Balanced(l)
    ensures var g := ResumeTrailers(l); Balanced(g) && OtherCalls(l, g)
  {
    hide Ledger, Shown;
    if l.p.state.WaitingTrailer? && l.t.trailers.Some? {
      DoTrailerGoLedger(l, l.t.trailers.value);
      ForwardLedger(DoTrailerGo(l, l.t.trailers.value).0.p);
    }
  }

  lemma ContinueStreamLedger(l: Lane, status: GolangStatus)
    requires Balanced(l)
    ensures var g := ContinueStream(l, status); Balanced(g) && OtherCalls(l, g)
  {
    hide Ledger, Shown, ApplyStatus, ResumeData, ResumeTrailers;
    ApplyStatusLedger(l.p, status);
    var l1 := l.(p := ApplyStatus(l.p, status));
    ResumeDataLedger(l1);
    ResumeTrailersLedger(ResumeData(l1).0);
  }

  // ---------- the ledger through the events ----------

  predicate TakesData(p: ProcView) {
    p.state.ProcessingHeader? || p.state.ProcessingData? || p.state.WaitingAllData? ||
    (p.state.WaitingData? && p.s.BufferEmpty())
  }

  lemma ReceivedLedger(p: ProcView, data: Bytes, end: bool)
    requires Ledger(p.s)
    ensures var q := Received(p, data, end);
            && LedgerWith(q.s, p.s.Buffered() + data)
            && Ledger(q.s.AddBufferData(data))
  {
    assert HistBytes(p.s.hist) + p.s.Buffered() + data == HistBytes(p.s.hist) + (p.s.Buffered() + data);
  }

  lemma DoDataLedger(l: Lane, data: Bytes, end: bool)
    requires Balanced(l) && TakesData(l.p)
    ensures var (g, done) := DoData(l.(p := Received(l.p, data, end)), data, end);
            Balanced(g) && OtherCalls(l, g) && (done ==> !g.p.state.ProcessingData?)
  {
    hide HistBytes, Select, Flat, InOrder, OutBytes, Shown, DoDataGo, Wrap, Grows, KeepsInput;
    ReceivedLedger(l.p, data, end);
    var p := Received(l.p, data, end);
    if l.p.state.WaitingData? || (l.p.state.WaitingAllData? && end) {
      if p.s.BufferEmpty() {
        assert p.s.Buffered() + data == data;
        DoDataGoLedger(l.(p := p), data, end);
      } else {
        DoDataGoLedger(l.(p := p.(s := p.s.TakeBuffer())), p.s.Buffered() + data, end);
      }
    }
  }

  lemma DoTrailerLedger(l: Lane, trailers: HeaderMap)
    requires Balanced(l)
    ensures var g := DoTrailer(l.(p := l.p.(seenTrailers := true)), trailers).0;
            Balanced(g) && OtherCalls(l, g)
  {
    hide LedgerWith, Shown, DataCalls, DoBufferedDataGo, DoTrailerGo;
    var p := l.p.(seenTrailers := true);
    var l1 := Lane(l.d, p.Check(!p.endStream && !p.doEndStream), l.t.(trailers := Some(trailers)));
    if p.state.WaitingAllData? && !p.s.BufferEmpty() {
      DoBufferedDataGoLedger(l1, false);
      DoTrailerGoLedger(DoBufferedDataGo(l1, false).0, trailers);
    } else {
      DoTrailerGoLedger(l1, trailers);
    }
  }

  ghost predicate LedgerInv(f: FilterView) {
    && Ledger(f.dec.s) && Shown(f.dec.s.hist) == DataCalls(f.t.calls, Decode)
    && Ledger(f.enc.s) && Shown(f.enc.s.hist) == DataCalls(f.t.calls, Encode)
    && (!f.waiting && !f.P(f.Cur()).replied ==> LastHeld(f.P(f.Cur())))
  }

  lemma DecodeFrameLedger(f: FilterView, e: Event)
    requires LedgerInv(f) && !f.entered && !f.waiting && !f.dec.replied
    requires e.DecodeTrailersEvent? || (e.DecodeDataEvent? && TakesData(f.dec))
    ensures LedgerInv(Step(f, e))
  {
    hide Ledger, Shown, DataCalls, DoData, DoTrailer, KeepsInput, Store.SendList;
    if e.DecodeDataEvent? {
      DoDataLedger(f.At(Decode), e.data, e.end);
      SendListLedger(DoData(Lane(Decode, Received(f.dec, e.data, e.end), f.t), e.data, e.end).0.p.s, e.end);
    } else {
      DoTrailerLedger(f.At(Decode), RequestTrailers);
      FrameLedger(DoTrailer(Lane(Decode, f.dec.(seenTrailers := true), f.t), RequestTrailers).0.p.s, false);
    }
  }

  lemma EncodeFrameLedger(f: FilterView, e: Event)
    requires LedgerInv(f) && f.entered && !f.waiting && !f.enc.replied
    requires e.EncodeTrailersEvent? || (e.EncodeDataEvent? && TakesData(f.enc))
    ensures LedgerInv(Step(f, e))
  {
    hide Ledger, Shown, DataCalls, DoData, DoTrailer, KeepsInput;
    if e.EncodeDataEvent? {
      DoDataLedger(f.At(Encode), e.data, e.end);
      SendListLedger(DoData(Lane(Encode, Received(f.enc, e.data, e.end), f.t), e.data, e.end).0.p.s, e.end);
    } else {
      DoTrailerLedger(f.At(Encode), ResponseTrailers);
      FrameLedger(DoTrailer(Lane(Encode, f.enc.(seenTrailers := true), f.t), ResponseTrailers).0.p.s, false);
    }
  }

  lemma ParkedFrameLedger(f: FilterView, e: Event)
    requires LedgerInv(f) && f.waiting && (e.EncodeDataEvent? || e.EncodeTrailersEvent?)
    ensures LedgerInv(Step(f, e))
  {
    hide LedgerWith, Shown, DataCalls;
    if e.EncodeDataEvent? {
      ReceivedLedger(f.enc, e.data, e.end);
    }
  }

  lemma DecodeHeadersLedger(f: FilterView, end: bool)
    requires LedgerInv(f) && !f.entered && !f.waiting && !f.dec.replied
    ensures LedgerInv(OnDecodeHeaders(f, end))
  {
    hide LedgerWith, Shown, DataCalls, DoHeaders;
    var l := Lane(Decode, f.dec.(endStream := end, started := true), f.t);
    DoHeadersLedger(l, RequestHeaders, end);
    FrameLedger(DoHeaders(l, RequestHeaders, end).0.p.s, end);
  }

  lemma EnterEncodingLedger(f: FilterView, end: bool)
    requires LedgerInv(f.(entered := true)) && !f.waiting && !f.enc.replied
    ensures LedgerInv(EnterEncoding(f, end))
  {
    hide LedgerWith, Shown, DataCalls, DoHeaders;
    DoHeadersLedger(f.At(Encode), ResponseHeaders, end);
    FrameLedger(DoHeaders(f.At(Encode), ResponseHeaders, end).0.p.s, end);
  }

  lemma EncodeHeadersLedger(f: FilterView, end: bool)
    requires LedgerInv(f) && !f.entered && !f.waiting
    requires f.enc.state.WaitingHeader? && !f.enc.replied
    ensures LedgerInv(OnEncodeHeaders(f, end))
  {
    hide LedgerWith, Shown, DataCalls, EnterEncoding;
    DrainLedger(f.dec.s);
    ClearAllLedger(f.dec.s.Drain());
    var g := f.(enc := f.enc.(endStream := end, started := true));
    if f.dec.state.Done? {
      EnterEncodingLedger(g, end);
    } else if !f.dec.ProcessingInGo() {
      EnterEncodingLedger(g.WithStore(Decode, f.dec.s.Drain().ClearAll()), end);
    }
  }

  lemma ParkedReplyLedger(f: FilterView)
    requires LedgerInv(f) && f.waiting && !f.entered && f.localHeaders.Some? && !f.enc.replied
    ensures LedgerInv(ContinueEncodeLocalReply(f))
  {
    hide LedgerWith, Shown, DataCalls, ContinueStream, CallGo;
    ClearAllLedger(f.dec.s);
    var g := f.WithStore(Decode, f.dec.s.ClearAll()).(waiting := false, entered := true);
    var l := EncodeParkedHeaders(g);
    var t := (if g.localTrailers.Some? then g.t.(trailers := g.localTrailers) else g.t)
             .(hasReq := true, headers := g.localHeaders);
    CallGoBody(t, EncodeHeader, l.p.doEndStream, [], g.localHeaders, Decode);
    CallGoBody(t, EncodeHeader, l.p.doEndStream, [], g.localHeaders, Encode);
    ContinueStreamLedger(l, Answer(f.t));
  }

  lemma PostedLedger(f: FilterView)
    requires LedgerInv(f) && f.t.queue != []
    requires f.waiting && !f.destroyed ==> !f.entered && f.localHeaders.Some? && !f.enc.replied
    requires !f.waiting && !f.destroyed ==> !f.P(f.Cur()).replied
    ensures LedgerInv(OnPosted(f))
  {
    hide LedgerWith, Shown, DataCalls, ContinueStream, ContinueEncodeLocalReply;
    var g := f.(t := f.t.(queue := f.t.queue[1..]));
    if f.destroyed {
    } else if f.waiting {
      ParkedReplyLedger(g);
    } else if f.t.queue[0].Resume? {
      ContinueStreamLedger(g.At(g.Cur()), f.t.queue[0].status);
    } else {
      ClearAllLedger(f.P(f.Cur()).s);
      DrainLedger(f.P(f.Cur()).s.ClearAll());
    }
  }

  lemma StepLedger(f: FilterView, e: Event)
    requires Inv(f) && Enabled(f, e) && LedgerInv(f)
    ensures LedgerInv(Step(f, e))
  {
    hide Ledger, Shown, DataCalls;
    hide OnDecodeHeaders, OnDecodeData, OnDecodeTrailers, OnEncodeHeaders, OnEncodeData, OnEncodeTrailers, OnPosted;
    match e
    case DecodeHeadersEvent(end) => DecodeHeadersLedger(f, end);
    case DecodeDataEvent(_, _) => DecodeFrameLedger(f, e);
    case DecodeTrailersEvent => DecodeFrameLedger(f, e);
    case EncodeHeadersEvent(end) => EncodeHeadersLedger(f, end);
    case EncodeDataEvent(_, _) => if f.waiting { ParkedFrameLedger(f, e); } else { EncodeFrameLedger(f, e); }
    case EncodeTrailersEvent => if f.waiting { ParkedFrameLedger(f, e); } else { EncodeFrameLedger(f, e); }
    case DestroyEvent =>
    case PostedEvent => PostedLedger(f);
    case GoCompletesEvent(_) =>
  }

  // ---------- whole runs ----------

  lemma InitLedger(go: Oracle)
    ensures LedgerInv(InitFilter(go))
  {
  }

  /**
   After any run, in both directions: the received bytes are the chunks of the ledger followed by
   data_buffer_; the next filter received exactly the forwarded chunks, in order; doDataList holds
   exactly the held ones, and bytes_ is their total modulo 2^32; Go was called with exactly the
   chunks that are marked as shown.
   */
  lemma {:induction false} RunLedger(go: Oracle, run: Run)
    requires Valid(go, run)
    ensures LedgerInv(run.Last())
    decreases |run.events|
  {
    hide LedgerInv, Step, Inv, Enabled, LegalCalls;
    if run.events == [] {
      InitLedger(go);
    } else {
      DropLast(InitFilter(go), run);
      RunLedger(go, run.Before());
      RunSafe(go, run.Before());
      StepLedger(run.Before().Last(), run.LastEvent());
    }
  }
}
