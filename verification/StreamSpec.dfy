/**
 The transition functions of the filter: what each member function of BufferList, ProcessorState
 and Filter does to the values of their fields. The classes in StreamClasses are proved against
 these functions, and the properties of whole runs are proved about them.

 Fields that the program does not have, kept to state properties: recv and hist (the ledger of
 received bytes), out (what the next filter was given), calls, running, queue and reentered (the
 traffic with Go), fault (an ASSERT failed, a null data_buffer_ was dereferenced, an empty queue was
 popped, or a branch logged "unexpected state"), started and replied.
 */
module StreamSpec {
  import opened StreamTypes

  // ---------- BufferList ----------

  /** Arithmetic on a uint32_t. */
  function Wrap(n: int): nat { n % UINT32_SIZE }

  datatype ListView = ListView(queue: seq<Bytes>, bytes: nat) {
    /** empty(): decided by the byte counter, not by the queue. */
    predicate Empty() { bytes == 0 }

    function Push(data: Bytes): ListView {
      ListView(queue + [data], Wrap(bytes + |data|))
    }

    function ClearLatest(): ListView
      requires queue != []
    {
      ListView(queue[..|queue| - 1], Wrap(bytes - |queue[|queue| - 1]|))
    }
  }

  const EMPTY_LIST := ListView([], 0)

  /** The bytes of the queued buffers, in order: what moveOut appends to its argument. */
  function Flat(queue: seq<Bytes>): Bytes {
    if queue == [] then [] else Flat(queue[..|queue| - 1]) + queue[|queue| - 1]
  }

  lemma FlatSnoc(queue: seq<Bytes>, chunk: Bytes)
    ensures Flat(queue + [chunk]) == Flat(queue) + chunk
  {
    assert (queue + [chunk])[..|queue|] == queue;
  }

  // ---------- the ledger ----------

  function HistBytes(hist: seq<Piece>): Bytes {
    if hist == [] then [] else HistBytes(hist[..|hist| - 1]) + hist[|hist| - 1].bytes
  }

  /** The pieces with the given fate, in order. */
  function Select(hist: seq<Piece>, fate: Fate): seq<Bytes> {
    if hist == [] then []
    else
      var init, last := hist[..|hist| - 1], hist[|hist| - 1];
      if last.fate == fate then Select(init, fate) + [last.bytes] else Select(init, fate)
  }

  function SettlePiece(piece: Piece, fate: Fate): Piece {
    if piece.fate.Held? then piece.(fate := fate) else piece
  }

  /** Every held piece gets a new fate. */
  function Settle(hist: seq<Piece>, fate: Fate): seq<Piece> {
    if hist == [] then []
    else Settle(hist[..|hist| - 1], fate) + [SettlePiece(hist[|hist| - 1], fate)]
  }

  /** The chunk Go was last shown is dropped. */
  function DropLatest(hist: seq<Piece>): seq<Piece> {
    if hist == [] then [] else hist[..|hist| - 1] + [hist[|hist| - 1].(fate := Dropped(NoBufferAsked))]
  }

  /** Where the bytes of a direction are: data_buffer_, doDataList, past the filter, and the ledger. */
  datatype Store = Store(buffer: Option<Bytes>, list: ListView, out: seq<Frame>, recv: Bytes, hist: seq<Piece>) {
    /** The content of data_buffer_; a null buffer has none. */
    function Buffered(): Bytes {
      if buffer.Some? then buffer.value else []
    }

    predicate BufferEmpty() { Buffered() == [] }

    function TakeBuffer(): Store { this.(buffer := Some([])) }

    function AddBufferData(data: Bytes): Store { this.(buffer := Some(Buffered() + data)) }

    /** drainBufferData: the buffered bytes were never shown to Go and are thrown away. */
    function Drain(): Store {
      if BufferEmpty() then this
      else this.(buffer := Some([]), hist := hist + [Piece(buffer.value, false, Dropped(LocalReplyStarted))])
    }

    function Push(data: Bytes): Store {
      this.(list := list.Push(data), hist := hist + [Piece(data, true, Held)])
    }

    function ClearLatest(): Store
      requires list.queue != []
    {
      this.(list := list.ClearLatest(), hist := DropLatest(hist))
    }

    function ClearAll(): Store {
      this.(list := EMPTY_LIST, hist := Settle(hist, Dropped(LocalReplyStarted)))
    }

    /** moveOut: the list becomes empty, its bytes are Flat(list.queue). */
    function MoveOut(): Store {
      this.(list := EMPTY_LIST, hist := Settle(hist, Forwarded))
    }

    /** Headers leave the filter. */
    function SendHeaders(end: bool): Store { this.(out := out + [Headers(end)]) }

    /** Headers that are still pending go out first, without end_stream. */
    function Flushed(): seq<Frame> { if out == [] then [Headers(false)] else out }

    function SendData(data: Bytes, end: bool): Store { this.(out := Flushed() + [Data(data, end)]) }

    function SendTrailers(): Store { this.(out := Flushed() + [Trailers]) }

    /** The list leaves the filter in one data frame. */
    function SendList(end: bool): Store { MoveOut().SendData(Flat(list.queue), end) }
  }

  const INIT_STORE := Store(None, EMPTY_LIST, [], [], [])

  // ---------- ProcessorState ----------

  datatype ProcView = ProcView(
    state: FilterState,
    endStream: bool,
    doEndStream: bool,
    seenTrailers: bool,
    s: Store,
    started: bool,
    replied: bool,
    fault: bool)
  {
    predicate ProcessingInGo() {
      state.ProcessingHeader? || state.ProcessingData? || state.ProcessingTrailer?
    }

    predicate StreamEnd() { endStream || seenTrailers }

    function Check(ok: bool): ProcView { this.(fault := fault || !ok) }
  }

  const INIT_PROC := ProcView(WaitingHeader, false, false, false, INIT_STORE, false, false, false)

  /** state2Phase, shifted by three in the encode direction. */
  function PhaseOf(d: Direction, state: FilterState): Phase {
    match state
    case WaitingHeader | ProcessingHeader => if d.Decode? then DecodeHeader else EncodeHeader
    case WaitingData | WaitingAllData | ProcessingData => if d.Decode? then DecodeData else EncodeData
    case WaitingTrailer | ProcessingTrailer => if d.Decode? then DecodeTrailer else EncodeTrailer
    case Done => if d.Decode? then EncodeHeader else AllDone
  }

  function ProcessHeader(p: ProcView, end: bool): ProcView {
    p.(state := ProcessingHeader, doEndStream := end, fault := p.fault || !p.state.WaitingHeader?)
  }

  function ProcessData(p: ProcView, end: bool): ProcView {
    var ok := p.state.WaitingData? || (p.state.WaitingAllData? && (end || p.seenTrailers));
    p.(state := ProcessingData, doEndStream := end, fault := p.fault || !ok)
  }

  function ProcessTrailer(p: ProcView): ProcView {
    var ok := p.state.WaitingTrailer? || p.state.WaitingData? || p.state.WaitingAllData?;
    p.(state := ProcessingTrailer, doEndStream := true, fault := p.fault || !ok)
  }

  /** What came from Envoy stays as it came. */
  ghost predicate KeepsInput(p: ProcView, q: ProcView) {
    q.s.recv == p.s.recv && q.seenTrailers == p.seenTrailers && q.started == p.started
  }

  function HandleHeader(p: ProcView, status: GolangStatus): (r: (ProcView, bool))
    ensures KeepsInput(p, r.0)
  {
    var p := p.Check(p.state.ProcessingHeader?);
    match status
    case Continue => (p.(state := if p.doEndStream then Done else WaitingData), true)
    case StopAndBuffer => (p.(state := WaitingAllData), false)
    case StopAndBufferWatermark => (p.(state := WaitingData), false)
    case _ => (p, false)
  }

  /** clearLatest: the last buffer pushed is dropped; there must be one. */
  function ClearLatest(p: ProcView): (q: ProcView)
    ensures KeepsInput(p, q) && q.s.buffer == p.s.buffer
  {
    if p.s.list.queue == [] then p.Check(false) else p.(s := p.s.ClearLatest())
  }

  /** The state a status of Go moves a body to, trailers apart. */
  function AfterData(end: bool, status: GolangStatus): FilterState {
    match status
    case Running | LocalReply => ProcessingData
    case Continue => if end then Done else WaitingData
    case StopAndBuffer => WaitingAllData
    case StopAndBufferWatermark | StopNoBuffer => WaitingData
  }

  /** What a status that ends the processing of a chunk does, trailers apart. */
  function SettleData(p: ProcView, status: GolangStatus): (q: ProcView)
    ensures KeepsInput(p, q) && q.s.buffer == p.s.buffer
  {
    var q := if status.StopNoBuffer? then ClearLatest(p) else p;
    q.(state := AfterData(p.doEndStream, status))
  }

  function HandleData(p: ProcView, status: GolangStatus): (r: (ProcView, bool))
    ensures KeepsInput(p, r.0)
  {
    var p := p.Check(p.state.ProcessingData?);
    if status.LocalReply? || status.Running? then (p, false)
    else
      var q := SettleData(p, status);
      (if q.seenTrailers && q.s.BufferEmpty() then q.(state := WaitingTrailer) else q, status.Continue?)
  }

  function HandleTrailer(p: ProcView, status: GolangStatus): (r: (ProcView, bool))
    ensures KeepsInput(p, r.0)
  {
    var p := p.Check(p.state.ProcessingTrailer?);
    if status.Continue? then (p.(state := Done), true) else (p, false)
  }

  function HandleGolangStatus(p: ProcView, status: GolangStatus): (r: (ProcView, bool))
    ensures KeepsInput(p, r.0)
  {
    match p.state
    case ProcessingHeader => HandleHeader(p, status)
    case ProcessingData => HandleData(p, status)
    case ProcessingTrailer => HandleTrailer(p, status)
    case _ => (p.Check(false), false)
  }

  /** continueDecoding / continueEncoding, as the filter manager does them. */
  function ContinueProcessing(p: ProcView): (q: ProcView)
    ensures KeepsInput(p, q)
  {
    var s := if p.s.out == [] then p.s.SendHeaders(p.endStream && !p.seenTrailers) else p.s;
    p.(s := if p.seenTrailers then s.SendTrailers() else s)
  }

  function ContinueDoData(p: ProcView): (q: ProcView)
    ensures KeepsInput(p, q)
  {
    if !p.endStream && p.s.list.Empty() then p else p.(s := p.s.SendList(p.doEndStream))
  }

  // ---------- what the two directions share ----------

  /** The header pointers, the C request, and the traffic with Go. */
  datatype Traffic = Traffic(
    headers: Option<HeaderMap>,
    trailers: Option<HeaderMap>,
    hasReq: bool,
    go: Oracle,
    calls: seq<GoCall>,
    running: bool,
    queue: seq<Completion>,
    reentered: bool,
    fault: bool)
  {
    /** A call into Go whose completion has not been executed yet. */
    predicate Pending() { running || queue != [] }

    function Check(ok: bool): Traffic { this.(fault := fault || !ok) }
  }

  /** The ProcessorState& a member function of Filter is given, together with what it shares. */
  datatype Lane = Lane(d: Direction, p: ProcView, t: Traffic)

  function HeadersOf(d: Direction): HeaderMap {
    if d.Decode? then RequestHeaders else ResponseHeaders
  }

  function TrailersOf(d: Direction): HeaderMap {
    if d.Decode? then RequestTrailers else ResponseTrailers
  }

  predicate Async(status: GolangStatus) {
    status.Running? || status.LocalReply?
  }

  // ---------- handlers of one direction ----------

  /** The status Go returns from its next callback. */
  function Answer(t: Traffic): GolangStatus {
    t.go(|t.calls|)
  }

  /** Entering Go: the callback runs and returns; an asynchronous status leaves it outstanding. */
  function CallGo(t: Traffic, phase: Phase, end: bool, bytes: Bytes, headers: Option<HeaderMap>): Traffic {
    t.(calls := t.calls + [GoCall(phase, end, bytes, headers, Answer(t))],
       reentered := t.reentered || t.Pending(),
       running := t.running || Async(Answer(t)))
  }

  /** Calls into Go are only ever added, at most n of them, and nothing else of the environment changes. */
  ghost predicate Grows(l: Lane, g: Lane, n: nat) {
    && g.d == l.d && g.t.queue == l.t.queue
    && l.t.calls <= g.t.calls && |g.t.calls| <= |l.t.calls| + n
    && KeepsInput(l.p, g.p)
  }

  function DoHeadersGo(l: Lane, headers: HeaderMap, end: bool): (g: Lane)
    ensures Grows(l, g, 1)
  {
    var t := l.t.(hasReq := true, headers := Some(headers));
    l.(t := CallGo(t, PhaseOf(l.d, l.p.state), end, [], Some(headers)))
  }

  function DoHeaders(l: Lane, headers: HeaderMap, end: bool): (r: (Lane, bool))
    ensures Grows(l, r.0, 1)
  {
    var g := DoHeadersGo(l.(p := ProcessHeader(l.p.Check(l.p.s.BufferEmpty()), end)), headers, end);
    var (p, done) := HandleHeader(g.p, Answer(l.t));
    (Lane(l.d, p, if done then g.t.(headers := None) else g.t), done)
  }

  function DoDataGo(l: Lane, data: Bytes, end: bool): (r: (Lane, bool))
    ensures Grows(l, r.0, 1)
  {
    var p := ProcessData(l.p, end).(s := l.p.s.Push(data));
    var t := CallGo(l.t.Check(l.t.hasReq), PhaseOf(l.d, p.state), end, data, None);
    var (p, done) := HandleData(p, Answer(l.t));
    (Lane(l.d, p, t), done)
  }

  /** doDataGo on data_buffer_ itself, which it empties; a null buffer is a fault. */
  function DoBufferedDataGo(l: Lane, end: bool): (r: (Lane, bool))
    ensures Grows(l, r.0, 1)
  {
    if l.p.s.buffer.None? then (l.(p := l.p.Check(false)), false)
    else DoDataGo(l.(p := l.p.(s := l.p.s.TakeBuffer())), l.p.s.buffer.value, end)
  }

  /** addBufferData on the data_buffer_ of the direction. */
  function AddBufferData(l: Lane, data: Bytes): (g: Lane)
    ensures Grows(l, g, 0)
  {
    l.(p := l.p.(s := l.p.s.AddBufferData(data)))
  }

  /** All buffered data and the last chunk enter Go together. */
  function DoAllDataGo(l: Lane, data: Bytes): (r: (Lane, bool))
    ensures Grows(l, r.0, 1)
  {
    if l.p.s.BufferEmpty() then DoDataGo(l, data, true)
    else DoDataGo(l.(p := l.p.(s := l.p.s.TakeBuffer())), l.p.s.Buffered() + data, true)
  }

  function DoData(l: Lane, data: Bytes, end: bool): (r: (Lane, bool))
    ensures Grows(l, r.0, 1)
  {
    match l.p.state
    case WaitingData => DoDataGo(l, data, end)
    case WaitingAllData => if end then DoAllDataGo(l, data) else (AddBufferData(l, data), false)
    case ProcessingHeader | ProcessingData => (AddBufferData(l, data), false)
    case _ => (l.(p := l.p.Check(false)), false)
  }

  function DoTrailerGo(l: Lane, trailers: HeaderMap): (r: (Lane, bool))
    ensures Grows(l, r.0, 1)
  {
    var p := ProcessTrailer(l.p);
    var t := CallGo(l.t.Check(l.t.hasReq), PhaseOf(l.d, p.state), true, [], Some(trailers));
    var (p, done) := HandleTrailer(p, Answer(l.t));
    (Lane(l.d, p, t), done)
  }

  /** Trailers behind a body that is being buffered: the body enters Go first, without end_stream. */
  function DoAllDataTrailerGo(l: Lane, trailers: HeaderMap): (r: (Lane, bool))
    ensures Grows(l, r.0, 2)
  {
    var (l, done) := if l.p.s.BufferEmpty() then (l, false) else DoBufferedDataGo(l, false);
    if l.p.state.WaitingTrailer? then DoTrailerGo(l, trailers) else (l, done)
  }

  function DoTrailer(l: Lane, trailers: HeaderMap): (r: (Lane, bool))
    ensures Grows(l, r.0, 2)
  {
    var p := l.p.Check(!l.p.endStream && !l.p.doEndStream);
    var l := Lane(l.d, p, l.t.(trailers := Some(trailers)));
    match p.state
    case WaitingTrailer | WaitingData => DoTrailerGo(l, trailers)
    case WaitingAllData => DoAllDataTrailerGo(l, trailers)
    case ProcessingHeader | ProcessingData => (l, false)
    case _ => (l.(p := p.Check(false)), false)
  }

  /** The part of continueStatusInternal that forwards what Go has let through. */
  function ForwardDone(p: ProcView, saved: FilterState): (q: ProcView)
    ensures KeepsInput(p, q)
  {
    match saved
    case ProcessingHeader => if p.doEndStream || !p.StreamEnd() then ContinueProcessing(p) else p
    case ProcessingData => ContinueDoData(p)
    case ProcessingTrailer => ContinueProcessing(ContinueDoData(p))
    case _ => p.Check(false)
  }

  /** A direction in which Go waits for nothing but has data to look at. */
  predicate DataToResume(p: ProcView) {
    (p.state.WaitingData? && (!p.s.BufferEmpty() || p.endStream)) || (p.state.WaitingAllData? && p.StreamEnd())
  }

  /** The part of continueStatusInternal that hands Go the data that arrived meanwhile. */
  function ResumeData(l: Lane): (r: (Lane, bool))
    ensures Grows(l, r.0, 1)
  {
    if DataToResume(l.p) then
      var (l, done) := DoBufferedDataGo(l, l.p.endStream);
      (if done then l.(p := ContinueDoData(l.p)) else l, done)
    else (l, true)
  }

  /** The part of continueStatusInternal that hands Go the trailers that arrived meanwhile. */
  function ResumeTrailers(l: Lane): (g: Lane)
    ensures Grows(l, g, 1)
  {
    if l.p.state.WaitingTrailer? && l.t.trailers.Some? then
      var (l, done) := DoTrailerGo(l, l.t.trailers.value);
      if done then l.(p := ContinueProcessing(l.p)) else l
    else l
  }

  function ApplyStatus(p: ProcView, status: GolangStatus): (q: ProcView)
    ensures KeepsInput(p, q)
  {
    var (q, done) := HandleGolangStatus(p, status);
    if done then ForwardDone(q, p.state) else q
  }

  /** continueStatusInternal once no local reply of another filter is waiting. */
  function ContinueStream(l: Lane, status: GolangStatus): (g: Lane)
    ensures Grows(l, g, 2)
  {
    var (l, more) := ResumeData(l.(p := ApplyStatus(l.p, status)));
    if more then ResumeTrailers(l) else l
  }

  // ---------- Filter ----------

  datatype FilterView = FilterView(
    dec: ProcView,
    enc: ProcView,
    t: Traffic,
    localHeaders: Option<HeaderMap>,
    localTrailers: Option<HeaderMap>,
    destroyed: bool,
    destroyReason: Option<DestroyReason>,
    waiting: bool,
    entered: bool)
  {
    /** getProcessorState: the direction the filter is in. */
    function Cur(): Direction { if entered then Encode else Decode }

    function P(d: Direction): ProcView { if d.Decode? then dec else enc }

    function At(d: Direction): Lane { Lane(d, P(d), t) }

    function With(d: Direction, p: ProcView): FilterView {
      if d.Decode? then this.(dec := p) else this.(enc := p)
    }

    function WithStore(d: Direction, s: Store): FilterView { With(d, P(d).(s := s)) }

    function After(l: Lane): FilterView {
      if l.d.Decode? then this.(dec := l.p, t := l.t) else this.(enc := l.p, t := l.t)
    }

    /** Something went wrong in the Envoy-side code. */
    predicate Faulty() { t.fault || dec.fault || enc.fault }
  }

  function InitTraffic(go: Oracle): Traffic {
    Traffic(None, None, false, go, [], false, [], false, false)
  }

  function InitFilter(go: Oracle): FilterView {
    FilterView(INIT_PROC, INIT_PROC, InitTraffic(go), None, None, false, None, false, false)
  }

  /** continueEncodeLocalReply: the parked response headers enter Go, and its status is followed up. */
  function EncodeParkedHeaders(f: FilterView): Lane
    requires f.localHeaders.Some?
  {
    var end := f.enc.endStream && f.localTrailers.None? && f.enc.s.BufferEmpty();
    var t := if f.localTrailers.Some? then f.t.(trailers := f.localTrailers) else f.t;
    DoHeadersGo(Lane(Encode, ProcessHeader(f.enc, end), t), f.localHeaders.value, end)
  }

  /** What was shown to Go is dropped, and the filter turns to the encode direction. */
  function Release(f: FilterView): FilterView {
    f.WithStore(f.Cur(), f.P(f.Cur()).s.ClearAll()).(waiting := false, entered := true)
  }

  function ContinueEncodeLocalReply(f: FilterView): FilterView {
    var g := Release(f);
    if g.localHeaders.None? then g.(t := g.t.Check(false))
    else g.After(ContinueStream(EncodeParkedHeaders(g), Answer(f.t)))
  }

  function ContinueStatusInternal(f: FilterView, status: GolangStatus): FilterView {
    if f.waiting then ContinueEncodeLocalReply(f)
    else f.After(ContinueStream(f.At(f.Cur()), status))
  }

  /** Everything held is dropped, and Envoy is asked to send the reply. */
  function EndWithReply(d: Direction, p: ProcView): ProcView {
    p.(s := p.s.ClearAll().Drain(), state := if d.Decode? then WaitingHeader else p.state, replied := true)
  }

  function SendLocalReplyInternal(f: FilterView): FilterView {
    if f.waiting then ContinueEncodeLocalReply(f)
    else
      f.With(f.Cur(), EndWithReply(f.Cur(), f.P(f.Cur())))
  }

  // ---------- events of the Envoy worker thread ----------

  /** A data frame arrives: end_stream is recorded and the bytes are counted in. */
  function Received(p: ProcView, data: Bytes, end: bool): ProcView {
    p.(endStream := end, s := p.s.(recv := p.s.recv + data))
  }

  function OnDecodeHeaders(f: FilterView, end: bool): FilterView {
    var p := f.dec.(endStream := end, started := true);
    var (l, done) := DoHeaders(Lane(Decode, p, f.t), RequestHeaders, end);
    f.After(if done then l.(p := l.p.(s := l.p.s.SendHeaders(end))) else l)
  }

  function OnDecodeData(f: FilterView, data: Bytes, end: bool): FilterView {
    var p := Received(f.dec, data, end);
    var (l, done) := DoData(Lane(Decode, p, f.t), data, end);
    f.After(if done then l.(p := l.p.(s := l.p.s.SendList(end))) else l)
  }

  function OnDecodeTrailers(f: FilterView): FilterView {
    var (l, done) := DoTrailer(Lane(Decode, f.dec.(seenTrailers := true), f.t), RequestTrailers);
    f.After(if done then l.(p := l.p.(s := l.p.s.SendTrailers())) else l)
  }

  /** The filter turns to the encode direction. */
  function EnterEncoding(f: FilterView, end: bool): FilterView {
    var (l, done) := DoHeaders(f.At(Encode), ResponseHeaders, end);
    f.(entered := true).After(if done then l.(p := l.p.(s := l.p.s.SendHeaders(end))) else l)
  }

  /** Go holds the current direction: the response is parked until it lets go. */
  function Park(f: FilterView): FilterView {
    f.WithStore(f.Cur(), f.P(f.Cur()).s.Drain()).(waiting := true, localHeaders := Some(ResponseHeaders))
  }

  /** Nobody will ask for what the current direction still holds. */
  function Abandon(f: FilterView): FilterView {
    f.WithStore(f.Cur(), f.P(f.Cur()).s.Drain().ClearAll())
  }

  /** The response starts, whatever the current direction is doing. */
  function OnEncodeHeaders(f: FilterView, end: bool): FilterView {
    var f := f.(enc := f.enc.(endStream := end, started := true));
    var p := f.P(f.Cur());
    if p.state.Done? then EnterEncoding(f, end)
    else if p.ProcessingInGo() then Park(f)
    else EnterEncoding(Abandon(f), end)
  }

  /** What the list of the current direction holds leaves as response data. */
  function ForwardEncoded(f: FilterView, end: bool): FilterView {
    var g := f.WithStore(f.Cur(), f.P(f.Cur()).s.MoveOut());
    g.WithStore(Encode, g.enc.s.SendData(Flat(f.P(f.Cur()).s.list.queue), end))
  }

  function OnEncodeData(f: FilterView, data: Bytes, end: bool): FilterView {
    var p := Received(f.enc, data, end);
    if f.waiting then f.(enc := p.(s := p.s.AddBufferData(data)))
    else
      var (l, done) := DoData(Lane(Encode, p, f.t), data, end);
      if done then ForwardEncoded(f.After(l), end) else f.After(l)
  }

  function OnEncodeTrailers(f: FilterView): FilterView {
    var p := f.enc.(seenTrailers := true);
    if f.waiting then f.(enc := p, localTrailers := Some(ResponseTrailers))
    else
      var (l, done) := DoTrailer(Lane(Encode, p, f.t), ResponseTrailers);
      f.After(if done then l.(p := l.p.(s := l.p.s.SendTrailers())) else l)
  }

  function OnDestroy(f: FilterView): FilterView {
    if f.destroyed then f
    else
      var reason := if f.P(f.Cur()).ProcessingInGo() then Terminate else Normal;
      f.(t := f.t.Check(f.t.hasReq), destroyed := true, destroyReason := Some(reason))
  }

  /** Running the posted event at the head of the dispatcher's queue. */
  function OnPosted(f: FilterView): FilterView
    requires f.t.queue != []
  {
    var g := f.(t := f.t.(queue := f.t.queue[1..]));
    if f.destroyed then g
    else
      match f.t.queue[0]
      case Resume(status) => ContinueStatusInternal(g, status)
      case Reply => SendLocalReplyInternal(g)
  }

  // ---------- events of the Go side ----------

  /** continueStatus and sendLocalReply as Go calls them: the completion is posted or refused. */
  function GoCompletes(f: FilterView, c: Completion): (FilterView, CAPIStatus) {
    var g := f.(t := f.t.(running := false));
    if f.destroyed then (g, CAPIFilterIsDestroy)
    else if !f.P(f.Cur()).ProcessingInGo() then (g, CAPINotInGo)
    else (g.(t := g.t.(queue := g.t.queue + [c])), CAPIOK)
  }
}
