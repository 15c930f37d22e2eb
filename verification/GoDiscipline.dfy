/**
 The filter together with the Go code it calls, where any callback, goroutine or OnDestroy may panic. That
 every callback is completed once is what runs of the filter assume; here recovery is shown to provide it.
 Recovery is not atomic: it reads safePanic, sets it, calls sendLocalReply and clears it again, while the
 worker thread and other Go code go on.
 */
module GoDiscipline {
  import opened StreamTypes
  import opened StreamSpec
  import opened StreamRuns
  import opened StreamSafety
  import opened StreamDestroy
  import opened StreamProtocol
  import opened StreamTransparency
  import opened StreamWitnesses
  import opened BufferedAdapter
  import opened GoRequest

  // ---------- runs of the filter with its request ----------

  /**
   The recovery of the Go code that owes a completion: none is under way; it found safePanic unset; it has
   set it and is about to reply; its reply was refused.
   */
  datatype Code = Free | Checked | Replying | Refused

  /**
   onDestroy: not begun; between has_destroyed_ and the end of OnDestroy; recovery found safePanic unset;
   its reply was refused; OnDestroy ended with a panic that recovery swallows; it returned.
   */
  datatype Ending = NotBegun | Inside | Doubtful | Rebuffed | Swallowed | Returned

  /**
   The filter, the marks of its Go request, the completions the filter has accepted, the stages above, and
   whether code whose safe reply was accepted is still about to clear safePanic.
   */
  datatype Process = Process(f: FilterView, r: Recovery, paid: nat, code: Code, ending: Ending, leaving: bool)

  /**
   An event of Envoy. The Go code that owes a completion makes it, or ends with e before; if recovery takes
   that seriously, it goes on in three steps. OnDestroy ends with e; its safe reply is refused. A callback
   that panics before it returns is one that answers Running and then ends: that is what the C side sees.
   */
  datatype Move =
    | Envoy(event: Event)
    | CodeEnds(e: Panic, c: Completion)
    | CodeSets
    | CodeReplies
    | CodeLeaves
    | DestroyEnds(e: Panic)
    | DestroyReplies

  /** Panics come from a refused call of the filter API, or from anywhere else in Go. */
  ghost predicate Raised(f: FilterView, e: Panic) {
    e.NoPanic? || e.OtherPanic? || exists call :: e == PanicOf(ApiStatus(f, call))
  }

  /** The worker thread is in moeOnHttpDestroy. */
  predicate Destroying(p: Process) {
    p.ending.Inside? || p.ending.Doubtful?
  }

  /** A panic of recovery itself ends the process. */
  ghost predicate Possible(p: Process, m: Move) {
    && !p.r.crashed
    && match m
       case Envoy(e) => !e.GoCompletesEvent? && !Destroying(p) && Enabled(p.f, e)
       case CodeEnds(e, c) => p.code.Free? && p.f.t.running && LegalCompletion(p.f.t.calls, c) && Raised(p.f, e)
       case CodeSets => p.code.Checked?
       case CodeReplies => p.code.Replying?
       case CodeLeaves => p.leaving
       case DestroyEnds(e) => p.ending.Inside? && Raised(p.f, e)
       case DestroyReplies => p.ending.Doubtful?
  }

  /** A panic that recovery does not answer: at most it marks the request. */
  function Swallow(r: Recovery, e: Panic): Recovery {
    if e.NotInGo? then r.(paniced := true) else r
  }

  /** The Go code calls the C side for its completion, and is gone. */
  function Completed(p: Process, c: Completion): (Process, CAPIStatus) {
    var (g, status) := GoCompletes(p.f, c);
    (p.(f := g, r := Swallow(p.r, PanicOf(status)), paid := if status.CAPIOK? then p.paid + 1 else p.paid), status)
  }

  function Next(p: Process, m: Move): Process {
    match m
    case Envoy(e) => p.(f := Step(p.f, e), ending := if e.DestroyEvent? then Inside else p.ending)
    case CodeEnds(e, c) =>
      if e.NoPanic? then Completed(p, c).0
      else if !Serious(e) then p.(f := p.f.(t := p.f.t.(running := false)), r := Swallow(p.r, e))
      else if p.r.safePanic then p.(r := p.r.(crashed := true))
      else p.(code := Checked)
    case CodeSets => p.(r := p.r.(safePanic := true), code := Replying)
    case CodeReplies =>
      var (q, status) := Completed(p, Reply);
      if status.CAPIOK? then q.(code := Free, leaving := true) else q.(code := Refused)
    case CodeLeaves => p.(r := p.r.(safePanic := false), leaving := false)
    case DestroyEnds(e) =>
      if e.NoPanic? then p.(ending := Returned)
      else if !Serious(e) then p.(r := Swallow(p.r, e), ending := Swallowed)
      else if p.r.safePanic then p.(r := p.r.(crashed := true))
      else p.(ending := Doubtful)
    case DestroyReplies => p.(r := p.r.(safePanic := true), ending := Rebuffed)
  }

  /** What the filter makes of a move: Go code that panics completes with a local reply. */
  function EventOf(m: Move): Option<Event> {
    match m
    case Envoy(e) => Some(e)
    case CodeEnds(e, c) => if Serious(e) then None else Some(GoCompletesEvent(if e.NoPanic? then c else Reply))
    case CodeReplies => Some(GoCompletesEvent(Reply))
    case _ => None
  }

  ghost predicate Moves(p: Process, m: Move, q: Process) {
    && Possible(p, m) && q == Next(p, m) && LegalCalls(q.f.t.calls)
    && (m.Envoy? ==> !GoesWrong(p.f, m.event))
  }

  datatype ProcessRun = ProcessRun(moves: seq<Move>, states: seq<Process>) {
    predicate Shaped() { |states| == |moves| + 1 }

    function Last(): Process
      requires Shaped()
    {
      states[|moves|]
    }

    function Before(): ProcessRun
      requires Shaped() && moves != []
    {
      ProcessRun(moves[..|moves| - 1], states[..|moves|])
    }

    function LastMove(): Move
      requires moves != []
    {
      moves[|moves| - 1]
    }

    /** What the filter sees of the run. */
    function Plain(): Run
      requires Shaped()
      decreases |moves|
    {
      if moves == [] then Run([], [states[0].f])
      else
        var plain := Before().Plain();
        match EventOf(LastMove())
        case None => plain
        case Some(e) => Run(plain.events + [e], plain.states + [Last().f])
    }
  }

  const UNMARKED := Recovery(false, false, false)

  function InitProcess(go: Oracle): Process {
    Process(InitFilter(go), UNMARKED, 0, Free, NotBegun, false)
  }

  ghost predicate ValidProcess(go: Oracle, run: ProcessRun) {
    && run.Shaped() && run.states[0] == InitProcess(go)
    && forall i {:trigger run.moves[i], run.states[i]} :: 0 <= i < |run.moves| ==>
         Moves(run.states[i], run.moves[i], run.states[i + 1])
  }

  lemma EnvoyMoves(p: Process, e: Event, g: FilterView)
    requires Link(p.f, e, g) && !e.GoCompletesEvent? && !Destroying(p) && !p.r.crashed
    ensures Moves(p, Envoy(e), p.(f := g, ending := if e.DestroyEvent? then Inside else p.ending))
  {
    hide Step;
  }

  lemma DropMove(go: Oracle, run: ProcessRun)
    requires ValidProcess(go, run) && run.moves != []
    ensures ValidProcess(go, run.Before()) && Moves(run.Before().Last(), run.LastMove(), run.Last())
  {
    hide Moves, InitProcess;
    var n := |run.moves| - 1;
    assert run.moves[n] == run.LastMove();
    forall i | 0 <= i < n
      ensures Moves(run.Before().states[i], run.Before().moves[i], run.Before().states[i + 1])
    {
      assert run.moves[i] == run.Before().moves[i];
    }
  }

  // ---------- recovery in one piece ----------

  /** Undisturbed, the steps of recovery do what recovery does when nothing else runs. */
  lemma StepsMakeGoEnd(p: Process, e: Panic, c: Completion)
    requires !p.r.safePanic && !p.r.crashed && !p.leaving && p.code.Free?
    ensures var q := Next(p, CodeEnds(e, c));
            if !Serious(e) then (q.f, q.r) == GoEnd(p.f, p.r, e, c)
            else
              var x := Next(Next(q, CodeSets), CodeReplies);
              var y := if x.leaving then Next(x, CodeLeaves) else x;
              (y.f, y.r) == GoEnd(p.f, p.r, e, c)
  {
  }

  // ---------- recovery provides the discipline ----------

  /** Somebody else's safe reply is under way, or was refused. */
  predicate Busy(p: Process) {
    p.leaving || p.code.Replying? || p.code.Refused? || p.ending.Rebuffed?
  }

  /** The stages fit the filter, and safePanic is set exactly while a safe reply is under way or refused. */
  predicate Fit(p: Process) {
    && (p.ending.NotBegun? <==> !p.f.destroyed)
    && (p.code.Checked? || p.code.Replying? ==> p.f.t.running && p.f.t.calls != [])
    && (p.code.Refused? ==> p.f.destroyed && !p.f.t.running)
    && (p.leaving ==> p.code.Free? && !p.ending.Doubtful? && !p.ending.Rebuffed?)
    && !p.r.paniced && (p.r.safePanic <==> Busy(p))
  }

  /** Go code that the filter still waits for sees no refusal, so every panic of it is answered. */
  lemma HeldRaises(f: FilterView, e: Panic)
    requires Inv(f) && !f.destroyed && f.t.running && Raised(f, e)
    ensures e.NoPanic? || Serious(e)
  {
    hide Inv;
    HeldApi(f, Reply);
  }

  /** Go code of a destroyed filter is only refused as destroyed. */
  lemma LateRaises(f: FilterView, e: Panic)
    requires f.destroyed && Raised(f, e)
    ensures !e.NotInGo?
  {
  }

  /** Go code that the filter waits for makes exactly one completion, which is accepted. */
  lemma PaysOnce(p: Process, c: Completion)
    requires Inv(p.f) && !p.f.destroyed && p.f.t.running
    ensures var (q, status) := Completed(p, c);
            && status == CAPIOK && q == p.(f := Step(p.f, GoCompletesEvent(c)), paid := p.paid + 1)
            && p.f.t.queue == [] && q.f.t.queue == [c] && !q.f.t.running && q.f.t.calls == p.f.t.calls
            && !q.f.destroyed
  {
    hide Inv;
    HeldQueue(p.f);
    HeldApi(p.f, c);
    assert [] + [c] == [c];
  }

  /** Code that ends after the filter was destroyed completes nothing. */
  lemma PaysLate(p: Process, c: Completion)
    requires p.f.destroyed
    ensures var (q, status) := Completed(p, c);
            && status == CAPIFilterIsDestroy && q == p.(f := p.f.(t := p.f.t.(running := false)))
            && q.f == Step(p.f, GoCompletesEvent(c))
  {
  }

  /** Whatever such code ends with, undisturbed recovery makes one completion of it, and leaves no mark. */
  lemma EndsOnce(f: FilterView, e: Panic, c: Completion)
    requires Inv(f) && !f.destroyed && f.t.running && Raised(f, e)
    ensures var paid := if e.NoPanic? then c else Reply;
            && GoEnd(f, UNMARKED, e, c) == (GoCompletes(f, paid).0, UNMARKED)
            && f.t.queue == [] && GoCompletes(f, paid).0.t.queue == [paid]
  {
    hide Inv, Raised;
    HeldRaises(f, e);
    HeldQueue(f);
    HeldApi(f, c);
    HeldApi(f, Reply);
    assert forall d: Completion :: [] + [d] == [d];
  }

  lemma MoveRefines(p: Process, m: Move, q: Process)
    requires Inv(p.f) && Fit(p) && Moves(p, m, q)
    ensures match EventOf(m) case None => q.f == p.f case Some(e) => Link(p.f, e, q.f)
    ensures Fit(q)
  {
    match m
    case Envoy(e) => EnvoyRefines(p, e);
    case CodeEnds(e, c) => CodeRefines(p, e, c);
    case CodeReplies => RepliesRefines(p);
    case DestroyEnds(e) => LateRaises(p.f, e);
    case _ =>
  }

  lemma MoveKeeps(p: Process, m: Move, q: Process)
    requires Inv(p.f) && Fit(p) && Moves(p, m, q)
    ensures Inv(q.f) && Fit(q)
  {
    hide Inv, Fit, Moves, Step, Enabled, LegalCalls;
    MoveRefines(p, m, q);
    match EventOf(m)
    case None =>
    case Some(e) => StepKeeps(p.f, e);
  }

  lemma EnvoyRefines(p: Process, e: Event)
    requires Inv(p.f) && Fit(p) && Moves(p, Envoy(e), Next(p, Envoy(e)))
    ensures Link(p.f, e, Next(p, Envoy(e)).f) && Fit(Next(p, Envoy(e)))
  {
    hide Inv, OnPosted, GoesWrong;
    if !e.DestroyEvent? { StaysLive(p.f, e); }
    KeepsRunning(p.f, e);
  }

  /** What Envoy does neither ends Go code nor takes back a call; nothing starts on a destroyed filter. */
  lemma KeepsRunning(f: FilterView, e: Event)
    requires Inv(f) && Enabled(f, e) && !e.GoCompletesEvent?
    ensures f.t.running ==> Step(f, e).t.running
    ensures f.t.calls != [] ==> Step(f, e).t.calls != []
    ensures f.destroyed ==> Step(f, e).t.running == f.t.running
  {
    hide Inv, OnPosted;
    if f.destroyed { DestroyedKeeps(f, e); }
    EnteredBegan(f);
    StepEntersGo(f, e);
    StepBalances(f, e);
  }

  lemma CodeRefines(p: Process, e: Panic, c: Completion)
    requires Inv(p.f) && Fit(p) && Moves(p, CodeEnds(e, c), Next(p, CodeEnds(e, c)))
    ensures var q := Next(p, CodeEnds(e, c));
            if Serious(e) then q.f == p.f else Link(p.f, GoCompletesEvent(if e.NoPanic? then c else Reply), q.f)
    ensures Fit(Next(p, CodeEnds(e, c)))
  {
    hide Inv, Raised, GoCompletes;
    if p.f.destroyed {
      LateRaises(p.f, e);
      PaysLate(p, c);
      PaysLate(p, Reply);
    } else {
      HeldRaises(p.f, e);
      PaysOnce(p, c);
    }
  }

  lemma RepliesRefines(p: Process)
    requires Inv(p.f) && Fit(p) && Moves(p, CodeReplies, Next(p, CodeReplies))
    ensures Link(p.f, GoCompletesEvent(Reply), Next(p, CodeReplies).f) && Fit(Next(p, CodeReplies))
  {
    hide Inv, GoCompletes;
    if p.f.destroyed { PaysLate(p, Reply); } else { PaysOnce(p, Reply); }
  }

  lemma StaysLive(f: FilterView, e: Event)
    requires !e.DestroyEvent?
    ensures Step(f, e).destroyed == f.destroyed
  {
    hide ContinueStream, DoHeaders, DoData, DoTrailer, OnPosted, OnEncodeHeaders;
    match e
    case PostedEvent => if f.t.queue != [] { PostedStaysLive(f); }
    case EncodeHeadersEvent(end) => ResponseStaysLive(f, end);
    case _ =>
  }

  lemma PostedStaysLive(f: FilterView)
    requires f.t.queue != []
    ensures OnPosted(f).destroyed == f.destroyed
  {
    hide ContinueStream, EncodeParkedHeaders, EndWithReply;
  }

  lemma ResponseStaysLive(f: FilterView, end: bool)
    ensures OnEncodeHeaders(f, end).destroyed == f.destroyed
  {
    hide EnterEncoding, Store.Drain, Store.ClearAll;
    var g := f.(enc := f.enc.(endStream := end, started := true));
    EnteringStaysLive(g, end);
    EnteringStaysLive(Abandon(g), end);
  }

  lemma EnteringStaysLive(f: FilterView, end: bool)
    ensures EnterEncoding(f, end).destroyed == f.destroyed
  {
    hide DoHeaders;
  }

  lemma EnteredBegan(f: FilterView)
    requires Inv(f)
    ensures f.entered ==> f.enc.started
  {
  }

  /**
   Whatever panics, and however recovery is interleaved, the filter sees a run of the kind all theorems
   about runs are about: each callback is completed once. And safePanic tells exactly whether a safe reply
   is under way or was refused, while the request is never marked as panicked.
   */
  lemma {:induction false} RunRefines(go: Oracle, run: ProcessRun)
    requires ValidProcess(go, run)
    ensures Valid(go, run.Plain()) && run.Plain().Last() == run.Last().f
    ensures Fit(run.Last())
    decreases |run.moves|
  {
    hide Moves, Link, InitFilter, Fit;
    if run.moves == [] {
      InitFit(go);
      var run0 := Start(go);
      assert run.Plain() == run0;
    } else {
      DropMove(go, run);
      var before := run.Before();
      RunRefines(go, before);
      RunSafe(go, before.Plain());
      MoveRefines(before.Last(), run.LastMove(), run.Last());
      match EventOf(run.LastMove())
      case None =>
      case Some(e) =>
        var longer := Extend(go, before.Plain(), e, run.Last().f);
        assert longer == run.Plain();
    }
  }

  lemma InitFit(go: Oracle)
    ensures Fit(InitProcess(go)) && InitProcess(go).f == InitFilter(go)
  {
  }

  // ---------- one completion for each callback that owes one ----------

  /** How many callbacks did not return a plain status. */
  function Owed(calls: seq<GoCall>): nat {
    if calls == [] then 0
    else Owed(calls[..|calls| - 1]) + if Async(calls[|calls| - 1].answer) then 1 else 0
  }

  function Outstanding(t: Traffic): nat {
    if t.running then 1 else 0
  }

  /** A callback owes a completion exactly if it leaves Go outstanding, and ends nothing that was. */
  ghost predicate Balanced(t: Traffic, u: Traffic) {
    && (t.reentered ==> u.reentered) && (t.running ==> u.running)
    && (u.reentered || Owed(u.calls) - Outstanding(u) == Owed(t.calls) - Outstanding(t))
  }

  lemma CallBalances(t: Traffic, phase: Phase, end: bool, bytes: Bytes, headers: Option<HeaderMap>)
    ensures Balanced(t, CallGo(t, phase, end, bytes, headers))
  {
    var c := GoCall(phase, end, bytes, headers, Answer(t));
    assert (t.calls + [c])[..|t.calls|] == t.calls;
  }

  lemma HeadersBalance(l: Lane, headers: HeaderMap, end: bool)
    ensures Balanced(l.t, DoHeadersGo(l, headers, end).t)
  {
    hide CallGo, Owed;
    CallBalances(l.t.(hasReq := true, headers := Some(headers)), PhaseOf(l.d, l.p.state), end, [], Some(headers));
  }

  lemma DoHeadersBalances(l: Lane, headers: HeaderMap, end: bool)
    ensures Balanced(l.t, DoHeaders(l, headers, end).0.t)
  {
    hide DoHeadersGo, HandleHeader, Owed;
    HeadersBalance(l.(p := ProcessHeader(l.p.Check(l.p.s.BufferEmpty()), end)), headers, end);
  }

  lemma DataBalances(l: Lane, data: Bytes, end: bool)
    ensures Balanced(l.t, DoDataGo(l, data, end).0.t)
  {
    hide CallGo, HandleData, Owed;
    CallBalances(l.t.Check(l.t.hasReq), PhaseOf(l.d, ProcessingData), end, data, None);
  }

  lemma TrailersBalance(l: Lane, trailers: HeaderMap)
    ensures Balanced(l.t, DoTrailerGo(l, trailers).0.t)
  {
    hide CallGo, HandleTrailer, Owed;
    CallBalances(l.t.Check(l.t.hasReq), PhaseOf(l.d, ProcessingTrailer), true, [], Some(trailers));
  }

  lemma BufferedBalances(l: Lane, end: bool)
    ensures Balanced(l.t, DoBufferedDataGo(l, end).0.t)
  {
    hide DoDataGo, Owed;
    if l.p.s.buffer.Some? {
      DataBalances(l.(p := l.p.(s := l.p.s.TakeBuffer())), l.p.s.buffer.value, end);
    }
  }

  lemma DoDataBalances(l: Lane, data: Bytes, end: bool)
    ensures Balanced(l.t, DoData(l, data, end).0.t)
  {
    hide DoDataGo, Owed;
    DataBalances(l, data, end);
    DataBalances(l, data, true);
    DataBalances(l.(p := l.p.(s := l.p.s.TakeBuffer())), l.p.s.Buffered() + data, true);
  }

  lemma DoTrailerBalances(l: Lane, trailers: HeaderMap)
    ensures Balanced(l.t, DoTrailer(l, trailers).0.t)
  {
    hide DoTrailerGo, DoAllDataTrailerGo, Owed;
    var p := l.p.Check(!l.p.endStream && !l.p.doEndStream);
    var l0 := Lane(l.d, p, l.t.(trailers := Some(trailers)));
    TrailersBalance(l0, trailers);
    WholeBalances(l0, trailers);
  }

  lemma WholeBalances(l: Lane, trailers: HeaderMap)
    ensures Balanced(l.t, DoAllDataTrailerGo(l, trailers).0.t)
  {
    hide DoTrailerGo, DoBufferedDataGo, Owed;
    BufferedBalances(l, false);
    TrailersBalance(l, trailers);
    TrailersBalance(DoBufferedDataGo(l, false).0, trailers);
  }

  lemma StreamBalances(l: Lane, status: GolangStatus)
    ensures Balanced(l.t, ContinueStream(l, status).t)
  {
    hide DoTrailerGo, DoBufferedDataGo, ApplyStatus, ContinueDoData, ContinueProcessing, Owed;
    var l1 := l.(p := ApplyStatus(l.p, status));
    BufferedBalances(l1, l1.p.endStream);
    var (l2, more) := ResumeData(l1);
    if more && l2.t.trailers.Some? { TrailersBalance(l2, l2.t.trailers.value); }
  }

  lemma ReleaseBalances(f: FilterView)
    ensures Balanced(f.t, ContinueEncodeLocalReply(f).t)
  {
    hide DoHeadersGo, ContinueStream, Store.ClearAll, Owed;
    var g := Release(f);
    if g.localHeaders.Some? {
      var end := g.enc.endStream && g.localTrailers.None? && g.enc.s.BufferEmpty();
      var t := if g.localTrailers.Some? then g.t.(trailers := g.localTrailers) else g.t;
      HeadersBalance(Lane(Encode, ProcessHeader(g.enc, end), t), g.localHeaders.value, end);
      StreamBalances(EncodeParkedHeaders(g), Answer(f.t));
    }
  }

  lemma FrameBalances(f: FilterView, e: Event)
    requires IsFrame(e)
    ensures Balanced(f.t, Step(f, e).t)
  {
    hide DoHeaders, DoData, DoTrailer, OnEncodeHeaders, Owed, Balanced;
    match e
    case DecodeHeadersEvent(end) =>
      DoHeadersBalances(Lane(Decode, f.dec.(endStream := end, started := true), f.t), RequestHeaders, end);
    case DecodeDataEvent(data, end) => DoDataBalances(Lane(Decode, Received(f.dec, data, end), f.t), data, end);
    case DecodeTrailersEvent => DoTrailerBalances(Lane(Decode, f.dec.(seenTrailers := true), f.t), RequestTrailers);
    case EncodeHeadersEvent(end) => ResponseBalances(f, end);
    case EncodeDataEvent(data, end) =>
      NothingBalances(f.t);
      DoDataBalances(Lane(Encode, Received(f.enc, data, end), f.t), data, end);
    case EncodeTrailersEvent =>
      NothingBalances(f.t);
      DoTrailerBalances(Lane(Encode, f.enc.(seenTrailers := true), f.t), ResponseTrailers);
  }

  lemma NothingBalances(t: Traffic)
    ensures Balanced(t, t)
  {
  }

  lemma ResponseBalances(f: FilterView, end: bool)
    ensures Balanced(f.t, OnEncodeHeaders(f, end).t)
  {
    hide EnterEncoding, Store.Drain, Store.ClearAll, Owed;
    var g := f.(enc := f.enc.(endStream := end, started := true));
    EnteringBalances(g, end);
    EnteringBalances(Abandon(g), end);
  }

  lemma EnteringBalances(f: FilterView, end: bool)
    ensures Balanced(f.t, EnterEncoding(f, end).t)
  {
    hide DoHeaders, Owed, Balanced;
    DoHeadersBalances(f.At(Encode), ResponseHeaders, end);
  }

  lemma PostedBalances(f: FilterView)
    requires f.t.queue != []
    ensures Balanced(f.t, OnPosted(f).t)
  {
    hide ContinueStream, ContinueEncodeLocalReply, EndWithReply, Owed;
    var g := f.(t := f.t.(queue := f.t.queue[1..]));
    if !f.destroyed {
      ReleaseBalances(g);
      if f.t.queue[0].Resume? { StreamBalances(g.At(g.Cur()), f.t.queue[0].status); }
    }
  }

  lemma StepBalances(f: FilterView, e: Event)
    requires !e.GoCompletesEvent?
    ensures Balanced(f.t, Step(f, e).t)
  {
    hide OnPosted, Owed;
    if e.PostedEvent? {
      if f.t.queue != [] { PostedBalances(f); }
    } else if !e.DestroyEvent? {
      FrameBalances(f, e);
    }
  }

  /** Every callback that owes a completion has paid it or still may; none has paid twice. */
  predicate Even(p: Process) {
    && p.paid + Outstanding(p.f.t) <= Owed(p.f.t.calls)
    && (!p.f.destroyed ==> p.paid + Outstanding(p.f.t) == Owed(p.f.t.calls))
  }

  lemma MovePays(p: Process, m: Move, q: Process)
    requires Inv(p.f) && Inv(q.f) && Fit(p) && Even(p) && Moves(p, m, q)
    ensures Even(q)
  {
    hide Inv, Raised, GoesWrong, OnPosted, Owed, Completed;
    match m
    case Envoy(e) =>
      EnvoyPays(p, e);
    case CodeEnds(e, c) =>
      if p.f.destroyed { PaysLate(p, c); } else { HeldRaises(p.f, e); PaysOnce(p, c); }
    case CodeReplies =>
      if p.f.destroyed { PaysLate(p, Reply); } else { PaysOnce(p, Reply); }
    case _ =>
  }

  lemma EnvoyPays(p: Process, e: Event)
    requires Inv(Step(p.f, e)) && Even(p) && !e.GoCompletesEvent?
    ensures Even(Next(p, Envoy(e)))
  {
    hide OnPosted, Owed;
    StepBalances(p.f, e);
    if !e.DestroyEvent? { StaysLive(p.f, e); }
  }

  /**
   As long as the filter lives, the completions it has accepted are as many as the callbacks that owed one,
   less the one that is still outstanding, whatever panicked; at no time are they more.
   */
  lemma {:induction false} RunDisciplined(go: Oracle, run: ProcessRun)
    requires ValidProcess(go, run)
    ensures var p := run.Last();
            && p.paid + Outstanding(p.f.t) <= Owed(p.f.t.calls)
            && (!p.f.destroyed ==> p.paid + Outstanding(p.f.t) == Owed(p.f.t.calls))
    decreases |run.moves|
  {
    hide Moves, Link, InitFilter, Inv, Owed, Fit;
    RunRefines(go, run);
    RunSafe(go, run.Plain());
    if run.moves == [] {
      InitEven(go);
    } else {
      DropMove(go, run);
      RunDisciplined(go, run.Before());
      RunRefines(go, run.Before());
      RunSafe(go, run.Before().Plain());
      MovePays(run.Before().Last(), run.LastMove(), run.Last());
    }
  }

  lemma InitEven(go: Oracle)
    ensures Even(InitProcess(go))
  {
  }

  // ---------- the buffering adapter ----------

  /** The inner filter may panic at any point; if it returns, the goroutine completes with Continue. */
  ghost predicate AdapterMove(m: Move, q: Process) {
    (m.CodeEnds? ==> m.c == Resume(Continue)) && AdapterCalls(q.f.t.calls)
  }

  ghost predicate AdapterMoves(run: ProcessRun)
    requires run.Shaped()
  {
    forall i :: 0 <= i < |run.moves| ==> AdapterMove(run.moves[i], run.states[i + 1])
  }

  lemma DropAdapterMove(run: ProcessRun)
    requires run.Shaped() && AdapterMoves(run) && run.moves != []
    ensures AdapterMoves(run.Before()) && AdapterMove(run.LastMove(), run.Last())
  {
    hide AdapterMove;
    var before, n := run.Before(), |run.moves| - 1;
    assert AdapterMove(run.moves[n], run.states[n + 1]);
    forall i | 0 <= i < |before.moves|
      ensures AdapterMove(before.moves[i], before.states[i + 1])
    {
      assert before.moves[i] == run.moves[i] && before.states[i + 1] == run.states[i + 1];
    }
  }

  lemma {:induction false} AdapterRefines(go: Oracle, run: ProcessRun)
    requires ValidProcess(go, run) && AdapterMoves(run)
    ensures run.Plain().Shaped() && AdapterRun(run.Plain())
    decreases |run.moves|
  {
    hide Moves, Valid, Fit, AdapterCalls, AdapterMove, AdapterLink, AdapterRun;
    if run.moves == [] {
      NothingAdapts(run);
    } else {
      var before := run.Before();
      DropMove(go, run);
      DropAdapterMove(run);
      RunRefines(go, before);
      AdapterRefines(go, before);
      if EventOf(run.LastMove()).Some? {
        MoveAdapts(before.Last(), run.LastMove(), run.Last());
        assert run.Plain().Before() == before.Plain();
        ExtendAdapter(before.Plain(), run.Plain());
      }
    }
  }

  lemma NothingAdapts(run: ProcessRun)
    requires run.Shaped() && run.moves == []
    ensures run.Plain().Shaped() && AdapterRun(run.Plain())
  {
  }

  lemma MoveAdapts(p: Process, m: Move, q: Process)
    requires Moves(p, m, q) && AdapterMove(m, q) && EventOf(m).Some?
    ensures AdapterLink(p.f, EventOf(m).value, q.f)
  {
    hide AdapterCalls;
  }

  /**
   Inner filters that panic do not disturb the adapter: each complete direction still enters the inner
   filter exactly once, with all of it, under the conditions of RunDeliversOnce, and each goroutine is one
   accepted completion.
   */
  lemma InnerPanics(go: Oracle, run: ProcessRun, d: Direction)
    requires ValidProcess(go, run) && AdapterMoves(run)
    ensures var f, plain := run.Last().f, run.Plain();
            var p, runs := f.P(d), SideOf(CallsOf(f.t.calls, d)).runs;
            && plain.Shaped() && |runs| <= 1
            && (|runs| == 1 <==> p.StreamEnd() && (d.Encode? ==> !f.waiting) && !Misses(plain, d))
            && (|runs| == 1 ==> Whole(runs[0], d, Body(plain.events, d), TrailersCame(plain.events, d)))
            && (!f.destroyed ==> run.Last().paid + Outstanding(f.t) == Owed(f.t.calls))
  {
    hide Moves, Link, AdapterCalls, Owed, SideOf, CallsOf, Whole, AdapterLink, Misses, Fit;
    RunRefines(go, run);
    RunDisciplined(go, run);
    AdapterRefines(go, run);
    RunDeliversOnce(go, run.Plain(), d);
  }
}
