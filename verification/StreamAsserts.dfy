/**
 When the ASSERTs of the filter fail, state by state and without any invariant. Runs never get there, which is
 what StreamSafety proves; these are the conditions that it rules out.
 */
module StreamAsserts {
  import opened StreamTypes
  import opened StreamSpec
  import opened StreamSafety

  /** The state a chunk may be shown in: Go streams, or it wants everything and this is everything. */
  predicate OpenForGo(p: ProcView, end: bool) {
    p.state.WaitingData? || (p.state.WaitingAllData? && (end || p.seenTrailers))
  }

  lemma HandledChunk(p: ProcView, status: GolangStatus)
    ensures HandleData(p, status).0.fault <==>
            p.fault || !p.state.ProcessingData? || (status.StopNoBuffer? && p.s.list.queue == [])
    ensures HandleData(p, status).0.s.buffer == p.s.buffer
  {
    hide KeepsInput, AfterData, Store.BufferEmpty, Store.ClearLatest;
    SettledChunk(p.Check(p.state.ProcessingData?), status);
  }

  lemma SettledChunk(p: ProcView, status: GolangStatus)
    ensures SettleData(p, status).fault <==> p.fault || (status.StopNoBuffer? && p.s.list.queue == [])
    ensures SettleData(p, status).s.buffer == p.s.buffer
  {
    hide KeepsInput, AfterData, Store.ClearLatest;
  }

  lemma HandledHeaders(p: ProcView, status: GolangStatus)
    ensures HandleHeader(p, status).0.fault <==> p.fault || !p.state.ProcessingHeader?
    ensures HandleHeader(p, status).0.s == p.s
  {
    hide KeepsInput;
    match status
    case Continue =>
    case StopAndBuffer =>
    case StopAndBufferWatermark =>
    case _ =>
  }

  /** Headers go wrong if anything is buffered, or if the direction has seen headers before. */
  lemma HeadersAssert(l: Lane, m: HeaderMap, end: bool)
    ensures var g := DoHeaders(l, m, end).0;
            && (g.p.fault <==> l.p.fault || !l.p.s.BufferEmpty() || !l.p.state.WaitingHeader?)
            && g.t.fault == l.t.fault && g.t.hasReq
  {
    hide HandleHeader, KeepsInput, Grows, Store.BufferEmpty;
    HandledHeaders(ProcessHeader(l.p.Check(l.p.s.BufferEmpty()), end), Answer(l.t));
  }

  lemma ShownAssert(l: Lane, data: Bytes, end: bool)
    ensures var g := DoDataGo(l, data, end).0;
            && (g.p.fault <==> l.p.fault || !OpenForGo(l.p, end)) && (g.t.fault <==> l.t.fault || !l.t.hasReq)
  {
    hide HandleData, KeepsInput, Grows;
    HandledChunk(ProcessData(l.p, end).(s := l.p.s.Push(data)), Answer(l.t));
  }

  /** A chunk goes wrong before the headers have been answered and after the end; and in Go without a request. */
  lemma DataAsserts(l: Lane, data: Bytes, end: bool)
    ensures var g, state := DoData(l, data, end).0, l.p.state;
            && (g.p.fault <==>
                  l.p.fault || state.WaitingHeader? || state.WaitingTrailer? || state.ProcessingTrailer? || state.Done?)
            && (g.t.fault <==>
                  l.t.fault || (!l.t.hasReq && (state.WaitingData? || (state.WaitingAllData? && end))))
  {
    hide DoDataGo, DoAllDataGo, KeepsInput, Grows, Store.AddBufferData;
    ShownAssert(l, data, end);
    if l.p.state.WaitingAllData? { AllDataAsserts(l, data); }
  }

  lemma AllDataAsserts(l: Lane, data: Bytes)
    requires l.p.state.WaitingAllData?
    ensures var g := DoAllDataGo(l, data).0;
            g.p.fault == l.p.fault && (g.t.fault <==> l.t.fault || !l.t.hasReq)
  {
    hide DoDataGo, KeepsInput, Grows;
    ShownAssert(l, data, true);
    ShownAssert(l.(p := l.p.(s := l.p.s.TakeBuffer())), l.p.s.Buffered() + data, true);
  }

  lemma TrailerAsserts(l: Lane, m: HeaderMap)
    ensures var g, state := DoTrailerGo(l, m).0, l.p.state;
            && (g.p.fault <==> l.p.fault || !(state.WaitingTrailer? || state.WaitingData? || state.WaitingAllData?))
            && (g.t.fault <==> l.t.fault || !l.t.hasReq)
  {
    hide KeepsInput, Grows;
  }

  /** Nothing but Continue lets trailers go; with any other status, legal or not, Go keeps the direction. */
  lemma TrailersEnd(l: Lane, m: HeaderMap)
    ensures var (g, done) := DoTrailerGo(l, m);
            && (done <==> Answer(l.t).Continue?)
            && g.p.state == (if Answer(l.t).Continue? then Done else ProcessingTrailer) && g.p.s == l.p.s
  {
    hide KeepsInput, Grows;
  }

  lemma AllTrailerAsserts(l: Lane, m: HeaderMap)
    requires l.p.state.WaitingAllData? && l.p.seenTrailers
    ensures var g := DoAllDataTrailerGo(l, m).0;
            && g.p.fault == l.p.fault && (g.t.fault <==> l.t.fault || (!l.t.hasReq && !l.p.s.BufferEmpty()))
  {
    hide DoDataGo, DoTrailerGo, KeepsInput, Grows;
    if !l.p.s.BufferEmpty() {
      var l1 := l.(p := l.p.(s := l.p.s.TakeBuffer()));
      ShownAssert(l1, l.p.s.buffer.value, false);
      RequestKept(l1, l.p.s.buffer.value);
      TrailerAsserts(DoDataGo(l1, l.p.s.buffer.value, false).0, m);
    }
  }

  lemma RequestKept(l: Lane, data: Bytes)
    ensures DoDataGo(l, data, false).0.t.hasReq == l.t.hasReq
  {
    hide HandleData, KeepsInput, Grows, Store.Push;
  }

  /** Trailers go wrong behind an end of stream, before the headers have been answered, and twice. */
  lemma TrailersAssert(l: Lane, m: HeaderMap)
    requires l.p.seenTrailers
    ensures DoTrailer(l, m).0.p.fault <==>
            || l.p.fault || l.p.endStream || l.p.doEndStream
            || l.p.state.WaitingHeader? || l.p.state.ProcessingTrailer? || l.p.state.Done?
  {
    hide DoTrailerGo, DoAllDataTrailerGo, KeepsInput, Grows;
    var l1 := Lane(l.d, l.p.Check(!l.p.endStream && !l.p.doEndStream), l.t.(trailers := Some(m)));
    TrailerAsserts(l1, m);
    if l.p.state.WaitingAllData? { AllTrailerAsserts(l1, m); }
  }

  lemma HandledTrailer(p: ProcView, status: GolangStatus)
    ensures HandleTrailer(p, status).0.fault <==> p.fault || !p.state.ProcessingTrailer?
    ensures HandleTrailer(p, status).0.s == p.s
  {
  }

  lemma HandledAny(p: ProcView, status: GolangStatus)
    ensures HandleGolangStatus(p, status).0.fault <==>
            p.fault || !p.ProcessingInGo() || (p.state.ProcessingData? && status.StopNoBuffer? && p.s.list.queue == [])
    ensures HandleGolangStatus(p, status).0.s.buffer == p.s.buffer
  {
    hide HandleHeader, HandleTrailer, HandleData, KeepsInput;
    HandledHeaders(p, status);
    HandledChunk(p, status);
    HandledTrailer(p, status);
  }

  lemma AppliedAssert(p: ProcView, status: GolangStatus)
    ensures ApplyStatus(p, status).fault <==>
            p.fault || !p.ProcessingInGo() || (p.state.ProcessingData? && status.StopNoBuffer? && p.s.list.queue == [])
    ensures ApplyStatus(p, status).s.buffer == p.s.buffer
  {
    hide ForwardDone, HandleGolangStatus, KeepsInput;
    HandledAny(p, status);
    if p.ProcessingInGo() {
      ForwardDoneKeeps(HandleGolangStatus(p, status).0, p.state);
    } else {
      NothingApplied(p, status);
    }
  }

  lemma NothingApplied(p: ProcView, status: GolangStatus)
    requires !p.ProcessingInGo()
    ensures !HandleGolangStatus(p, status).1
  {
  }

  /**
   A completion goes wrong if Go does not hold the direction, if it drops a chunk and there is none, or if there
   is more to show and data_buffer_ is null.
   */
  lemma CompletionAsserts(l: Lane, status: GolangStatus)
    ensures ContinueStream(l, status).p.fault <==>
            || l.p.fault || !l.p.ProcessingInGo()
            || (l.p.state.ProcessingData? && status.StopNoBuffer? && l.p.s.list.queue == [])
            || (DataToResume(ApplyStatus(l.p, status)) && l.p.s.buffer.None?)
  {
    hide ApplyStatus, DoDataGo, DoTrailerGo, ContinueDoData, Store.SendHeaders, Store.SendTrailers, KeepsInput, Grows;
    AppliedAssert(l.p, status);
    var l1 := l.(p := ApplyStatus(l.p, status));
    ResumedAssert(l1);
    var l2 := ResumeData(l1).0;
    if l2.t.trailers.Some? { TrailerAsserts(l2, l2.t.trailers.value); }
  }

  lemma ResumedAssert(l: Lane)
    ensures ResumeData(l).0.p.fault <==> l.p.fault || (DataToResume(l.p) && l.p.s.buffer.None?)
  {
    hide DoDataGo, KeepsInput, Grows;
    if l.p.s.buffer.Some? {
      ShownAssert(l.(p := l.p.(s := l.p.s.TakeBuffer())), l.p.s.buffer.value, l.p.endStream);
    }
  }

  /** Only the three states in which Go holds a direction have something to forward. */
  lemma ForwardAsserts(p: ProcView, saved: FilterState)
    ensures ForwardDone(p, saved).fault <==>
            p.fault || !(saved.ProcessingHeader? || saved.ProcessingData? || saved.ProcessingTrailer?)
  {
    hide Store.SendHeaders, Store.SendList, Store.SendTrailers, KeepsInput;
    match saved
    case ProcessingHeader =>
    case ProcessingData =>
    case ProcessingTrailer =>
    case _ =>
  }

  /**
   A release goes wrong if no headers are parked, if the response has been in Go before, or if there is something
   to show and no body was parked.
   */
  lemma ReleaseAsserts(f: FilterView)
    ensures f.localHeaders.None? ==> ContinueEncodeLocalReply(f).Faulty()
    ensures f.localHeaders.Some? ==>
              (ContinueEncodeLocalReply(f).enc.fault <==>
                 || f.enc.fault || !f.enc.state.WaitingHeader?
                 || (DataToResume(ApplyStatus(EncodeParkedHeaders(Release(f)).p, Answer(f.t))) && f.enc.s.buffer.None?))
  {
    hide ContinueStream, ApplyStatus, Settle, KeepsInput;
    if f.localHeaders.Some? {
      StaysInLane(EncodeParkedHeaders(Release(f)), Answer(f.t));
      CompletionAsserts(EncodeParkedHeaders(Release(f)), Answer(f.t));
    }
  }

  lemma StaysInLane(l: Lane, status: GolangStatus)
    ensures ContinueStream(l, status).d == l.d
  {
    hide ContinueStream;
  }
}
