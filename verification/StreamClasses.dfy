/**
 The filter as the program has it: objects whose member functions update their fields. Every method
 is proved to do exactly what the function of the same name in StreamSpec says, so everything proved
 about those functions and their runs is proved about these objects.
 */
module StreamClasses {
  import opened StreamTypes
  import opened StreamSpec
  import opened StreamRuns
  import opened StreamSafety
  import opened StreamReturns

  class BufferList {
    var queue: seq<Bytes>
    var bytes: nat

    ghost function View(): ListView
      reads this
    {
      ListView(queue, bytes)
    }

    constructor ()
      ensures View() == EMPTY_LIST
    {
      queue, bytes := [], 0;
    }

    predicate Empty()
      reads this
    {
      bytes == 0
    }

    method Push(data: Bytes)
      modifies this
      ensures View() == old(View()).Push(data)
    {
      bytes := Wrap(bytes + |data|);
      queue := queue + [data];
    }

    /** The caller gets the bytes of all queued buffers, in order; the list is empty then. */
    method MoveOut() returns (data: Bytes)
      modifies this
      ensures data == Flat(old(queue)) && View() == EMPTY_LIST
    {
      ghost var moved: seq<Bytes> := [];
      data := [];
      while queue != []
        invariant moved + queue == old(queue) && data == Flat(moved)
        decreases |queue|
      {
        FlatSnoc(moved, queue[0]);
        data := data + queue[0];
        moved := moved + [queue[0]];
        queue := queue[1..];
      }
      assert moved == old(queue);
      bytes := 0;
    }

    method ClearLatest()
      requires queue != []
      modifies this
      ensures View() == old(View()).ClearLatest()
    {
      bytes := Wrap(bytes - |queue[|queue| - 1]|);
      queue := queue[..|queue| - 1];
    }

    method ClearAll()
      modifies this
      ensures View() == EMPTY_LIST
    {
      bytes := 0;
      queue := [];
    }
  }

  /** One direction. Its ghost fields are the ledger and what Envoy saw of the direction. */
  class ProcessorState {
    const d: Direction
    const doDataList: BufferList
    var state: FilterState
    var endStream: bool
    var doEndStream: bool
    var seenTrailers: bool
    var dataBuffer: Option<Bytes>
    ghost var recv: Bytes
    ghost var hist: seq<Piece>
    ghost var out: seq<Frame>
    ghost var started: bool
    ghost var replied: bool
    ghost var fault: bool

    ghost function View(): ProcView
      reads this, doDataList
    {
      ProcView(state, endStream, doEndStream, seenTrailers,
               Store(dataBuffer, ListView(doDataList.queue, doDataList.bytes), out, recv, hist),
               started, replied, fault)
    }

    constructor (d: Direction)
      ensures View() == INIT_PROC && this.d == d && fresh(doDataList)
    {
      this.d := d;
      state, endStream, doEndStream, seenTrailers, dataBuffer := WaitingHeader, false, false, false, None;
      recv, hist, out, started, replied, fault := [], [], [], false, false, false;
      doDataList := new BufferList();
    }

    predicate IsProcessingInGo()
      reads this
    {
      state.ProcessingHeader? || state.ProcessingData? || state.ProcessingTrailer?
    }

    predicate IsBufferDataEmpty()
      reads this
    {
      dataBuffer.None? || dataBuffer.value == []
    }

    predicate IsStreamEnd()
      reads this
    {
      endStream || seenTrailers
    }

    method AddBufferData(data: Bytes)
      modifies this`dataBuffer
      ensures View() == old(View()).(s := old(View()).s.AddBufferData(data))
    {
      if dataBuffer.None? {
        dataBuffer := Some([]);
      }
      dataBuffer := Some(dataBuffer.value + data);
    }

    method DrainBufferData()
      modifies this`dataBuffer, this`hist
      ensures View() == old(View()).(s := old(View()).s.Drain())
    {
      if dataBuffer.Some? {
        if |dataBuffer.value| > 0 {
          hist := hist + [Piece(dataBuffer.value, false, Dropped(LocalReplyStarted))];
          dataBuffer := Some([]);
        }
      }
    }

    /** The list loses everything it holds. */
    method ClearList()
      modifies this`hist, doDataList
      ensures View() == old(View()).(s := old(View()).s.ClearAll())
    {
      doDataList.ClearAll();
      hist := Settle(hist, Dropped(LocalReplyStarted));
    }

    /** ASSERT(isBufferDataEmpty()). */
    ghost method CheckEmpty()
      modifies this`fault
      ensures View() == old(View()).Check(old(View()).s.BufferEmpty())
    {
      fault := fault || !IsBufferDataEmpty();
    }

    /** ASSERT(!getEndStream() && !isProcessingEndStream()). */
    ghost method CheckNotEnding()
      modifies this`fault
      ensures View() == old(View()).Check(!endStream && !doEndStream)
    {
      fault := fault || endStream || doEndStream;
    }

    method ProcessHeader(end: bool)
      modifies this`state, this`doEndStream, this`fault
      ensures View() == StreamSpec.ProcessHeader(old(View()), end)
    {
      fault := fault || !state.WaitingHeader?;
      state := ProcessingHeader;
      doEndStream := end;
    }

    method ProcessData(end: bool)
      modifies this`state, this`doEndStream, this`fault
      ensures View() == StreamSpec.ProcessData(old(View()), end)
    {
      fault := fault || !(state.WaitingData? || (state.WaitingAllData? && (end || seenTrailers)));
      state := ProcessingData;
      doEndStream := end;
    }

    method ProcessTrailer()
      modifies this`state, this`doEndStream, this`fault
      ensures View() == StreamSpec.ProcessTrailer(old(View()))
    {
      fault := fault || !(state.WaitingTrailer? || state.WaitingData? || state.WaitingAllData?);
      state := ProcessingTrailer;
      doEndStream := true;
    }

    method HandleHeaderGolangStatus(status: GolangStatus) returns (done: bool)
      modifies this`state, this`fault
      ensures (View(), done) == HandleHeader(old(View()), status)
    {
      fault := fault || !state.ProcessingHeader?;
      done := false;
      match status
      case Continue =>
        if doEndStream {
          state := Done;
        } else {
          state := WaitingData;
        }
        done := true;
      case StopAndBuffer => state := WaitingAllData;
      case StopAndBufferWatermark => state := WaitingData;
      case _ =>
    }

    method ClearLatest()
      modifies this`fault, this`hist, doDataList
      ensures View() == StreamSpec.ClearLatest(old(View()))
    {
      if doDataList.queue == [] {
        fault := true;
      } else {
        doDataList.ClearLatest();
        hist := DropLatest(hist);
      }
    }

    /** The switch of handleDataGolangStatus, for the statuses that end the processing of a chunk. */
    method SettleData(status: GolangStatus)
      requires !Async(status)
      modifies this`state, this`fault, this`hist, doDataList
      ensures View() == StreamSpec.SettleData(old(View()), status)
    {
      hide StreamSpec.ClearLatest;
      match status
      case Continue =>
        if doEndStream {
          state := Done;
        } else {
          state := WaitingData;
        }
      case StopAndBuffer => state := WaitingAllData;
      case StopAndBufferWatermark => state := WaitingData;
      case StopNoBuffer =>
        ClearLatest();
        state := WaitingData;
    }

    method HandleDataGolangStatus(status: GolangStatus) returns (done: bool)
      modifies this`state, this`fault, this`hist, doDataList
      ensures (View(), done) == HandleData(old(View()), status)
    {
      hide StreamSpec.SettleData, KeepsInput;
      fault := fault || !state.ProcessingData?;
      if status.LocalReply? || status.Running? {
        return false;
      }
      SettleData(status);
      done := status.Continue?;
      if seenTrailers && IsBufferDataEmpty() {
        state := WaitingTrailer;
      }
    }

    method HandleTrailerGolangStatus(status: GolangStatus) returns (done: bool)
      modifies this`state, this`fault
      ensures (View(), done) == HandleTrailer(old(View()), status)
    {
      fault := fault || !state.ProcessingTrailer?;
      done := false;
      match status
      case Continue =>
        state := Done;
        done := true;
      case _ =>
    }

    method HandleGolangStatus(status: GolangStatus) returns (done: bool)
      modifies this`state, this`fault, this`hist, doDataList
      ensures (View(), done) == StreamSpec.HandleGolangStatus(old(View()), status)
    {
      hide HandleHeader, HandleData, HandleTrailer;
      match state
      case ProcessingHeader => done := HandleHeaderGolangStatus(status);
      case ProcessingData => done := HandleDataGolangStatus(status);
      case ProcessingTrailer => done := HandleTrailerGolangStatus(status);
      case _ =>
        fault := true;
        done := false;
    }

    /** Bytes go to the next filter, behind the headers if those are still pending. */
    method InjectDataToFilterChain(data: Bytes, end: bool)
      modifies this`out
      ensures View() == old(View()).(s := old(View()).s.SendData(data, end))
    {
      out := (if out == [] then [Headers(false)] else out) + [Data(data, end)];
    }

    method ContinueProcessing()
      modifies this`out
      ensures View() == StreamSpec.ContinueProcessing(old(View()))
    {
      if out == [] {
        out := [Headers(endStream && !seenTrailers)];
      }
      if seenTrailers {
        out := out + [Trailers];
      }
    }

    /** moveOut: the caller gets what the list holds. */
    method MoveOutList() returns (data: Bytes)
      modifies this`hist, doDataList
      ensures View() == old(View()).(s := old(View()).s.MoveOut()) && data == Flat(old(doDataList.queue))
    {
      data := doDataList.MoveOut();
      hist := Settle(hist, Forwarded);
    }

    method ContinueDoData()
      modifies this`hist, this`out, doDataList
      ensures View() == StreamSpec.ContinueDoData(old(View()))
    {
      if !endStream && doDataList.Empty() {
        return;
      }
      var data := MoveOutList();
      InjectDataToFilterChain(data, doEndStream);
    }

    method PushData(data: Bytes)
      modifies this`hist, doDataList
      ensures View() == old(View()).(s := old(View()).s.Push(data))
    {
      doDataList.Push(data);
      hist := hist + [Piece(data, true, Held)];
    }

    /** getBufferData, by a caller that moves the bytes out of it. */
    method TakeBufferData() returns (data: Bytes)
      requires dataBuffer.Some?
      modifies this`dataBuffer
      ensures View() == old(View()).(s := old(View()).s.TakeBuffer()) && data == old(dataBuffer.value)
    {
      data := dataBuffer.value;
      dataBuffer := Some([]);
    }

    /** What follows handleGolangStatus in continueStatusInternal: the switch on the saved state. */
    method ApplyStatus(status: GolangStatus)
      modifies this`state, this`fault, this`hist, this`out, doDataList
      ensures View() == StreamSpec.ApplyStatus(old(View()), status)
    {
      hide StreamSpec.HandleGolangStatus, StreamSpec.ContinueProcessing, StreamSpec.ContinueDoData, KeepsInput;
      var saved := state;
      var done := HandleGolangStatus(status);
      if done {
        match saved
        case ProcessingHeader =>
          if doEndStream || !IsStreamEnd() {
            ContinueProcessing();
          }
        case ProcessingData => ContinueDoData();
        case ProcessingTrailer =>
          ContinueDoData();
          ContinueProcessing();
        case _ => fault := true;
      }
    }

    /** The filter returned Continue for headers: Envoy passes them on. */
    ghost method PassHeaders(end: bool)
      modifies this`out
      ensures View() == old(View()).(s := old(View()).s.SendHeaders(end))
    {
      out := out + [Headers(end)];
    }

    /** The filter returned Continue for data. */
    ghost method PassData(data: Bytes, end: bool)
      modifies this`out
      ensures View() == old(View()).(s := old(View()).s.SendData(data, end))
    {
      out := View().s.SendData(data, end).out;
    }

    /** The filter returned Continue for trailers. */
    ghost method PassTrailers()
      modifies this`out
      ensures View() == old(View()).(s := old(View()).s.SendTrailers())
    {
      out := View().s.SendTrailers().out;
    }

    /** The first half of doDataGo: the state changes, and the data moves into the list. */
    method ShowData(data: Bytes, end: bool)
      modifies this`state, this`doEndStream, this`fault, this`hist, doDataList
      ensures View() == StreamSpec.ProcessData(old(View()), end).(s := old(View()).s.Push(data))
    {
      hide ListView.Push;
      ProcessData(end);
      PushData(data);
    }

    method DrainAndClear()
      modifies this`hist, this`dataBuffer, doDataList
      ensures View() == old(View()).(s := old(View()).s.Drain().ClearAll())
    {
      hide Store.Drain, Store.ClearAll;
      DrainBufferData();
      ClearList();
    }

    /** sendLocalReplyInternal, past its guard. */
    method EndWithReply()
      modifies this`state, this`replied, this`hist, this`dataBuffer, doDataList
      ensures View() == StreamSpec.EndWithReply(d, old(View()))
    {
      hide Store.ClearAll, Store.Drain;
      ClearList();
      DrainBufferData();
      SendLocalReply();
    }

    /** setEndStream, as the headers of a direction arrive. */
    method BeginStream(end: bool)
      modifies this`endStream, this`started
      ensures View() == old(View()).(endStream := end, started := true)
    {
      endStream := end;
      started := true;
    }

    method SetSeenTrailers()
      modifies this`seenTrailers
      ensures View() == old(View()).(seenTrailers := true)
    {
      seenTrailers := true;
    }

    /** setEndStream, as data arrives. */
    method Receive(data: Bytes, end: bool)
      modifies this`endStream, this`recv
      ensures View() == Received(old(View()), data, end)
    {
      endStream := end;
      recv := recv + data;
    }

    /** The filter returned Continue for data: what the list holds is passed on. */
    method PassList(end: bool)
      modifies this`hist, this`out, doDataList
      ensures View() == old(View()).(s := old(View()).s.SendList(end))
    {
      var data := MoveOutList();
      PassData(data, end);
    }

    method SendLocalReply()
      modifies this`state, this`replied
      ensures View() == old(View()).(state := if d.Decode? then WaitingHeader else old(state), replied := true)
    {
      if d.Decode? {
        state := WaitingHeader;
      }
      replied := true;
    }
  }

  /** The Go library, as seen through the calls into it, and the dispatcher's queue. */
  class GoSide {
    const go: Oracle
    var calls: seq<GoCall>
    var running: bool
    var queue: seq<Completion>
    ghost var reentered: bool

    constructor (go: Oracle)
      ensures this.go == go && calls == [] && !running && queue == [] && !reentered
    {
      this.go := go;
      calls, running, queue, reentered := [], false, [], false;
    }

    method Enter(phase: Phase, end: bool, bytes: Bytes, headers: Option<HeaderMap>) returns (status: GolangStatus)
      modifies this
      ensures status == go(|old(calls)|)
      ensures calls == old(calls) + [GoCall(phase, end, bytes, headers, status)] && queue == old(queue)
      ensures running == (old(running) || Async(status))
      ensures reentered == (old(reentered) || old(running) || old(queue) != [])
    {
      reentered := reentered || running || queue != [];
      status := go(|calls|);
      calls := calls + [GoCall(phase, end, bytes, headers, status)];
      running := running || Async(status);
    }
  }

  lemma ReleaseSteps(f: FilterView)
    requires Release(f).localHeaders.Some?
    ensures var g := Release(f);
            ContinueStatusInternal(g.After(EncodeParkedHeaders(g)), Answer(g.t)) == ContinueEncodeLocalReply(f)
  {
    hide ContinueStream, DoHeadersGo, ProcessHeader;
    var g := Release(f);
    var l := EncodeParkedHeaders(g);
    assert g.After(l).At(Encode) == l && g.t == f.t;
  }

  class Filter {
    const decodingState: ProcessorState
    const encodingState: ProcessorState
    const dynamicLib: GoSide
    var headers: Option<HeaderMap>
    var trailers: Option<HeaderMap>
    var hasReq: bool
    var localHeaders: Option<HeaderMap>
    var localTrailers: Option<HeaderMap>
    var localReplyWaitingGo: bool
    var enterEncoding: bool
    var hasDestroyed: bool
    ghost var destroyReason: Option<DestroyReason>
    ghost var fault: bool

    ghost predicate Valid() {
      && decodingState.d.Decode? && encodingState.d.Encode?
      && decodingState.doDataList != encodingState.doDataList
    }

    ghost function Shared(): Traffic
      reads this, dynamicLib
    {
      Traffic(headers, trailers, hasReq, dynamicLib.go, dynamicLib.calls, dynamicLib.running, dynamicLib.queue,
              dynamicLib.reentered, fault)
    }

    ghost function At(state: ProcessorState): Lane
      reads this, dynamicLib, state, state.doDataList
    {
      Lane(state.d, state.View(), Shared())
    }

    ghost function View(): FilterView
      reads this, dynamicLib, decodingState, decodingState.doDataList, encodingState, encodingState.doDataList
    {
      FilterView(decodingState.View(), encodingState.View(), Shared(), localHeaders, localTrailers,
                 hasDestroyed, destroyReason, localReplyWaitingGo, enterEncoding)
    }

    constructor (go: Oracle)
      ensures Valid() && View() == InitFilter(go)
      ensures fresh(decodingState) && fresh(encodingState) && fresh(dynamicLib)
      ensures fresh(decodingState.doDataList) && fresh(encodingState.doDataList)
    {
      decodingState := new ProcessorState(Decode);
      encodingState := new ProcessorState(Encode);
      dynamicLib := new GoSide(go);
      headers, trailers, hasReq, localHeaders, localTrailers := None, None, false, None, None;
      localReplyWaitingGo, enterEncoding, hasDestroyed := false, false, false;
      destroyReason, fault := None, false;
    }

    function GetProcessorState(): ProcessorState
      reads this
    {
      if enterEncoding then encodingState else decodingState
    }

    /** moeOnHttpHeader and moeOnHttpData. */
    method CallIntoGo(phase: Phase, end: bool, bytes: Bytes, m: Option<HeaderMap>) returns (status: GolangStatus)
      modifies dynamicLib
      ensures Shared() == CallGo(old(Shared()), phase, end, bytes, m) && status == Answer(old(Shared()))
    {
      status := dynamicLib.Enter(phase, end, bytes, m);
    }

    /** ASSERT(req_ != nullptr), then the call. */
    method CallWithReq(phase: Phase, end: bool, bytes: Bytes, m: Option<HeaderMap>) returns (status: GolangStatus)
      modifies this`fault, dynamicLib
      ensures Shared() == CallGo(old(Shared()).Check(old(hasReq)), phase, end, bytes, m)
      ensures status == Answer(old(Shared()))
    {
      fault := fault || !hasReq;
      status := CallIntoGo(phase, end, bytes, m);
    }

    method DoHeadersGo(state: ProcessorState, m: HeaderMap, end: bool) returns (status: GolangStatus)
      modifies this`hasReq, this`headers, dynamicLib
      ensures At(state) == StreamSpec.DoHeadersGo(old(At(state)), m, end) && status == old(Answer(Shared()))
    {
      hasReq := true;
      headers := Some(m);
      status := CallIntoGo(PhaseOf(state.d, state.state), end, [], Some(m));
    }

    method DoHeaders(state: ProcessorState, m: HeaderMap, end: bool) returns (done: bool)
      modifies this`hasReq, this`headers, dynamicLib, state
      ensures (At(state), done) == StreamSpec.DoHeaders(old(At(state)), m, end)
    {
      hide StreamSpec.DoHeadersGo, HandleHeader, StreamSpec.ProcessHeader, CallGo, Grows, KeepsInput;
      state.CheckEmpty();
      state.ProcessHeader(end);
      var status := DoHeadersGo(state, m, end);
      done := state.HandleHeaderGolangStatus(status);
      if done {
        headers := None;
      }
    }

    method DoDataGo(state: ProcessorState, data: Bytes, end: bool) returns (done: bool)
      modifies this`fault, dynamicLib, state, state.doDataList
      ensures (At(state), done) == StreamSpec.DoDataGo(old(At(state)), data, end)
    {
      hide HandleData, CallGo, Answer, PhaseOf, Grows, KeepsInput, ListView.Push, Traffic.Check;
      state.ShowData(data, end);
      var status := CallWithReq(PhaseOf(state.d, state.state), end, data, None);
      done := state.HandleDataGolangStatus(status);
    }

    method DoBufferedDataGo(state: ProcessorState, end: bool) returns (done: bool)
      modifies this`fault, dynamicLib, state, state.doDataList
      ensures (At(state), done) == StreamSpec.DoBufferedDataGo(old(At(state)), end)
    {
      hide StreamSpec.DoDataGo, Grows;
      if state.dataBuffer.None? {
        state.fault := true;
        return false;
      }
      var data := state.TakeBufferData();
      done := DoDataGo(state, data, end);
    }

    method DoAllDataGo(state: ProcessorState, data: Bytes) returns (done: bool)
      modifies this`fault, dynamicLib, state, state.doDataList
      ensures (At(state), done) == StreamSpec.DoAllDataGo(old(At(state)), data)
    {
      hide StreamSpec.DoDataGo, Grows;
      var all := data;
      if !state.IsBufferDataEmpty() {
        state.AddBufferData(data);
        all := state.TakeBufferData();
      }
      done := DoDataGo(state, all, true);
    }

    method AddBufferData(state: ProcessorState, data: Bytes)
      modifies state
      ensures At(state) == StreamSpec.AddBufferData(old(At(state)), data)
    {
      state.AddBufferData(data);
    }

    method DoData(state: ProcessorState, data: Bytes, end: bool) returns (done: bool)
      modifies this`fault, dynamicLib, state, state.doDataList
      ensures (At(state), done) == StreamSpec.DoData(old(At(state)), data, end)
    {
      hide StreamSpec.DoDataGo, StreamSpec.DoAllDataGo, StreamSpec.AddBufferData, Grows, KeepsInput;
      done := false;
      match state.state
      case WaitingData => done := DoDataGo(state, data, end);
      case WaitingAllData =>
        if end {
          done := DoAllDataGo(state, data);
        } else {
          AddBufferData(state, data);
        }
      case ProcessingHeader | ProcessingData => AddBufferData(state, data);
      case _ => state.fault := true;
    }

    method DoTrailerGo(state: ProcessorState, m: HeaderMap) returns (done: bool)
      modifies this`fault, dynamicLib, state
      ensures (At(state), done) == StreamSpec.DoTrailerGo(old(At(state)), m)
    {
      hide HandleTrailer, CallGo, Answer, PhaseOf, Grows, KeepsInput, Traffic.Check;
      state.ProcessTrailer();
      var status := CallWithReq(PhaseOf(state.d, state.state), true, [], Some(m));
      done := state.HandleTrailerGolangStatus(status);
    }

    method DoAllDataTrailerGo(state: ProcessorState, m: HeaderMap) returns (done: bool)
      modifies this`fault, dynamicLib, state, state.doDataList
      ensures (At(state), done) == StreamSpec.DoAllDataTrailerGo(old(At(state)), m)
    {
      hide StreamSpec.DoBufferedDataGo, StreamSpec.DoTrailerGo, Grows;
      done := false;
      if !state.IsBufferDataEmpty() {
        done := DoBufferedDataGo(state, false);
      }
      if state.state.WaitingTrailer? {
        done := DoTrailerGo(state, m);
      }
    }

    method DoTrailer(state: ProcessorState, m: HeaderMap) returns (done: bool)
      modifies this`trailers, this`fault, dynamicLib, state, state.doDataList
      ensures (At(state), done) == StreamSpec.DoTrailer(old(At(state)), m)
    {
      hide StreamSpec.DoAllDataTrailerGo, StreamSpec.DoTrailerGo, Grows, KeepsInput;
      state.CheckNotEnding();
      trailers := Some(m);
      done := false;
      match state.state
      case WaitingTrailer | WaitingData => done := DoTrailerGo(state, m);
      case WaitingAllData => done := DoAllDataTrailerGo(state, m);
      case ProcessingHeader | ProcessingData =>
      case _ => state.fault := true;
    }

    /** Go is handed the data that arrived meanwhile; more tells whether its trailers are next. */
    method ResumeData(state: ProcessorState) returns (more: bool)
      modifies this`fault, dynamicLib, state, state.doDataList
      ensures (At(state), more) == StreamSpec.ResumeData(old(At(state)))
    {
      hide StreamSpec.DoBufferedDataGo, StreamSpec.ContinueDoData, Grows, KeepsInput;
      if (state.state.WaitingData? && (!state.IsBufferDataEmpty() || state.endStream)) ||
         (state.state.WaitingAllData? && state.IsStreamEnd())
      {
        more := DoBufferedDataGo(state, state.endStream);
        if more {
          state.ContinueDoData();
        }
      } else {
        more := true;
      }
    }

    /** Go is handed the trailers that arrived meanwhile. */
    method ResumeTrailers(state: ProcessorState)
      modifies this`fault, dynamicLib, state
      ensures At(state) == StreamSpec.ResumeTrailers(old(At(state)))
    {
      hide StreamSpec.DoTrailerGo, StreamSpec.ContinueProcessing, Grows, KeepsInput;
      if state.state.WaitingTrailer? && trailers.Some? {
        var done := DoTrailerGo(state, trailers.value);
        if done {
          state.ContinueProcessing();
        }
      }
    }

    method ContinueStream(state: ProcessorState, status: GolangStatus)
      modifies this`fault, dynamicLib, state, state.doDataList
      ensures At(state) == StreamSpec.ContinueStream(old(At(state)), status)
    {
      hide StreamSpec.ApplyStatus, StreamSpec.ResumeData, StreamSpec.ResumeTrailers, Grows, KeepsInput;
      state.ApplyStatus(status);
      var more := ResumeData(state);
      if !more {
        return;
      }
      ResumeTrailers(state);
    }

    method ContinueStatusInternal(status: GolangStatus)
      requires Valid()
      modifies this, dynamicLib, decodingState, decodingState.doDataList, encodingState, encodingState.doDataList
      ensures View() == StreamSpec.ContinueStatusInternal(old(View()), status)
      decreases localReplyWaitingGo, 1
    {
      hide StreamSpec.ContinueStream, StreamSpec.ContinueEncodeLocalReply;
      var state := GetProcessorState();
      if localReplyWaitingGo {
        ContinueEncodeLocalReply(state);
        return;
      }
      ContinueStream(state, status);
    }

    method ContinueEncodeLocalReply(state: ProcessorState)
      requires Valid() && localReplyWaitingGo && state == GetProcessorState()
      modifies this, dynamicLib, decodingState, decodingState.doDataList, encodingState, encodingState.doDataList
      ensures View() == StreamSpec.ContinueEncodeLocalReply(old(View()))
      decreases localReplyWaitingGo, 0
    {
      hide StreamSpec.ContinueStatusInternal, StreamSpec.Release, StreamSpec.EncodeParkedHeaders;
      hide StreamSpec.ContinueStream, Answer;
      ghost var f := View();
      Release(state);
      if localHeaders.None? {
        fault := true;
        return;
      }
      var status := EncodeParkedHeaders();
      ReleaseSteps(f);
      ContinueStatusInternal(status);
    }

    method Release(state: ProcessorState)
      requires Valid() && state == GetProcessorState()
      modifies this`localReplyWaitingGo, this`enterEncoding, state, state.doDataList
      ensures View() == StreamSpec.Release(old(View())) && !localReplyWaitingGo
    {
      hide Store.ClearAll;
      ghost var was := View();
      state.ClearList();
      assert View() == was.WithStore(was.Cur(), was.P(was.Cur()).s.ClearAll());
      localReplyWaitingGo := false;
      enterEncoding := true;
    }

    /** The parked response headers enter Go. */
    method EncodeParkedHeaders() returns (status: GolangStatus)
      requires Valid() && localHeaders.Some?
      modifies this`trailers, this`headers, this`hasReq, dynamicLib, encodingState
      ensures At(encodingState) == StreamSpec.EncodeParkedHeaders(old(View())) && status == old(Answer(Shared()))
      ensures View() == old(View()).After(At(encodingState))
    {
      hide StreamSpec.DoHeadersGo, StreamSpec.ProcessHeader, Grows, KeepsInput;
      var end := encodingState.endStream;
      if localTrailers.Some? {
        trailers := localTrailers;
        end := false;
      }
      if !encodingState.IsBufferDataEmpty() {
        end := false;
      }
      encodingState.ProcessHeader(end);
      status := DoHeadersGo(encodingState, localHeaders.value, end);
    }

    method SendLocalReplyInternal()
      requires Valid()
      modifies this, dynamicLib, decodingState, decodingState.doDataList, encodingState, encodingState.doDataList
      ensures View() == StreamSpec.SendLocalReplyInternal(old(View()))
    {
      hide StreamSpec.ContinueEncodeLocalReply, StreamSpec.EndWithReply;
      var state := GetProcessorState();
      if localReplyWaitingGo {
        ContinueEncodeLocalReply(state);
        return;
      }
      state.EndWithReply();
    }

    // ---------- events of the Envoy worker thread ----------

    method DecodeHeaders(end: bool) returns (done: bool)
      requires Valid()
      modifies this, dynamicLib, decodingState
      ensures View() == OnDecodeHeaders(old(View()), end)
      ensures Answered(old(View()), DecodeHeadersEvent(end), done, View())
    {
      hide StreamSpec.DoHeaders, Grows, KeepsInput, Answered;
      DecodeHeadersAnswers(View(), end);
      decodingState.BeginStream(end);
      done := DoHeaders(decodingState, RequestHeaders, end);
      if done {
        decodingState.PassHeaders(end);
      }
    }

    method DecodeData(data: Bytes, end: bool) returns (done: bool)
      requires Valid()
      modifies this, dynamicLib, decodingState, decodingState.doDataList
      ensures View() == OnDecodeData(old(View()), data, end)
      ensures Answered(old(View()), DecodeDataEvent(data, end), done, View())
    {
      hide StreamSpec.DoData, Grows, KeepsInput, Answered;
      DecodeDataAnswers(View(), data, end);
      decodingState.Receive(data, end);
      done := DoData(decodingState, data, end);
      if done {
        decodingState.PassList(end);
      }
    }

    method DecodeTrailers() returns (done: bool)
      requires Valid()
      modifies this, dynamicLib, decodingState, decodingState.doDataList
      ensures View() == OnDecodeTrailers(old(View()))
      ensures Answered(old(View()), DecodeTrailersEvent, done, View())
    {
      hide StreamSpec.DoTrailer, Grows, KeepsInput, Answered;
      DecodeTrailersAnswers(View());
      decodingState.SetSeenTrailers();
      done := DoTrailer(decodingState, RequestTrailers);
      if done {
        decodingState.PassTrailers();
      }
    }

    /** The tail of encodeHeaders. */
    method EnterEncoding(end: bool) returns (done: bool)
      requires Valid()
      modifies this, dynamicLib, encodingState
      ensures View() == StreamSpec.EnterEncoding(old(View()), end)
      ensures Answered(old(View()), EncodeHeadersEvent(end), done, View())
    {
      hide StreamSpec.DoHeaders, Grows, KeepsInput, Answered;
      EntersEncoding(View(), end);
      enterEncoding := true;
      done := DoHeaders(encodingState, ResponseHeaders, end);
      if done {
        encodingState.PassHeaders(end);
      }
    }

    method Park(state: ProcessorState)
      requires Valid() && state == GetProcessorState()
      modifies this`localReplyWaitingGo, this`localHeaders, state`dataBuffer, state`hist
      ensures View() == StreamSpec.Park(old(View()))
    {
      hide Store.Drain;
      ghost var was := View();
      state.DrainBufferData();
      assert View() == was.WithStore(was.Cur(), was.P(was.Cur()).s.Drain());
      localReplyWaitingGo := true;
      localHeaders := Some(ResponseHeaders);
    }

    method Abandon(state: ProcessorState)
      requires Valid() && state == GetProcessorState()
      modifies state`dataBuffer, state`hist, state.doDataList
      ensures View() == StreamSpec.Abandon(old(View()))
    {
      hide Store.Drain, Store.ClearAll;
      state.DrainAndClear();
    }

    method BeginResponse(end: bool)
      requires Valid()
      modifies encodingState`endStream, encodingState`started
      ensures View() == old(View()).(enc := old(View()).enc.(endStream := end, started := true))
    {
      encodingState.BeginStream(end);
    }

    method EncodeHeaders(end: bool) returns (done: bool)
      requires Valid()
      modifies this, dynamicLib, decodingState, decodingState.doDataList, encodingState, encodingState.doDataList
      ensures View() == OnEncodeHeaders(old(View()), end)
      ensures Answered(old(View()), EncodeHeadersEvent(end), done, View())
    {
      hide StreamSpec.EnterEncoding, StreamSpec.Park, StreamSpec.Abandon, PassedOn;
      var state := GetProcessorState();
      BeginResponse(end);
      ParksHeaders(View(), end);
      if !state.state.Done? {
        if state.IsProcessingInGo() {
          Park(state);
          return false;
        }
        Abandon(state);
      }
      done := EnterEncoding(end);
    }

    method EncodeData(data: Bytes, end: bool) returns (done: bool)
      requires Valid()
      modifies this, dynamicLib, decodingState, decodingState.doDataList, encodingState, encodingState.doDataList
      ensures View() == OnEncodeData(old(View()), data, end)
      ensures Answered(old(View()), EncodeDataEvent(data, end), done, View())
    {
      hide StreamSpec.DoData, StreamSpec.ForwardEncoded, Store.AddBufferData, Grows, KeepsInput, Answered;
      EncodeDataAnswers(View(), data, end);
      var state := GetProcessorState();
      encodingState.Receive(data, end);
      if localReplyWaitingGo {
        encodingState.AddBufferData(data);
        return false;
      }
      done := DoData(encodingState, data, end);
      if done {
        ForwardEncoded(state, end);
      }
    }

    method ForwardEncoded(state: ProcessorState, end: bool)
      requires Valid() && state == GetProcessorState()
      modifies state`hist, state.doDataList, encodingState`out
      ensures View() == StreamSpec.ForwardEncoded(old(View()), end)
    {
      hide Store.MoveOut, Store.SendData;
      var moved := state.MoveOutList();
      encodingState.PassData(moved, end);
    }

    method EncodeTrailers() returns (done: bool)
      requires Valid()
      modifies this, dynamicLib, encodingState, encodingState.doDataList
      ensures View() == OnEncodeTrailers(old(View()))
      ensures Answered(old(View()), EncodeTrailersEvent, done, View())
    {
      hide StreamSpec.DoTrailer, Grows, KeepsInput, Answered;
      EncodeTrailersAnswers(View());
      encodingState.SetSeenTrailers();
      if localReplyWaitingGo {
        localTrailers := Some(ResponseTrailers);
        return false;
      }
      done := DoTrailer(encodingState, ResponseTrailers);
      if done {
        encodingState.PassTrailers();
      }
    }

    method Destroy()
      requires Valid()
      modifies this
      ensures View() == OnDestroy(old(View()))
    {
      if hasDestroyed {
        return;
      }
      hasDestroyed := true;
      fault := fault || !hasReq;
      var state := GetProcessorState();
      destroyReason := Some(if state.IsProcessingInGo() then Terminate else Normal);
    }

    /** The dispatcher runs the next posted event. */
    method RunPosted()
      requires Valid() && dynamicLib.queue != []
      modifies this, dynamicLib, decodingState, decodingState.doDataList, encodingState, encodingState.doDataList
      ensures View() == OnPosted(old(View()))
    {
      hide StreamSpec.ContinueStatusInternal, StreamSpec.SendLocalReplyInternal;
      var c := dynamicLib.queue[0];
      dynamicLib.queue := dynamicLib.queue[1..];
      if !hasDestroyed {
        match c
        case Resume(status) => ContinueStatusInternal(status);
        case Reply => SendLocalReplyInternal();
      }
    }

    // ---------- calls from Go ----------

    /** continueStatus and sendLocalReply: the completion is posted, or refused. */
    method Complete(c: Completion) returns (res: CAPIStatus)
      requires Valid()
      modifies dynamicLib
      ensures (View(), res) == GoCompletes(old(View()), c)
    {
      dynamicLib.running := false;
      if hasDestroyed {
        return CAPIFilterIsDestroy;
      }
      var state := GetProcessorState();
      if !state.IsProcessingInGo() {
        return CAPINotInGo;
      }
      dynamicLib.queue := dynamicLib.queue + [c];
      return CAPIOK;
    }

    // ---------- runs ----------

    /** One event; for a frame, whether the handler returned Continue to Envoy. */
    method Handle(e: Event) returns (done: bool)
      requires Valid()
      modifies this, dynamicLib, decodingState, decodingState.doDataList, encodingState, encodingState.doDataList
      ensures View() == Step(old(View()), e)
      ensures IsFrame(e) ==> Answered(old(View()), e, done, View())
    {
      hide OnDecodeHeaders, OnDecodeData, OnDecodeTrailers, OnEncodeHeaders, OnEncodeData, OnEncodeTrailers;
      hide OnDestroy, OnPosted, GoCompletes, Answered;
      done := false;
      match e
      case DecodeHeadersEvent(end) => done := DecodeHeaders(end);
      case DecodeDataEvent(data, end) => done := DecodeData(data, end);
      case DecodeTrailersEvent => done := DecodeTrailers();
      case EncodeHeadersEvent(end) => done := EncodeHeaders(end);
      case EncodeDataEvent(data, end) => done := EncodeData(data, end);
      case EncodeTrailersEvent => done := EncodeTrailers();
      case DestroyEvent => Destroy();
      case PostedEvent =>
        if dynamicLib.queue != [] {
          RunPosted();
        }
      case GoCompletesEvent(c) => var _ := Complete(c);
    }

    /**
     A filter that lives through a run is in its last state, with the invariant intact, and has told Envoy
     to go on with a frame exactly when the run passes it on.
     */
    method Live(events: seq<Event>, ghost run: Run) returns (returned: seq<bool>)
      requires Valid() && run.events == events && View() == InitFilter(dynamicLib.go) && From(View(), run)
      modifies this, dynamicLib, decodingState, decodingState.doDataList, encodingState, encodingState.doDataList
      ensures View() == run.Last() && Inv(View()) && |returned| == |events|
      ensures forall i :: 0 <= i < |events| && IsFrame(events[i]) ==>
                Answered(run.states[i], events[i], returned[i], run.states[i + 1])
    {
      hide Step, Inv, Enabled, LegalCalls, Answered;
      returned := [];
      for i := 0 to |events|
        invariant View() == run.states[i] && |returned| == i
        invariant forall k :: 0 <= k < i && IsFrame(events[k]) ==>
                    Answered(run.states[k], events[k], returned[k], run.states[k + 1])
      {
        assert Link(run.states[i], run.events[i], run.states[i + 1]);
        var done := Handle(events[i]);
        returned := returned + [done];
      }
      RunSafe(dynamicLib.go, run);
    }
  }
}
