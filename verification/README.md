# Envoy Go extension: stream protocol and Go/C agreement

A Dafny model of the HTTP filter that lets Envoy run filters written in Go, with proofs about it.
`dafny verify dfyconfig.toml` checks everything.

The heart is the Envoy side of a stream. Two processor states, one per direction, hand headers, body
chunks and trailers to one Go filter, which answers at once or later from a goroutine. What Go was shown
waits in `doDataList`, what arrives meanwhile waits in `data_buffer_`, and completions come back as events
posted to the worker thread. A response may start at any moment, also while Go is busy with the request;
then it is parked. Around it lie the agreements between Go and C: the buffering adapter, panic recovery,
header marshalling and the header cache, the metadata semaphore, finalization, config ids, watermarks.

## How the files fit together

| file | what it holds |
|---|---|
| StreamTypes, StreamSpec | the vocabulary, and each member function as a function on the values of the fields, with a ledger of every received byte |
| StreamClasses | BufferList, ProcessorState and Filter as classes whose methods update fields; each is proved to do what StreamSpec says |
| StreamRuns | events, what Envoy and Go may do, and runs of any length and interleaving |
| StreamSafety | the inductive invariant of the filter |
| StreamAsserts | when each ASSERT fails, from any state: what the invariant rules out |
| StreamLedger | conservation and order of bytes |
| StreamShape | what the next filter can see of any legal Go filter: frames in order, one end |
| StreamReturns | what the handlers return to Envoy agrees with what the next filter receives |
| StreamTransparency | a filter that lets everything through is invisible, holds nothing back, and stalls only on headers with trailers and no body |
| StreamAsks | for any legal filter: which call into Go comes next, from what Go said last and what has arrived |
| StreamMaps | which header and trailer map the pointers of the filter lead Go to |
| StreamProtocol | one call at a time, the callback grammar, deferred local replies, the end of the stream |
| StreamDestroy, RequestLife | destruction, and the life of the C request on the Go side of such runs |
| StreamStalls | which events leave a direction waiting for a body that will not come |
| StreamEdges, BufferEdits | where the code does less than one would expect, and exactly when |
| StreamWitnesses | runs written out state by state that reach those places |
| BufferedAdapter | the full-buffering adapter composed with the protocol |
| GoRequest | panic recovery in one piece |
| GoDiscipline, GoCrashes | recovery step by step: runs of the filter with Go code that panics anywhere, and when recovery panics itself |
| HeaderMarshal, HeaderCache, HeaderReads | copying a header map to Go, the cache Go keeps of it, and reads that bypass the cache |
| MetadataSema, ConfigMerge, Watermarks | the semaphore hand-shake, memoised config ids, backpressure |

A run is a list of events with the states between them. `Valid` says that it starts with a new filter, that
each event was possible when it happened and led to the next state, that Go's answers were legal, and that
nothing went wrong; the theorems named `Run...` hold for every valid run, whatever its length and interleaving.
Where something goes wrong (`GoesWrong`) is where a run ends: a null data_buffer_ is dereferenced, or the filter
is destroyed before any headers reached it. `RunFaults` says that at the end of any valid run the next event
goes wrong if and only if it is one of the two.

`PassRun` adds that Go always answers Continue or defers it, and that no chunk it is shown has a size that is a
multiple of 2^32 other than 0. `AdapterRun` adds that Go is the buffering adapter. A `ProcessRun` is a run in
which callbacks, goroutines and OnDestroy may panic at any time, in the atomic steps of recovery; `RunRefines`
says that the filter sees a valid run all the same.

Fields such as `recv`, `hist`, `out`, `calls`, `fault` and `reentered` do not exist in the program; they record
what happened so that it can be stated. A failed ASSERT, a null buffer dereferenced, or a branch that logs an
unexpected state sets `fault`.

## What is assumed of the environment

- Envoy sends each direction headers, data, then possibly trailers, nothing after the end, and never both
  an end_stream flag and trailers. A response may start at any time, once; no request frame follows it. No
  frame of a direction follows a local reply with which Go ended it. The filter is destroyed at most once, at
  any time, also before its first headers.
- Each callback of Go is completed once: by a plain status, or, after Running or LocalReply, by one later
  Continue or SendLocalReply (pkg/api/filter.go:93). Go code that may panic is shown to do so
  (`RunRefines`), if it does not run on after its completion. A posted completion runs after the callback has
  returned. Go does not ask for more data after an end_stream flag (`LegalAnswer`).
- data_buffer_ does not cross its limit while Go wants the whole body. Watermarks says what the callbacks
  do then; the 413 reply itself is not modelled, because golang_filter.cc:139-140 is commented out and
  lines 361-365 carry on.
- Passing data or trailers on flushes pending headers first, without end_stream. continueDecoding and
  continueEncoding send pending headers, flagged with end_stream if the stream has ended and no trailers
  came, and then the trailers if they came.
- Envoy's callbacks do not call the filter back before they return. The response to a local reply of Go
  is an event of its own, which may follow at once; sendLocalReply is the last thing the code does.
- A buffer looked up by Go is the first in the list, and Go does not edit buffers; BufferEdits says what
  happens otherwise.

## Where code and comments disagree

The model follows the code in each case.

- processor_state.cc:171-172 asks for trailers_ to be cleared when trailers are let through; no path does.
  headers_ (processor_state.cc:53) is cleared on the synchronous path only (`RunLeads`), so Go can still write
  to headers that have left the filter (`HeadersAfterTheyLeft`).
- README.md:118-120 says that Go runs without concurrency because data is buffered until Go returns. That
  is proved (`RunNeverReenters`), under the discipline of pkg/api/filter.go:93.
- filter.go:95-98 calls a panic during a safe reply impossible. It happens exactly when a panic is answered
  while the safe reply to an earlier one has not returned (`RunCrashes`): on a destroyed filter, when
  OnDestroy and the goroutine still running both panic, in either order (`BothPanic`, `CodeFirst`), and on a
  live one, when the next callback panics before the goroutine has cleared safePanic (`LivePanic`).
- moe.go:211-219 deletes the request only if OnDestroy returns. If it panics, the request map keeps the object
  and the C request is never finalized (`FinalizableExactly`, `NeverFinalized`).
- golang_filter.cc:241-243 asserts that there is a request. There is none if no headers ever came
  (`StepFaults`, `NeverCalled`).
- moe.go:116-118 says that a marked request is called again only when the filter is just destroyed. Go code
  that runs on after its completion marks it on a live filter (`MarkedByStrayCode`), and then the callback
  completes twice (`PanicedCompletesTwice`).
- golang_filter.cc:524-525 notes a missing state change. `StepStrands` says exactly which events leave a
  direction stuck because of it, and `RunEnds` that nothing else does; three runs show that each of them
  happens. If Go then asks to buffer, a null data_buffer_ is dereferenced (`StepFaults`).
- type.go:112-116 takes GetRaw for a read of the same headers past the cache. It is that exactly while headers
  are being processed (`GetRawReadsHeaders`); golang_filter.cc:642 picks the map by state.

## Model

| member | source | states |
|---|---|---|
| StreamClasses.BufferList.Push | src/envoy/http/golang/processor_state.cc:11-20 | the chunk goes to the back of the queue and bytes_ grows by its size as a uint32_t does |
| StreamClasses.BufferList.MoveOut | src/envoy/http/golang/processor_state.cc:22-27 | the caller gets the bytes of all queued chunks in order; queue and count are empty |
| StreamClasses.BufferList.ClearLatest | src/envoy/http/golang/processor_state.cc:29-37 | only the last chunk goes, and bytes_ falls by its size modulo 2^32 |
| StreamClasses.BufferList.ClearAll | src/envoy/http/golang/processor_state.cc:39-42 | the list is empty |
| StreamClasses.ProcessorState.AddBufferData | src/envoy/http/golang/processor_state.cc:319-349 | the bytes are appended to data_buffer_, which is created if it was null; nothing else changes |
| StreamClasses.ProcessorState.DrainBufferData | src/envoy/http/golang/processor_state.cc:243-251 | buffered bytes are thrown away and booked as dropped; an absent or empty buffer stays as it is |
| StreamClasses.ProcessorState.ProcessHeader | src/envoy/http/golang/processor_state.h:141-145 | the state Go holds the headers in, with its ASSERT turned into a fault flag |
| StreamClasses.ProcessorState.ProcessData | src/envoy/http/golang/processor_state.h:147-152 | the state Go holds a chunk in; the ASSERT on the state before it is part of the result |
| StreamClasses.ProcessorState.ProcessTrailer | src/envoy/http/golang/processor_state.h:154-159 | the state Go holds the trailers in, always as the end of the stream |
| StreamClasses.ProcessorState.HandleHeaderGolangStatus | src/envoy/http/golang/processor_state.cc:54-98 | where each status moves a direction whose headers Go had, and whether the headers may go on |
| StreamClasses.ProcessorState.SettleData | src/envoy/http/golang/processor_state.cc:113-158 | the switch on the statuses that settle a chunk |
| StreamClasses.ProcessorState.HandleDataGolangStatus | src/envoy/http/golang/processor_state.cc:100-169 | where each status moves a direction whose chunk Go had, with the early return of asynchronous statuses and the move to WaitingTrailer |
| StreamClasses.ProcessorState.HandleTrailerGolangStatus | src/envoy/http/golang/processor_state.cc:173-205 | only Continue ends the direction |
| StreamClasses.ProcessorState.HandleGolangStatus | src/envoy/http/golang/processor_state.cc:208-241 | a completion is dispatched on the state; one that Go does not hold is a fault |
| StreamClasses.ProcessorState.ClearLatest | src/envoy/http/golang/processor_state.cc:29-37 | dropping the chunk Go was last shown; with nothing in the list it is a fault |
| StreamClasses.ProcessorState.InjectDataToFilterChain | src/envoy/http/golang/processor_state.h:202-204 | the next filter gets the bytes, behind headers that were still pending |
| StreamClasses.ProcessorState.ContinueProcessing | src/envoy/http/golang/processor_state.h:210-213 | pending headers and arrived trailers go on, the headers flagged as the end only if nothing follows |
| StreamClasses.ProcessorState.ContinueDoData | src/envoy/http/golang/processor_state.h:131-139 | everything in the list goes on in one frame, flagged as do_end_stream_ says; nothing happens for an empty list before the end |
| StreamClasses.ProcessorState.ApplyStatus | src/envoy/http/golang/golang_filter.cc:496-521 | a completion is applied and what it lets through is forwarded, by the state saved before |
| StreamClasses.ProcessorState.SendLocalReply | src/envoy/http/golang/processor_state.h:214-223 | the decode state goes back to WaitingHeader before Envoy is asked for the reply; the encode state stays |
| StreamClasses.ProcessorState.EndWithReply | src/envoy/http/golang/golang_filter.cc:563-572 | list cleared, buffer drained, reply sent, in that order |
| StreamClasses.Filter.DoHeadersGo | src/envoy/http/golang/golang_filter.cc:276-301 | the C request exists, headers_ points at the map of the direction, and Go is called once with the phase of the state |
| StreamClasses.Filter.DoHeaders | src/envoy/http/golang/golang_filter.cc:303-317 | state change, call and answer for headers; headers_ is cleared exactly if Go let them go at once |
| StreamClasses.Filter.DoDataGo | src/envoy/http/golang/golang_filter.cc:319-343 | the chunk moves into the list, Go is called with it, and its answer is applied |
| StreamClasses.Filter.DoBufferedDataGo | src/envoy/http/golang/golang_filter.cc:427-429 | the same for data_buffer_, which is left empty; a null buffer is a fault |
| StreamClasses.Filter.DoAllDataGo | src/envoy/http/golang/golang_filter.cc:356-367 | buffered bytes and the last chunk enter Go as one chunk, the buffered ones first |
| StreamClasses.Filter.DoData | src/envoy/http/golang/golang_filter.cc:345-384 | by state: show Go the chunk, show it everything, or buffer; any other state is a fault |
| StreamClasses.Filter.DoTrailerGo | src/envoy/http/golang/golang_filter.cc:386-406 | trailers enter Go as the end of the stream, and its answer is applied |
| StreamClasses.Filter.DoAllDataTrailerGo | src/envoy/http/golang/golang_filter.cc:424-436 | a buffered body enters Go first, and trailers follow only if it left the direction waiting for them |
| StreamClasses.Filter.DoTrailer | src/envoy/http/golang/golang_filter.cc:408-450 | trailers_ is set; by state the trailers enter Go, wait, or follow the buffered body |
| StreamClasses.Filter.ResumeData | src/envoy/http/golang/golang_filter.cc:526-538 | data that arrived meanwhile enters Go and, if it is let through, goes on; otherwise the completion ends here |
| StreamClasses.Filter.ResumeTrailers | src/envoy/http/golang/golang_filter.cc:540-545 | trailers that arrived meanwhile enter Go and go on if it lets them |
| StreamClasses.Filter.ContinueStatusInternal | src/envoy/http/golang/golang_filter.cc:481-546 | a completion either releases a parked response or goes through apply, data and trailers; it terminates because the flag falls on the recursion |
| StreamClasses.Filter.ContinueEncodeLocalReply | src/envoy/http/golang/golang_filter.cc:454-479 | the list is cleared, the filter turns to encode, the parked headers enter Go, and its status is followed up |
| StreamClasses.Filter.EncodeParkedHeaders | src/envoy/http/golang/golang_filter.cc:465-477 | the end_stream flag of parked headers, the switch to the parked trailers, and the call |
| StreamClasses.Filter.SendLocalReplyInternal | src/envoy/http/golang/golang_filter.cc:548-573 | a local reply of Go ends the direction, unless a parked response is waiting: then it only releases that |
| StreamClasses.Filter.DecodeHeaders | src/envoy/http/golang/golang_filter.cc:43-60 | the whole state after request headers; Continue is returned exactly if they went to the next filter |
| StreamClasses.Filter.DecodeData | src/envoy/http/golang/golang_filter.cc:62-84 | the whole state after request data; Continue is returned exactly if a data frame with its end_stream flag went on |
| StreamClasses.Filter.DecodeTrailers | src/envoy/http/golang/golang_filter.cc:86-102 | the whole state after request trailers; Continue is returned exactly if they went on |
| StreamClasses.Filter.Park | src/envoy/http/golang/golang_filter.cc:120-152 | the request buffer is drained and the response headers are saved; Go and its maps are not touched |
| StreamClasses.Filter.Abandon | src/envoy/http/golang/golang_filter.cc:120-161 | buffer drained and list cleared, when Go holds nothing |
| StreamClasses.Filter.EncodeHeaders | src/envoy/http/golang/golang_filter.cc:104-168 | the response starts normally, early, or is parked, by the state of the current direction; Continue is returned exactly if its headers went on |
| StreamClasses.Filter.EncodeData | src/envoy/http/golang/golang_filter.cc:170-198 | parked, or handled in the encode state; the list that leaves is the one of the current direction, and Continue is returned exactly if it did |
| StreamClasses.Filter.EncodeTrailers | src/envoy/http/golang/golang_filter.cc:200-223 | parked in local_trailers_, or handled in the encode state; Continue is returned exactly if they went on |
| StreamClasses.Filter.Destroy | src/envoy/http/golang/golang_filter.cc:225-252 | once only: the flag, the reason taken from the current state, and the ASSERT on req_ |
| StreamClasses.Filter.Complete | src/envoy/http/golang/golang_filter.cc:575-630 | the completion is posted, or refused because the filter is destroyed or Go does not hold it |
| StreamClasses.Filter.RunPosted | src/envoy/http/golang/golang_filter.cc:591-600 | the posted event acts only on a filter that is not destroyed |
| StreamClasses.Filter.Handle | src/envoy/http/golang/golang_filter.cc:43-252 | every event does to the objects exactly what the transition function says, and a handler returns Continue exactly if its frame was passed on |
| StreamClasses.Filter.Live | src/envoy/http/golang/golang_filter.cc:43-630 | objects that live through a legal run are in the state of that run, with the invariant intact, and the values they returned to Envoy are the frames the run passed on |
| StreamReturns.DecodeHeadersAnswers | src/envoy/http/golang/golang_filter.cc:59 | doHeaders is done exactly if the next filter gets the headers, with the flag Envoy gave; nothing else moves |
| StreamReturns.DecodeDataAnswers | src/envoy/http/golang/golang_filter.cc:78-83 | doData is done exactly if the next filter gets a data frame with that flag, behind pending headers |
| StreamReturns.DecodeTrailersAnswers | src/envoy/http/golang/golang_filter.cc:101 | doTrailer is done exactly if the next filter gets the trailers |
| StreamReturns.EntersEncoding | src/envoy/http/golang/golang_filter.cc:163-167 | the same for response headers that enter Go |
| StreamReturns.ParksHeaders | src/envoy/http/golang/golang_filter.cc:154 | parked response headers are not passed on, and parking returns StopIteration |
| StreamReturns.EncodeDataAnswers | src/envoy/http/golang/golang_filter.cc:184-197 | the same for response data, parked or not |
| StreamReturns.EncodeTrailersAnswers | src/envoy/http/golang/golang_filter.cc:213-222 | the same for response trailers, parked or not |
| StreamSafety.StepKeeps | src/envoy/http/golang/golang_filter.cc:104-168 | the inductive invariant: every event that Envoy and Go may produce keeps it |
| StreamSafety.RunSafe | src/envoy/http/golang/processor_state.h:141-159 | on every run no ASSERT fails, no state is unexpected, no null data_buffer_ is dereferenced, Go is not re-entered; RunFaults says what may come next |
| StreamSafety.ContinueStreamSettles | src/envoy/http/golang/golang_filter.cc:481-546 | a completion ends with Go outstanding exactly if the state says so |
| StreamSafety.FrameCommutes | src/envoy/http/golang/golang_filter.cc:618-628 | while a completion is posted, frames from Envoy neither reach Go nor change what the completion will do |
| StreamSafety.CompletionKeeps | src/envoy/http/golang/golang_filter.cc:604-629 | a completion that Go owes is always accepted |
| StreamSafety.ParkedKeeps | src/envoy/http/golang/golang_filter.cc:454-479 | releasing a parked response restores the invariant in the encode direction |
| StreamSafety.PostedIsHeld | src/envoy/http/golang/golang_filter.cc:481-494 | a completion is queued only for a direction Go holds or a parked response, one at a time |
| StreamSafety.DestroyedKeeps | src/envoy/http/golang/golang_filter.cc:594-600 | an event after destruction leaves everything but the queue and Go as it was |
| StreamAsserts.HeadersAssert | src/envoy/http/golang/golang_filter.cc:303-310 | from any state: headers go wrong exactly if something is buffered or the direction has had headers |
| StreamAsserts.DataAsserts | src/envoy/http/golang/golang_filter.cc:345-384 | from any state: a chunk goes wrong exactly in WaitingHeader, WaitingTrailer, ProcessingTrailer and Done, or in Go without a request |
| StreamAsserts.TrailersAssert | src/envoy/http/golang/golang_filter.cc:408-450 | from any state: trailers go wrong exactly behind an end of stream, in WaitingHeader, ProcessingTrailer and Done |
| StreamAsserts.TrailersEnd | src/envoy/http/golang/processor_state.cc:173-205 | nothing but Continue ends the direction, and no other status, legal or not, makes Go let go of trailers |
| StreamAsserts.CompletionAsserts | src/envoy/http/golang/golang_filter.cc:481-546 | from any state: a completion goes wrong exactly if Go does not hold the direction, if it drops a chunk of an empty list, or if it has more to show and data_buffer_ is null |
| StreamAsserts.ForwardAsserts | src/envoy/http/golang/golang_filter.cc:496-521 | only a direction that Go held has something to forward |
| StreamAsserts.ReleaseAsserts | src/envoy/http/golang/golang_filter.cc:454-479 | from any state: a release goes wrong exactly if no headers are parked, if the response has been in Go before, or if there is something to show and no body was parked |
| StreamProtocol.RunNeverReenters | src/envoy/http/golang/golang_filter.cc:345-450 | no call into Go starts while one is outstanding or its completion is queued; outstanding means isProcessingInGo of the current direction, a direction ended by a local reply apart |
| StreamProtocol.RunStates | src/envoy/http/golang/golang_filter.cc:170-198 | what each waiting state says about data_buffer_ and trailers at event boundaries, and that response data which is not parked finds the encode direction |
| StreamProtocol.StepEntersGo | src/envoy/http/golang/golang_filter.cc:454-546 | one event enters Go at most three times, a frame at most twice, and no call is taken back |
| StreamProtocol.GrammarAdvances | src/envoy/http/golang/processor_state.cc:276-298 | phases only advance, and only body phases repeat |
| StreamProtocol.PhasesMeet | src/envoy/http/golang/processor_state.cc:276-298 | phases stay in their direction up to Done, and Done of the request is the phase in which the response begins |
| StreamProtocol.GrammarEnds | src/envoy/http/golang/processor_state.cc:276-298 | after a call that ended its direction Go is only called for the response |
| StreamProtocol.RunGrammar | pkg/http/moe.go:103-164 | the callbacks of every run are DH DD* DT? EH ED* ET?, decode missing or cut short only by a response, each with its own map and a legal answer; of any two the later one has the later phase or is more of the same body, and nothing follows an end in its direction |
| StreamProtocol.StepFaults | src/envoy/http/golang/golang_filter.cc:241-243 | whatever legal filter Go runs, an event goes wrong if and only if it settles held or parked headers with StopAndBuffer when trailers came and no data frame did (lines 524-531), or destroys a filter that no headers ever reached |
| StreamProtocol.RunFaults | src/envoy/http/golang/golang_filter.cc:225-252 | the same for the next event of any run: nothing was wrong before it |
| StreamProtocol.ParkingIsSilent | src/envoy/http/golang/golang_filter.cc:143-152 | a response that starts while Go is busy is parked without a call and without forwarding |
| StreamProtocol.ParkedIsSilent | src/envoy/http/golang/golang_filter.cc:184-188 | as long as it is parked nothing enters Go and nothing is forwarded |
| StreamProtocol.RunParked | src/envoy/http/golang/golang_filter.cc:184-216 | the same over any run without the completion |
| StreamProtocol.ReleaseEncodesOnce | src/envoy/http/golang/golang_filter.cc:454-479 | exactly one EncodeHeaders, first, with end_stream if and only if the response is over and neither body byte nor trailers are parked; later calls are its body and trailers |
| StreamProtocol.RunDefers | src/envoy/http/golang/golang_filter.cc:143-160 | a deferred reply over a whole run: silence until the pending completion is executed, whatever it says, then one EncodeHeaders with the exact end_stream flag and no other in the whole run, and nothing of the request is forwarded ever after |
| StreamProtocol.DecodeFrozen | src/envoy/http/golang/golang_filter.cc:463-467 | from the start of a response on, no event forwards anything of the request |
| StreamProtocol.RunAbandons | src/envoy/http/golang/golang_filter.cc:120-161 | over any run nothing of the request is buffered once a response is parked or has entered Go, and nothing of it is held once a response has entered Go early |
| StreamProtocol.RunDecodeFrozen | src/envoy/http/golang/golang_filter.cc:463-467 | the same over any further run |
| StreamStalls.StreamStrands | src/envoy/http/golang/golang_filter.cc:522-545 | a completion leaves its direction stuck if and only if trailers came and either it lets the headers go with nothing to show, or Go stops at once at what it is shown |
| StreamStalls.StepStrands | src/envoy/http/golang/golang_filter.cc:408-545 | after any event the current direction is stuck if and only if the event strands it (trailers in WaitingAllData with an empty buffer, or such a completion), or it was stuck and no response begins |
| StreamStalls.RunStrands | src/envoy/http/golang/golang_filter.cc:408-545 | over whole runs: stuck now means that an event stranded the direction and no response has begun since |
| StreamStalls.RunEnds | src/envoy/http/golang/golang_filter.cc:522-545 | when all is quiet and the stream has ended, the direction is Done if and only if no event stranded it; an end_stream flag never leaves it stuck |
| StreamWitnesses.NeverCalled | src/envoy/http/golang/golang_filter.cc:241-243 | the filter can be destroyed before its first event, and the ASSERT on req_ fails |
| StreamWitnesses.BodilessRequest | src/envoy/http/golang/golang_filter.cc:524-531 | a run on which a request with trailers and no body makes the filter dereference a null data_buffer_ |
| StreamWitnesses.BodilessResponse | src/envoy/http/golang/golang_filter.cc:465-479 | the same for a response that was parked with its trailers |
| StreamWitnesses.StrandedByTrailers | src/envoy/http/golang/golang_filter.cc:424-435 | a run that trailers leave stuck in WaitingAllData |
| StreamWitnesses.StrandedByHeaders | src/envoy/http/golang/golang_filter.cc:524-531 | a run that is left stuck when Go lets the headers go |
| StreamWitnesses.StrandedByChunk | src/envoy/http/golang/golang_filter.cc:526-538 | a run, for any chunk, that is left stuck when Go stops at the chunk it is shown |
| StreamLedger.RunLedger | src/envoy/http/golang/processor_state.cc:11-42 | after any run, in both directions: received is the ledger then data_buffer_, forwarded and held are its chunks with that fate in order, bytes_ is the held total modulo 2^32, and Go was called with the chunks marked as shown |
| StreamLedger.StepLedger | src/envoy/http/golang/processor_state.cc:11-42 | every event keeps those books |
| StreamLedger.StopDropsShown | src/envoy/http/golang/processor_state.cc:145-151 | StopNoBuffer drops the chunk of the last call into Go, and only that |
| StreamLedger.ClearAllLedger | src/envoy/http/golang/processor_state.cc:39-42 | clearing the list drops what was held, in the books as in the list |
| StreamLedger.DrainLedger | src/envoy/http/golang/processor_state.cc:243-251 | draining drops what was buffered and not shown |
| StreamLedger.SendListLedger | src/envoy/http/golang/processor_state.h:131-139 | what leaves is what was held, in order, after what had left before |
| StreamTransparency.RunTransparent | src/envoy/http/golang/golang_filter.cc:303-546 | for a filter that always answers Continue, at once or later, whatever Envoy sends: the next filter has a prefix of the body, unterminated, and at Done headers, the exact body, the trailers and one end of stream |
| StreamTransparency.ScheduleIrrelevant | src/envoy/http/golang/golang_filter.cc:303-546 | two schedules that were sent the same show the next filter the same |
| StreamTransparency.RunHoldsNothing | src/envoy/http/golang/golang_filter.cc:499-514 | such a filter holds nothing back: as long as Envoy has not ended the stream and Go is idle, the next filter has the headers and all of the body so far |
| StreamTransparency.RunNeverStalls | src/envoy/http/golang/golang_filter.cc:522-545 | such a filter is Done when Envoy has ended the stream, Go is idle and nothing is queued, if and only if no completion let headers go behind which there were trailers and no body byte |
| StreamTransparency.StepBare | src/envoy/http/golang/golang_filter.cc:522-545 | an event strands a direction of such a filter exactly if it is such a completion |
| StreamTransparency.RunInput | src/envoy/http/golang/golang_filter.cc:43-102 | recv and seen_trailers_ are what Envoy sent |
| StreamMaps.RunLeads | src/envoy/http/golang/golang_filter.cc:288-314 | on every run headers_ leads to the headers Go was shown last, and to none if a frame of headers was let through at once; trailers_ leads to the trailers that came last |
| StreamMaps.HeadersInReach | src/envoy/http/golang/golang_filter.cc:690-738 | so Go code that owes its completion reaches headers and trailers, in any phase, exactly if there are such |
| StreamMaps.HeadersAfterTheyLeft | src/envoy/http/golang/golang_filter.cc:499-508 | a run, for any chunk, after which the headers have left the filter and Go can still write to them |
| StreamAsks.NextChunk | src/envoy/http/golang/golang_filter.cc:345-384 | any legal filter, Go idle: a chunk enters Go at once and alone if and only if the last status of Go, answered or completed, was not StopAndBuffer; after it only the last chunk does, with everything buffered |
| StreamAsks.RunGathers | src/envoy/http/golang/processor_state.cc:136-142 | after StopAndBuffer any number of chunks gather in data_buffer_, in order, and none enters Go |
| StreamAsks.RunGathered | src/envoy/http/golang/golang_filter.cc:356-367 | and the chunk that ends the stream takes all of them along in one call |
| StreamAsks.NextTrailers | src/envoy/http/golang/golang_filter.cc:408-450 | trailers enter Go at once if and only if the last status was not StopAndBuffer; after it the gathered body goes first, and nothing does if nothing was gathered |
| StreamAsks.NextCompletion | src/envoy/http/golang/golang_filter.cc:526-538 | when Go settles a call, what arrived meanwhile enters Go in one call: after StopAndBuffer only with the end of the stream, otherwise if there is anything |
| StreamAsks.NextCompletionTrailers | src/envoy/http/golang/golang_filter.cc:526-545 | the same when trailers have come: body, then trailers if Go lets the body go |
| StreamAsks.RunLetsGo | src/envoy/http/golang/golang_filter.cc:496-514 | after Continue the list is empty; and if it was about headers, they have gone out with the flag Envoy gave, and nothing else |
| StreamShape.RunShape | src/envoy/http/golang/processor_state.h:131-225 | for every legal filter: headers first and once, then body, then trailers; the stream has ended for the next filter if and only if the direction is Done, with the last frame, and once unless trailers follow a flush that claimed the end |
| StreamShape.StepShape | src/envoy/http/golang/golang_filter.cc:43-223 | every event keeps that shape |
| StreamShape.ContinueStreamShape | src/envoy/http/golang/golang_filter.cc:496-545 | so does a completion with all it sets going |
| StreamDestroy.HeldApi | src/envoy/http/golang/golang_filter.cc:632-654 | a Go filter that owes its completion is let in, reaches its own maps, and its completion is accepted |
| StreamDestroy.DestroyReasonExact | src/envoy/http/golang/golang_filter.cc:240-247 | Normal exactly when no call is outstanding or queued and Go did not end the response itself |
| StreamDestroy.RunDies | src/envoy/http/golang/golang_filter.cc:225-252 | destruction at any moment of a run: the exact reason, and nothing changes or enters Go afterwards |
| StreamDestroy.RunDestroyed | src/envoy/http/golang/golang_filter.cc:591-628 | after onDestroy no run changes either direction or enters Go, and every API call, those on buffers included, is refused as destroyed |
| StreamEdges.TrailersDuringHeaders | src/envoy/http/golang/golang_filter.cc:524-531 | trailers with no data frame before them while Go holds the headers: a null dereference if and only if Go asks to buffer, otherwise the direction is stuck |
| StreamEdges.RunConserves | src/envoy/http/golang/processor_state.cc:11-42 | bytes in are bytes out, held, buffered or dropped, on every run |
| StreamEdges.SyncTrailersStrand | src/envoy/http/golang/golang_filter.cc:418-435 | when Go lets trailers through at once the next filter has the whole body if and only if nothing was held or buffered |
| StreamEdges.StrandedBody | src/envoy/http/golang/golang_filter.cc:418-435 | a legal run, for any body, on which headers and trailers leave and the body stays in the list |
| StreamEdges.AsyncTrailersEndTwice | src/envoy/http/golang/processor_state.h:131-159 | when trailers are let through later the next filter sees two ends of stream if and only if the list was not empty by its counter: no multiple of 2^32 bytes was held |
| StreamEdges.EndsTwice | src/envoy/http/golang/processor_state.h:131-159 | a run, for any body whose size is no multiple of 2^32, on which the next filter sees two ends of stream |
| BufferedAdapter.BufferedFilter.DecodeHeaders | pkg/http/buffered/filtermanager.go:46-53 | an ended request runs the inner filter with nil data; otherwise the map is kept |
| BufferedAdapter.BufferedFilter.DecodeData | pkg/http/buffered/filtermanager.go:55-62 | the last chunk runs the inner filter with the kept map; any other is kept |
| BufferedAdapter.BufferedFilter.DecodeTrailers | pkg/http/buffered/filtermanager.go:64-67 | trailers run the inner filter with what was kept |
| BufferedAdapter.BufferedFilter.EncodeHeaders | pkg/http/buffered/filtermanager.go:69-76 | the same for a response |
| BufferedAdapter.BufferedFilter.EncodeData | pkg/http/buffered/filtermanager.go:78-85 | the same for response data |
| BufferedAdapter.BufferedFilter.EncodeTrailers | pkg/http/buffered/filtermanager.go:87-90 | the same for response trailers |
| BufferedAdapter.BufferedFilter.Dispatch | pkg/http/moe.go:103-192 | the phase picks the callback of the right direction and leaves the other side alone |
| BufferedAdapter.HeadersBuffer | pkg/http/buffered/filtermanager.go:46-53 | composed with the protocol: headers are kept, or run the inner filter |
| BufferedAdapter.DataBuffers | src/envoy/http/golang/golang_filter.cc:354-368 | data frames gather until the last one hands over the whole body |
| BufferedAdapter.TrailersBuffer | src/envoy/http/golang/golang_filter.cc:424-436 | trailers hand over the body first, without an end, and then run the inner filter |
| BufferedAdapter.ContinueBuffered | pkg/http/buffered/filtermanager.go:30-44 | when the goroutine returns, the direction is Done and all of it is passed on in one frame |
| BufferedAdapter.RunDeliversOnce | pkg/http/buffered/filtermanager.go:30-90 | on every run and per direction: the inner filter ran at most once, and it ran if and only if the direction is complete, not parked, and trailers came neither before any body byte nor while the response was parked; with headers, whole body and trailers; after it the next filter has exactly that |
| BufferedAdapter.ParkedTrailersStrand | src/envoy/http/golang/golang_filter.cc:465-537 | releasing a parked response that is over runs the inner Encode if and only if no trailers are parked; otherwise nothing is forwarded, and without a data frame the null data_buffer_ is dereferenced |
| BufferedAdapter.ParkedWhole | src/envoy/http/golang/golang_filter.cc:465-537 | a run of the adapter, for any body, on which a response parked whole is stuck and the inner Encode never runs |
| GoRequest.HttpRequest.Complete | pkg/http/capi.go:76-104 | the completion as the C side takes it; any other answer than OK is the panic that belongs to it |
| GoRequest.HttpRequest.SafeReplyPanic | pkg/http/filter.go:73-78 | one local reply; safePanic stays set exactly if it was refused |
| GoRequest.HttpRequest.RecoverPanic | pkg/http/filter.go:80-104 | which panics are swallowed, which mark the request, which are answered with a reply |
| GoRequest.HttpRequest.RunInner | pkg/http/buffered/filtermanager.go:30-44 | the goroutine of the adapter, whatever it ends with and in any state: the completion, the reply and the marks that GoEnd gives, and nothing runs on |
| GoRequest.HttpRequest.RunCallback | pkg/http/moe.go:103-192 | the status the C side gets: what the callback returned, Running after a recovered panic, Continue for a marked request; the reply that is sent, and the marks that are left |
| GoRequest.HttpRequest.RunAdapter | pkg/http/moe.go:103-192 | a callback of the buffering adapter from the C call to the reported status: Running for the last part of a stream, StopAndBuffer for every other, as runs of the adapter assume |
| GoRequest.CallbackCompletesOnce | pkg/http/moe.go:103-192 | one callback on any live filter Go holds, with an unmarked request: completed at most once, exactly once if and only if it returned a plain status or panicked seriously, and marked only by NotInGo |
| GoRequest.PanicedCompletesTwice | pkg/http/moe.go:114-119 | a callback of a marked request on any live filter Go holds always completes twice: its reply is accepted and queued, and the status it reports settles the direction that the reply was queued for |
| GoRequest.ApiPanics | pkg/http/capi.go:76-104 | which error each answer of the filter API becomes in Go, and on which state of the filter |
| GoRequest.StrayCodeMarks | pkg/http/filter.go:84-92 | a call of the filter API on a live filter leaves the request marked if and only if it was, or Go does not hold the filter, or a safe reply is refused as not in Go |
| GoRequest.ImpossibleIsPossible | pkg/http/filter.go:73-104 | over any log of panics and marked callbacks of a request, one after the other, with the C side answering as the filter does: the branch called impossible is reached if and only if a serious panic comes when an earlier safe reply was refused and none was accepted since |
| GoDiscipline.EndsOnce | pkg/http/filter.go:73-104 | whatever Go code ends with while the filter waits for it, exactly one completion is accepted and queued, and undisturbed recovery leaves no mark |
| GoDiscipline.StepsMakeGoEnd | pkg/http/filter.go:73-104 | the steps of recovery, undisturbed, do what the methods of HttpRequest do |
| GoDiscipline.RunRefines | pkg/api/filter.go:91-97 | panics in callbacks, goroutines and OnDestroy included, and however recovery is interleaved, the filter sees a valid run: each callback is completed once; safePanic is set exactly while a safe reply is under way or was refused, and the request is never marked |
| GoDiscipline.RunDisciplined | pkg/http/filter.go:73-104 | on every such run accepted completions and the outstanding one are as many as the callbacks that owe one, and never more |
| GoDiscipline.InnerPanics | pkg/http/buffered/filtermanager.go:30-44 | composed with the adapter: inner filters that panic change nothing about one inner run with everything, under the same condition, and one completion per goroutine |
| GoCrashes.RunCrashes | pkg/http/filter.go:73-104 | recovery panics itself if and only if a panic is answered while the safe reply to an earlier one has not returned |
| GoCrashes.CrashKinds | pkg/http/filter.go:73-104 | then code whose reply was accepted has not cleared the flag yet, or the filter is destroyed and OnDestroy and the outstanding Go code both end seriously, in either order |
| GoCrashes.BothPanic | pkg/http/moe.go:196-212 | a run: OnDestroy panics, and then the goroutine |
| GoCrashes.CodeFirst | src/envoy/http/golang/golang_filter.cc:228-247 | a run: the goroutine panics after has_destroyed_ is set, and then OnDestroy |
| GoCrashes.LivePanic | pkg/http/filter.go:73-78 | a run on a live filter: the goroutine has not cleared the flag when the response enters Go and panics |
| GoCrashes.MarkedByStrayCode | pkg/http/moe.go:114-119 | a run on a live filter that marks the request, so that its next callback completes twice |
| HeaderMarshal.PutString | src/envoy/http/golang/golang_filter.cc:664-668 | one string and its slice go behind those already written, and nothing before them changes |
| HeaderMarshal.CopyHeaderMapToGo | src/envoy/http/golang/golang_filter.cc:656-679 | 2n slices lie end to end from the start of the buffer and hold keys and values in order; later slices are not touched |
| HeaderMarshal.LaidDisjoint | src/envoy/http/golang/golang_filter.cc:662-677 | slices do not overlap and stay inside the buffer |
| HeaderMarshal.LaidCovers | src/envoy/http/golang/golang_filter.cc:662-677 | every byte up to the total belongs to a slice, so an exactly sized buffer is exactly filled |
| HeaderMarshal.TotalStrings | src/envoy/http/golang/golang_filter.cc:290-291 | that total is the byteSize() Go was given |
| HeaderMarshal.HttpCopyHeaders | pkg/http/capi.go:111-140 | the regrouped map of the list, padded with empty headers to the number Go was given |
| HeaderMarshal.GroupsSnoc | pkg/http/capi.go:127-137 | one turn of the loop: the value goes behind the earlier ones of its key |
| HeaderMarshal.GroupsUnique | pkg/http/capi.go:127-137 | there is only one regrouped map of a list |
| HeaderMarshal.RoundTripExact | pkg/http/capi.go:111-140 | Go ends up with each key and its values in order, no more and no fewer, if and only if the list has as many headers as when it was counted |
| HeaderCache.HeaderMapImpl.Fill | pkg/http/type.go:59-61 | the first read loads, later ones do not |
| HeaderCache.HeaderMapImpl.Values | pkg/http/type.go:69-78 | the cached values of a key, or nil |
| HeaderCache.HeaderMapImpl.Get | pkg/http/type.go:58-67 | the first cached value of a key, or the empty string |
| HeaderCache.HeaderMapImpl.Set | pkg/http/type.go:80-85 | cache, if loaded, and Envoy are both written |
| HeaderCache.HeaderMapImpl.Add | pkg/http/type.go:87-96 | a value is appended in both |
| HeaderCache.HeaderMapImpl.Del | pkg/http/type.go:98-103 | a key is removed from both |
| HeaderCache.LowerExactly | src/envoy/http/golang/golang_filter.cc:712-716 | capitals become the small letters at their place in the alphabet, every other byte stays, and no capital is left |
| HeaderCache.LowerMeans | src/envoy/http/golang/golang_filter.cc:712-716 | a key is lower-case if and only if it has no capitals |
| HeaderCache.WriteCoherent | src/envoy/http/golang/golang_filter.cc:697-740 | a write to a loaded cache keeps it equal to the Envoy list if and only if its key is lower-case or it deletes nothing |
| HeaderCache.LoadCoherent | pkg/http/type.go:59-61 | the load equals the Envoy list if and only if the number of headers has not changed since the callback began |
| HeaderCache.RunCoherent | pkg/http/type.go:58-103 | after any sequence of reads and writes under those conditions the loaded cache is the list regrouped, and Get gives the first value of the key in the list |
| HeaderCache.WrittenEntries | src/envoy/http/golang/golang_filter.cc:706-738 | what a write leaves under each key of the Envoy list, with or without a cache: a set replaces, an add goes last, a delete removes all, under the lower-cased key only |
| HeaderCache.FirstValueExactly | src/envoy/http/golang/golang_filter.cc:646-652 | a look-up finds the first header whose key is the lower-cased one, whatever the case of the key asked for |
| HeaderReads.GetRawExactly | src/envoy/http/golang/golang_filter.cc:632-654 | a read past the cache goes to the headers of the direction exactly in ProcessingHeader, elsewhere to trailers_ or is refused, while writes and loads stay with the headers |
| HeaderReads.GetRawReadsHeaders | src/envoy/http/golang/golang_filter.cc:642 | it answers like the headers for every content of the maps if and only if the state is ProcessingHeader |
| HeaderReads.RunRaw | pkg/http/type.go:58-116 | after any proper reads and writes it agrees with the loaded cache in ProcessingHeader; elsewhere it answers from trailers_ or is refused |
| HeaderReads.RawRefused | src/envoy/http/golang/golang_filter.cc:642-645 | a run, for any body, on which Go reaches the request headers and every such read is refused |
| MetadataSema.Request.SemaAdd | pkg/http/capi.go:232 | the Add before the Lock |
| MetadataSema.Request.MutexLock | pkg/http/capi.go:235-236 | one of the blocked callers enters C |
| MetadataSema.Request.GetDynamicMetadata | src/envoy/http/golang/golang_filter.cc:840-883 | yields exactly off the worker thread on a live filter that Go holds; every other answer undoes the Add at once |
| MetadataSema.Request.SemaWait | pkg/http/capi.go:239-241 | Wait passes exactly at 0, and otherwise registers |
| MetadataSema.Request.SemaWoken | pkg/http/capi.go:239-241 | a released goroutine panics exactly if the counter is no longer 0 |
| MetadataSema.Request.PostedCallback | src/envoy/http/golang/golang_filter.cc:858-867 | the callback clears waitSema and signals, or does nothing on a destroyed filter |
| MetadataSema.Request.OnDestroy | pkg/http/moe.go:203-206 | destruction signals exactly a waiting goroutine |
| MetadataSema.RunBalances | pkg/http/capi.go:230-255 | in every interleaving of any number of callers the counter is the Adds whose Done is to come, never negative, and zero when no call is under way |
| MetadataSema.SignalledOnce | pkg/http/moe.go:203-227 | whatever goroutines do until somebody yields again, a waiting goroutine is signalled once when the first of callback and destruction comes, and never again |
| MetadataSema.WokenExactly | pkg/http/capi.go:239-241 | a waiting goroutine can come back if and only if it has been released already or nobody else has begun a call |
| MetadataSema.ComesBack | pkg/http/capi.go:232-241 | and with one caller at a time it does: without a further Add a run has a bounded length and goes on as long as the mutex is held |
| MetadataSema.OverlapDeadlocks | pkg/http/capi.go:232-236 | a second caller that begins before the first is released blocks both for ever |
| MetadataSema.ReturnsExactly | pkg/http/capi.go:239-241 | a released goroutine returns if and only if nobody else has begun by then; otherwise Wait panics |
| MetadataSema.OverlapRuns | pkg/http/capi.go:232-241 | runs that reach both overlaps |
| RequestLife.RequestEntry.CreateRequest | pkg/http/moe.go:80-96 | one more Go object with a finalizer, stored under the key |
| RequestLife.RequestEntry.OnHttpCall | pkg/http/moe.go:103-116 | created by the first phase, or when the map has no entry |
| RequestLife.RequestEntry.OnHttpDestroy | pkg/http/moe.go:196-220 | if OnDestroy returns the entry goes, and a normal end finalizes by hand and takes the finalizer away; if it panics nothing of that happens |
| RequestLife.RequestEntry.Collect | pkg/http/moe.go:76-78 | the finalizer runs once |
| RequestLife.CallsMake | pkg/http/moe.go:103-116 | in any order, one object at the first callback of all and one at each DecodeHeaders |
| RequestLife.CallsMakeOne | pkg/http/moe.go:103-116 | callbacks in grammar order make one Go object, whatever phase comes first |
| RequestLife.RunFinalizesOnce | pkg/http/moe.go:80-220 | composed with panicking Go code and a free garbage collector: one object, at most one finalization, only after OnDestroy returned, by hand exactly for Normal; the collector runs only when no Go code is under way |
| RequestLife.FinalizableExactly | pkg/http/moe.go:196-220 | once onDestroy is over the C request is or can still be finalized if and only if OnDestroy returned |
| RequestLife.NeverFinalized | pkg/http/moe.go:208-219 | a run with a normal end on which OnDestroy calls the filter, and nothing is ever finalized |
| ConfigMerge.PluginConfigs.NewHttpPluginConfig | pkg/http/config.go:50-63 | a fresh id for the parsed config |
| ConfigMerge.PluginConfigs.MergeHttpPluginConfig | pkg/http/config.go:71-91 | a fresh id for the merge, or the child itself without a parser |
| ConfigMerge.PluginConfigs.GetConfigId | src/envoy/http/golang/golang_filter.cc:972-992 | the remembered id, or parse and remember |
| ConfigMerge.PluginConfigs.GetPluginConfigId | src/envoy/http/golang/golang_filter.cc:1023-1058 | the remembered merge, or parse, merge and remember |
| ConfigMerge.PluginConfigs.GetMergedConfigId | src/envoy/http/golang/golang_filter.cc:942-961 | the loop over the route configs computes the walk |
| ConfigMerge.WalkFolds | src/envoy/http/golang/golang_filter.cc:942-961 | the id of a request stands for the plain fold, earlier ids keep their meaning, new ones are fresh and nonzero |
| ConfigMerge.RunFolds | src/envoy/http/golang/golang_filter.cc:942-1058 | the same after any sequence of requests in which each route sees the same parent; each config object is parsed at most once |
| ConfigMerge.StaleExactly | src/envoy/http/golang/golang_filter.cc:1024-1026 | once remembered, the answer is the fold if and only if the route sees the parent it was first merged with, or there is no parser |
| ConfigMerge.StaleRoute | src/envoy/http/golang/golang_filter.cc:1024-1026 | three requests, for any configs, the last of which is answered with the config of another parent |
| Watermarks.ProcessorState.OnAboveHighWatermark | src/envoy/http/golang/processor_state.cc:329-344 | 413 while Go wants the whole body, otherwise reading is turned off once |
| Watermarks.ProcessorState.OnBelowLowWatermark | src/envoy/http/golang/processor_state.cc:322-328 | reading is turned on if it was off |
| Watermarks.ProcessorState.AddBufferData | src/envoy/http/golang/processor_state.cc:319-349 | the buffer grows and may cross its limit |
| Watermarks.ProcessorState.DrainBufferData | src/envoy/http/golang/processor_state.cc:243-251 | the buffer empties and may fall below its low watermark |
| Watermarks.RunBalances | src/envoy/http/golang/processor_state.cc:319-381 | off and on strictly alternate, watermark_requested_ says which came last, and an empty buffer never leaves reading off |
| Watermarks.TooLargeExactly | src/envoy/http/golang/processor_state.cc:330-338 | 413 exactly when the limit is crossed in WaitingAllData and was not crossed before |
| Watermarks.OverflowFirst | src/envoy/http/golang/processor_state.cc:330-344 | both sides, for any limit and body: overflow before Go asks for everything is never refused, overflow after it is |
| Watermarks.ResumesExactly | src/envoy/http/golang/processor_state.cc:322-328 | reading resumes exactly when a paused buffer is emptied |
| Watermarks.PausesExactly | src/envoy/http/golang/processor_state.cc:339-343 | reading is paused exactly when data takes the buffer over its limit in any state but WaitingAllData, and it was not over it already |
| Watermarks.RunCounts | src/envoy/http/golang/processor_state.cc:319-381 | the buffer holds exactly the bytes added since it was last emptied |
| Watermarks.RunPauses | src/envoy/http/golang/processor_state.cc:319-349 | a buffer over its limit is so since some data took it there and nothing emptied it, and all that time Envoy is paused unless Go wanted the whole body then |
| BufferEdits.BufferList.CheckExisting | src/envoy/http/golang/processor_state.cc:44-51 | found or not, every buffer in front of the one looked for is gone |
| BufferEdits.BufferList.EditBuffer | src/envoy/http/golang/golang_filter.cc:761-783 | the buffer found is changed, the ones in front of it are gone, bytes_ stays |
| BufferEdits.EditsExactly | src/envoy/http/golang/golang_filter.cc:774-781 | an append leaves the old bytes as a prefix, a prepend as a suffix, and a set leaves none of them |
| BufferEdits.LookupKeepsExactly | src/envoy/http/golang/processor_state.cc:44-51 | the look-up leaves the list alone if and only if the buffer is the first one |
| BufferEdits.EditKeepsCountExactly | src/envoy/http/golang/golang_filter.cc:774-781 | after an edit bytes_ is right if and only if the size is the same modulo 2^32 |

## Left out

- Loading shared libraries, cgo calls and pointer casts, weak pointers: a filter is alive or destroyed, and a missing library (which lets everything pass) does not occur.
- C++ exceptions thrown by a call into Go, which the source catches and logs.
- The clean-up of configs (moeDestroyHttpPluginConfig), failing protobuf serialisation and ids that wrap around at 2^64: the id generator counts without bound.
- The 413 reply and what follows it in WaitingAllData: only the decision to send it is modelled.
- Response frames that overlap request frames, and callbacks of Envoy that re-enter the filter.
- Envoy's own filter manager, dispatcher, header map and buffers, including joining of inline headers and the position of a header that is overwritten: the header map is a list of pairs.
- Upper-case header keys beyond the exact condition of `WriteCoherent`; trailer maps, whose Add and Del are not implemented in the source and whose reads repeat those of header maps; Range, which stops at the caller's will.
- Buffers that Go edits and reads again, beyond BufferEdits; buffers there have handles in place of addresses.
- The body of a metadata value and setDynamicMetadata, the route name, logging, cost metrics, the access log.
- The mosn adapter and the echo filter.
- Memory after finalization: Go code that still uses the C request after its completion is outside the discipline.
- StreamClasses.ProcessorState.AddBufferData: without the watermark callbacks and the decision for 413, which Watermarks.ProcessorState.AddBufferData has.
- StreamClasses.ProcessorState.DrainBufferData: without the low-watermark callback, which Watermarks.ProcessorState.DrainBufferData has.
- StreamClasses.Filter.DoHeadersGo: without the config id of the request, which ConfigMerge has, and without exceptions caught around the call into Go.
- StreamClasses.Filter.DoDataGo: without the catch branches, which return false.
- StreamClasses.Filter.DoTrailerGo: without the catch branches, which leave done true.
- StreamSafety.RunSafe: a run stops before a null data_buffer_ is dereferenced and before a filter without a request is destroyed; when that comes next is exactly `RunFaults`.
- StreamTransparency.RunTransparent: asks that no chunk shown to Go has a size that is a multiple of 2^32 other than 0, because empty() is then wrong (StreamEdges.EmptyCountsModulo).
- BufferedAdapter.BufferedFilter.Dispatch: an unmarked request that exists; marks are in GoRequest.HttpRequest.RunCallback, creation in RequestLife.
- GoDiscipline.RunRefines: Go code does not run on after its completion; what happens if it does is `StrayCodeMarks` and `PanicedCompletesTwice`. Reads and writes of safePanic are atomic steps in one order.
- HeaderMarshal.CopyHeaderMapToGo: asks for arrays that the list has not outgrown; otherwise the source writes past their end, and memory outside the arrays is not modelled.
- HeaderMarshal.HttpCopyHeaders: the same.
- HeaderCache.HeaderMapImpl.Fill: the same, for the sizes recorded when the callback began.
- HeaderCache.HeaderMapImpl.Values: the same, at its first read.
- HeaderCache.HeaderMapImpl.Get: the same, at its first read.
- HeaderCache.RunCoherent: asks for lower-case keys in writes and an unchanged number of headers at the first read, because the cache is wrong otherwise (`WriteCoherent`, `LoadCoherent`).
- MetadataSema.Request.GetDynamicMetadata: without the bytes of the value, and with the error answers, which all take the same branch, as one.
- ConfigMerge.RunFolds: asks that each route always sees the same parent, because the remembered id is wrong otherwise (`StaleExactly`).
- RequestLife.RequestEntry.OnHttpDestroy: one key of the request map at a time, as keys do not influence each other; the wake-up of a waiting goroutine is in MetadataSema.Request.OnDestroy.
