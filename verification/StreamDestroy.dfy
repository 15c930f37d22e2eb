/**
 Destruction of the filter, and what the filter API answers to Go before and after it.
 */
module StreamDestroy {
  import opened StreamTypes
  import opened StreamSpec
  import opened StreamRuns
  import opened StreamSafety

  /**
   What a call of the filter API needs: nothing, headers_, trailers_, one of them by phase, or a buffer
   that the list must still have.
   */
  datatype ApiCall = GetStringValue | GetHeader | UseHeaders | UseTrailers | UseBuffer(listed: bool)

  /** The map a call acts on. getHeader looks at headers_ only while headers are processed. */
  function ApiMap(f: FilterView, call: ApiCall): Option<HeaderMap> {
    match call
    case GetStringValue | UseBuffer(_) => None
    case GetHeader => if f.P(f.Cur()).state.ProcessingHeader? then f.t.headers else f.t.trailers
    case UseHeaders => f.t.headers
    case UseTrailers => f.t.trailers
  }

  function ApiStatus(f: FilterView, call: ApiCall): CAPIStatus {
    if f.destroyed then CAPIFilterIsDestroy
    else if !f.P(f.Cur()).ProcessingInGo() then CAPINotInGo
    else if call.GetStringValue? || (call.UseBuffer? && call.listed) || ApiMap(f, call).Some? then CAPIOK
    else CAPIInvalidPhase
  }

  /**
   A Go filter that still owes its completion is always let in, and the maps it reaches are its own:
   the headers of the direction while they are processed, the trailers of the direction while they
   are, and also its completion is accepted.
   */
  lemma HeldApi(f: FilterView, c: Completion)
    requires Inv(f) && !f.destroyed && f.t.running
    ensures ApiStatus(f, GetStringValue) == CAPIOK && GoCompletes(f, c).1 == CAPIOK
    ensures forall listed :: ApiStatus(f, UseBuffer(listed)) == if listed then CAPIOK else CAPIInvalidPhase
    ensures var state := f.P(f.Cur()).state;
            && (state.ProcessingHeader? ==>
                  && ApiStatus(f, GetHeader) == ApiStatus(f, UseHeaders) == CAPIOK
                  && ApiMap(f, GetHeader) == ApiMap(f, UseHeaders) == Some(HeadersOf(f.Cur())))
            && (state.ProcessingTrailer? ==>
                  && ApiStatus(f, GetHeader) == ApiStatus(f, UseTrailers) == CAPIOK
                  && ApiMap(f, GetHeader) == ApiMap(f, UseTrailers) == Some(TrailersOf(f.Cur())))
  {
    if f.waiting {
      assert Parked(f);
    } else {
      assert Steady(f);
    }
  }

  /**
   onDestroy reports Normal exactly when no call into Go is outstanding or queued and Go has not ended
   the response with a local reply of its own; in every other case it reports Terminate.
   */
  lemma DestroyReasonExact(f: FilterView)
    requires Inv(f) && !f.destroyed && f.t.hasReq
    ensures var g := OnDestroy(f);
            && g.destroyed && g.destroyReason.Some?
            && (g.destroyReason == Some(Normal) <==> !f.t.Pending() && !(f.entered && f.enc.replied))
  {
    if QueueOk(f.t) && Base(Unpost(f)) {
      var u := Unpost(f);
      if u.waiting { assert Parked(u); } else { assert Steady(u) || Replied(u); }
    }
  }

  /** onDestroy goes wrong exactly when no headers ever reached the filter: there is no request to finish. */
  lemma DestroyNeedsRequest(f: FilterView)
    requires !f.destroyed && !f.Faulty()
    ensures OnDestroy(f).Faulty() <==> !f.t.hasReq
  {
  }

  /**
   After onDestroy, whatever Go and the dispatcher still do: nothing in either direction changes, Go
   is not entered, nothing more is queued, and every call of the filter API is refused.
   */
  lemma {:induction false} RunDestroyed(f: FilterView, run: Run)
    requires f.destroyed && From(f, run)
    ensures var g := run.Last();
            && g.destroyed && g.dec == f.dec && g.enc == f.enc && g.t.calls == f.t.calls
            && g.entered == f.entered && g.waiting == f.waiting && g.destroyReason == f.destroyReason
            && |g.t.queue| <= |f.t.queue|
            && (forall call: ApiCall :: ApiStatus(g, call) == CAPIFilterIsDestroy)
            && (forall c: Completion :: GoCompletes(g, c).1 == CAPIFilterIsDestroy)
    decreases |run.events|
  {
    hide Step, Enabled, LegalCalls;
    if run.events != [] {
      DropLast(f, run);
      RunDestroyed(f, run.Before());
      DestroyedKeeps(run.Before().Last(), run.LastEvent());
    }
  }

  lemma DestroyMarks(f: FilterView)
    requires Enabled(f, DestroyEvent) && !GoesWrong(f, DestroyEvent)
    ensures !f.destroyed && f.t.hasReq && Step(f, DestroyEvent) == OnDestroy(f)
    ensures OnDestroy(f).dec == f.dec && OnDestroy(f).enc == f.enc && OnDestroy(f).t.calls == f.t.calls
    ensures OnDestroy(f).destroyed
  {
  }

  /**
   Destruction in the middle of a run, at event k: the reason is Normal exactly when no call into Go is
   outstanding or queued and Go has not ended the response itself, and everything that happens afterwards
   leaves both directions, the calls and the reason as they are.
   */
  lemma RunDies(go: Oracle, run: Run, k: nat)
    requires Valid(go, run) && k < |run.events| && run.events[k] == DestroyEvent
    ensures var f, g := run.states[k], run.Last();
            && !f.destroyed && g.destroyed && g.destroyReason.Some?
            && (g.destroyReason == Some(Normal) <==> !f.t.Pending() && !(f.entered && f.enc.replied))
            && g.dec == f.dec && g.enc == f.enc && g.t.calls == f.t.calls
            && (forall call: ApiCall :: ApiStatus(g, call) == CAPIFilterIsDestroy)
  {
    hide Inv, Step, Enabled, LegalCalls;
    var f0, n := InitFilter(go), |run.events|;
    SliceFrom(f0, run, 0, k);
    RunSafe(go, Slice(run, 0, k));
    assert run.events[k] == DestroyEvent && Link(run.states[k], run.events[k], run.states[k + 1]);
    DestroyMarks(run.states[k]);
    DestroyReasonExact(run.states[k]);
    SliceFrom(f0, run, k + 1, n);
    RunDestroyed(run.states[k + 1], Slice(run, k + 1, n));
  }
}
