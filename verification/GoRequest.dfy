/**
 The Go side of one request: panic recovery around callbacks and goroutines. A panicking callback or
 goroutine still owes the filter its one completion; recovery pays it with a local reply.
 */
module GoRequest {
  import opened StreamTypes
  import opened StreamSpec
  import opened StreamRuns
  import opened StreamSafety
  import opened StreamDestroy
  import opened StreamClasses
  import opened BufferedAdapter

  /** What a piece of Go code ended with: nothing, one of the errors of the C API, or any other panic. */
  datatype Panic = NoPanic | RequestFinished | FilterDestroyed | NotInGo | InvalidPhase | OtherPanic

  /** handleCApiStatus. */
  function PanicOf(status: CAPIStatus): Panic {
    match status
    case CAPIFilterIsGone => RequestFinished
    case CAPIFilterIsDestroy => FilterDestroyed
    case CAPINotInGo => Panic.NotInGo
    case CAPIInvalidPhase => InvalidPhase
    case _ => NoPanic
  }

  /** Panics that recovery answers with a local reply. */
  predicate Serious(e: Panic) {
    e.InvalidPhase? || e.OtherPanic?
  }

  /** The fields of httpRequest that recovery uses; crashed means that a deferred recovery panicked itself. */
  datatype Recovery = Recovery(paniced: bool, safePanic: bool, crashed: bool)

  /** RecoverPanic during safeReplyPanic: safePanic is set. */
  function RecoverReply(r: Recovery, e: Panic): Recovery {
    match e
    case NoPanic | RequestFinished | FilterDestroyed => r
    case NotInGo => r.(paniced := true)
    case _ => r.(crashed := true)
  }

  /** safeReplyPanic, where the C side answers reply to sendLocalReply. */
  function SafeReply(r: Recovery, reply: CAPIStatus): Recovery {
    var e := PanicOf(reply);
    RecoverReply(r.(safePanic := !e.NoPanic?), e)
  }

  /** RecoverPanic: whether it calls sendLocalReply, and what is left. */
  function Recover(r: Recovery, e: Panic, reply: CAPIStatus): Recovery {
    match e
    case NoPanic | RequestFinished | FilterDestroyed => r
    case NotInGo => r.(paniced := true)
    case _ => if r.safePanic then r.(crashed := true) else SafeReply(r, reply)
  }

  /**
   moeOnHttpHeader and moeOnHttpData around the callback of a filter, which ends with e or returns
   status: the status reported to the C side. A recovered panic reports 0, which is Running.
   */
  function CallbackStatus(r: Recovery, status: GolangStatus, e: Panic): GolangStatus {
    if r.paniced then Continue else if e.NoPanic? then status else Running
  }

  /**
   A piece of Go code that owes the completion c ends: with the completion, which may be refused, or with a
   panic before it. Nothing of it runs on.
   */
  function GoEnd(f: FilterView, r: Recovery, e: Panic, c: Completion): (FilterView, Recovery) {
    var (g, status) := GoCompletes(f, c);
    var (h, reply) := GoCompletes(f, Reply);
    if e.NoPanic? then (g, Recover(r, PanicOf(status), reply))
    else (if Serious(e) && !r.safePanic then h else f.(t := f.t.(running := false)), Recover(r, e, reply))
  }

  lemma CompletionEnds(f: FilterView)
    ensures forall c :: !GoCompletes(f, c).0.t.running && !Serious(PanicOf(GoCompletes(f, c).1))
  {
  }

  class HttpRequest {
    const filter: Filter
    var paniced: bool
    var safePanic: bool
    var crashed: bool

    ghost function View(): Recovery
      reads this
    {
      Recovery(paniced, safePanic, crashed)
    }

    constructor (filter: Filter)
      ensures this.filter == filter && View() == Recovery(false, false, false)
    {
      this.filter := filter;
      paniced, safePanic, crashed := false, false, false;
    }

    /** cAPI.HttpContinue and cAPI.HttpSendLocalReply: any answer but CAPIOK is a panic. */
    method Complete(c: Completion) returns (e: Panic)
      requires filter.Valid()
      modifies filter.dynamicLib
      ensures e == PanicOf(GoCompletes(old(filter.View()), c).1)
      ensures filter.View() == GoCompletes(old(filter.View()), c).0
      ensures e == if filter.hasDestroyed then FilterDestroyed
                   else if filter.View().P(filter.View().Cur()).ProcessingInGo() then NoPanic else Panic.NotInGo
    {
      var status := filter.Complete(c);
      match status
      case CAPIFilterIsGone => e := RequestFinished;
      case CAPIFilterIsDestroy => e := FilterDestroyed;
      case CAPINotInGo => e := Panic.NotInGo;
      case CAPIInvalidPhase => e := InvalidPhase;
      case _ => e := NoPanic;
    }

    method SafeReplyPanic()
      requires filter.Valid()
      modifies this, filter.dynamicLib
      ensures View() == SafeReply(old(View()), GoCompletes(old(filter.View()), Reply).1)
      ensures filter.View() == GoCompletes(old(filter.View()), Reply).0
    {
      safePanic := true;
      var e := Complete(Reply);
      match e
      case NoPanic => safePanic := false;
      case RequestFinished | FilterDestroyed =>
      case NotInGo => paniced := true;
      case _ => assert false;
    }

    method RecoverPanic(e: Panic)
      requires filter.Valid()
      modifies this, filter.dynamicLib
      ensures View() == Recover(old(View()), e, GoCompletes(old(filter.View()), Reply).1)
      ensures filter.View() ==
              if Serious(e) && !old(safePanic) then GoCompletes(old(filter.View()), Reply).0 else old(filter.View())
    {
      match e
      case NoPanic | RequestFinished | FilterDestroyed =>
      case NotInGo => paniced := true;
      case _ =>
        if safePanic {
          crashed := true;
        } else {
          SafeReplyPanic();
        }
    }

    /**
     moeOnHttpHeader and moeOnHttpData: the callback of the filter returns status or ends with e. A request
     that is marked as panicked replies first and never gets to the filter.
     */
    method RunCallback(status: GolangStatus, e: Panic) returns (reported: GolangStatus)
      requires filter.Valid()
      modifies this, filter.dynamicLib
      ensures reported == CallbackStatus(old(View()), status, e)
      ensures !old(paniced) && e.NoPanic? ==> reported == status
      ensures !old(paniced) && !e.NoPanic? ==> reported == Running
      ensures old(paniced) ==> reported == Continue
      ensures var reply := GoCompletes(old(filter.View()), Reply);
              && View() == (if old(paniced) then SafeReply(old(View()), reply.1) else Recover(old(View()), e, reply.1))
              && filter.View() ==
                 if old(paniced) || (Serious(e) && !old(safePanic)) then reply.0 else old(filter.View())
    {
      hide GoCompletes;
      if paniced {
        SafeReplyPanic();
        return Continue;
      }
      RecoverPanic(e);
      reported := if e.NoPanic? then status else Running;
    }

    /**
     A callback of the buffered adapter, from the C call to the status that goes back: it answers as runs of
     the adapter assume, if the request is not marked, and keeps or starts what the adapter keeps or starts.
     */
    method RunAdapter(adapter: BufferedFilter, phase: Phase, end: bool, bytes: Bytes, headers: Option<HeaderMap>)
      returns (reported: GolangStatus)
      requires filter.Valid() && !paniced
      requires !phase.AllDone? && (phase.DecodeTrailer? || phase.EncodeTrailer? ==> end)
      modifies this, filter.dynamicLib, adapter
      ensures AdapterCalls([GoCall(phase, end, bytes, headers, reported)])
      ensures reported == if end then Running else StopAndBuffer
      ensures forall d: Direction :: adapter.View(d) ==
                if InDirection(phase, d) then
                  SideStep(old(adapter.View(d)), GoCall(phase, end, bytes, headers, reported))
                else old(adapter.View(d))
      ensures View() == old(View()) && filter.View() == old(filter.View())
    {
      hide GoCompletes, SideStep, Filter.Valid;
      var status := adapter.Dispatch(phase, end, bytes, headers);
      reported := RunCallback(status, NoPanic);
    }

    /**
     The goroutine of the buffered adapter: the inner filter runs, ending with e, and only then the
     completion is made; whatever panics is recovered.
     */
    method RunInner(e: Panic)
      requires filter.Valid()
      modifies this, filter.dynamicLib
      ensures (filter.View(), View()) == GoEnd(old(filter.View()), old(View()), e, Resume(Continue))
    {
      hide GoCompletes;
      CompletionEnds(filter.View());
      if e.NoPanic? {
        var late := Complete(Resume(Continue));
        RecoverPanic(late);
      } else {
        RecoverPanic(e);
      }
      filter.dynamicLib.running := false;
    }
  }

  lemma HeldQueue(f: FilterView)
    requires Inv(f) && !f.destroyed && f.t.running
    ensures f.t.queue == []
  {
  }

  /** The completions of a callback: a plain status is one, and so is every accepted sendLocalReply. */
  function Completions(r: Recovery, status: GolangStatus, e: Panic, reply: CAPIStatus): nat {
    var replied := if r.paniced || (Serious(e) && !r.safePanic) then reply.CAPIOK? else false;
    (if Async(CallbackStatus(r, status, e)) then 0 else 1) + if replied then 1 else 0
  }

  /**
   A callback that makes no completion call itself, on any live filter and any request without marks: it
   completes exactly once if and only if it returned a plain status, or panicked with something recovery
   takes seriously; it never completes twice, and recovery leaves no mark.
   */
  lemma CallbackCompletesOnce(f: FilterView, status: GolangStatus, e: Panic)
    requires Inv(f) && !f.destroyed && f.t.running
    ensures var r, reply := Recovery(false, false, false), GoCompletes(f, Reply).1;
            && (Completions(r, status, e, reply) == 1 <==> Serious(e) || (e.NoPanic? && !Async(status)))
            && Completions(r, status, e, reply) <= 1
            && (Recover(r, e, reply) == r <==> !e.NotInGo?)
  {
    HeldApi(f, Reply);
  }

  lemma ContinueSettles(p: ProcView)
    requires p.ProcessingInGo()
    ensures !HandleGolangStatus(p, Continue).0.ProcessingInGo()
  {
  }

  /**
   A callback of a marked request, on any live filter: whatever it would have answered, its local reply is
   accepted and queued, and the plain status it reports settles the direction as well. It completes
   twice, and the queued reply finds a direction that Go no longer holds.
   */
  lemma PanicedCompletesTwice(f: FilterView, r: Recovery, status: GolangStatus, e: Panic)
    requires Inv(f) && !f.destroyed && f.t.running && r.paniced
    ensures var (g, reply) := GoCompletes(f, Reply);
            && Completions(r, status, e, reply) == 2 && g.t.queue == [Reply]
            && SafeReply(r, reply) == r.(safePanic := false)
            && !HandleGolangStatus(g.P(g.Cur()), CallbackStatus(r, status, e)).0.ProcessingInGo()
  {
    hide Inv, HandleGolangStatus;
    HeldApi(f, Reply);
    HeldQueue(f);
    ContinueSettles(f.P(f.Cur()));
    assert [] + [Reply] == [Reply];
  }

  /**
   What Go code sees of a refused call of the filter API: one error for a destroyed filter, one for a filter
   that Go does not hold, one for a map or buffer that is not there; and no error otherwise.
   */
  lemma ApiPanics(f: FilterView, call: ApiCall)
    ensures var e := PanicOf(ApiStatus(f, call));
            && (e.FilterDestroyed? <==> f.destroyed)
            && (e.NotInGo? <==> !f.destroyed && !f.P(f.Cur()).ProcessingInGo())
            && (e.InvalidPhase? <==> ApiStatus(f, call).CAPIInvalidPhase?)
            && (e.NoPanic? <==> ApiStatus(f, call).CAPIOK?)
  {
  }

  /** A request is marked by Go code that runs on after its completion and calls the filter again. */
  lemma StrayCodeMarks(f: FilterView, call: ApiCall, r: Recovery, reply: CAPIStatus)
    requires Inv(f) && !f.destroyed
    ensures Recover(r, PanicOf(ApiStatus(f, call)), reply).paniced <==>
            r.paniced || !f.P(f.Cur()).ProcessingInGo() ||
            (ApiStatus(f, call).CAPIInvalidPhase? && !r.safePanic && reply.CAPINotInGo?)
  {
  }

  // ---------- the branch that recovery calls impossible ----------

  /**
   What recovery sees on one request: a piece of Go code ended with e, or a callback of a marked request;
   and the filter as sendLocalReply would find it then. Recoveries that overlap are in GoCrashes.
   */
  datatype Entry = Recovers(e: Panic, f: FilterView) | Marked(f: FilterView)

  /** A panic of recovery itself ends the process. */
  function Meet(r: Recovery, entry: Entry): Recovery {
    if r.crashed then r
    else
      var reply := GoCompletes(entry.f, Reply).1;
      match entry
      case Recovers(e, _) => Recover(r, e, reply)
      case Marked(_) => SafeReply(r, reply)
  }

  function MeetAll(log: seq<Entry>): Recovery {
    if log == [] then Recovery(false, false, false) else Meet(MeetAll(log[..|log| - 1]), log[|log| - 1])
  }

  predicate SeriousEntry(entry: Entry) {
    entry.Recovers? && Serious(entry.e)
  }

  /** A safe reply was tried, and the C side refused it, or accepted it. */
  predicate Refused(entry: Entry) {
    (entry.Marked? || SeriousEntry(entry)) && !GoCompletes(entry.f, Reply).1.CAPIOK?
  }

  predicate Accepted(entry: Entry) {
    (entry.Marked? || SeriousEntry(entry)) && GoCompletes(entry.f, Reply).1.CAPIOK?
  }

  /** Some safe reply was refused, and none has been accepted since. */
  ghost predicate RefusedLast(log: seq<Entry>) {
    exists i :: 0 <= i < |log| && Refused(log[i]) && forall k :: i < k < |log| ==> !Accepted(log[k])
  }

  ghost predicate SeriousAfterRefused(log: seq<Entry>, j: nat)
    requires j < |log|
  {
    SeriousEntry(log[j]) && RefusedLast(log[..j])
  }

  lemma RefusedLastSnoc(log: seq<Entry>, x: Entry)
    ensures RefusedLast(log + [x]) <==> Refused(x) || (RefusedLast(log) && !Accepted(x))
  {
    hide Refused, Accepted;
    var longer := log + [x];
    assert forall k :: 0 <= k < |log| ==> longer[k] == log[k];
    assert longer[|log|] == x;
    if Refused(x) {
      assert Refused(longer[|log|]);
    }
    if RefusedLast(log) && !Accepted(x) {
      var i :| 0 <= i < |log| && Refused(log[i]) && forall k :: i < k < |log| ==> !Accepted(log[k]);
      assert Refused(longer[i]);
    }
  }

  /**
   Over any log of one request, marked callbacks included, one entry after the other, and with the C side
   answering as the filter does: recovery panics itself if and only if a serious panic comes when an
   earlier safe reply was refused and none has been accepted since, because a refused reply leaves
   safePanic set.
   */
  lemma {:induction false} ImpossibleIsPossible(log: seq<Entry>)
    ensures MeetAll(log).crashed <==> exists j :: 0 <= j < |log| && SeriousAfterRefused(log, j)
    ensures !MeetAll(log).crashed ==> (MeetAll(log).safePanic <==> RefusedLast(log))
  {
    if log != [] {
      var n := |log| - 1;
      var init, last := log[..n], log[n];
      assert log == init + [last];
      ImpossibleIsPossible(init);
      RefusedLastSnoc(init, last);
      MeetStep(MeetAll(init), last);
      hide *;
      CrashSnoc(init, last);
    }
  }

  lemma CrashSnoc(init: seq<Entry>, last: Entry)
    ensures var log := init + [last];
            (exists j :: 0 <= j < |log| && SeriousAfterRefused(log, j)) <==>
            (exists j :: 0 <= j < |init| && SeriousAfterRefused(init, j)) || (SeriousEntry(last) && RefusedLast(init))
  {
    hide RefusedLast, SeriousEntry;
    var log := init + [last];
    forall j | 0 <= j < |init|
      ensures SeriousAfterRefused(log, j) <==> SeriousAfterRefused(init, j)
    {
      assert log[..j] == init[..j] && log[j] == init[j];
    }
    assert log[..|init|] == init && log[|init|] == last;
    assert SeriousAfterRefused(log, |init|) <==> SeriousEntry(last) && RefusedLast(init);
    if j :| 0 <= j < |init| && SeriousAfterRefused(init, j) {
      assert SeriousAfterRefused(log, j);
    }
  }

  lemma MeetStep(r: Recovery, x: Entry)
    ensures !r.crashed ==> (Meet(r, x).crashed <==> SeriousEntry(x) && r.safePanic)
    ensures !r.crashed && !Meet(r, x).crashed ==>
              (Meet(r, x).safePanic <==> Refused(x) || (r.safePanic && !Accepted(x)))
    ensures r.crashed ==> Meet(r, x) == r
  {
  }
}
