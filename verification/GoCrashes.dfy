/**
 Recovery that panics itself. Recovery reads safePanic and takes a set flag for the impossible; but the flag
 is shared by all Go code of a request and by its OnDestroy, and a refused reply leaves it set.
 */
module GoCrashes {
  import opened StreamTypes
  import opened StreamSpec
  import opened StreamRuns
  import opened StreamSafety
  import opened StreamDestroy
  import opened StreamWitnesses
  import opened GoRequest
  import opened GoDiscipline
  import HeaderReads

  // ---------- exactly when it happens ----------

  /** Recovery sets safePanic. */
  predicate Sets(m: Move) {
    m.CodeSets? || m.DestroyReplies?
  }

  /** Go code or OnDestroy ends with a panic that recovery answers: it looks at safePanic. */
  predicate Starts(m: Move) {
    (m.CodeEnds? || m.DestroyEnds?) && Serious(m.e)
  }

  /** A safe reply was begun, and no accepted one has returned since. */
  ghost predicate Unreturned(moves: seq<Move>) {
    exists i :: 0 <= i < |moves| && Sets(moves[i]) && forall k :: i < k < |moves| ==> !moves[k].CodeLeaves?
  }

  /** One panic is answered while the safe reply to an earlier one has not returned. */
  ghost predicate Overlap(moves: seq<Move>) {
    exists j :: 0 <= j < |moves| && Starts(moves[j]) && Unreturned(moves[..j])
  }

  lemma UnreturnedSnoc(moves: seq<Move>, m: Move)
    ensures Unreturned(moves + [m]) <==> Sets(m) || (Unreturned(moves) && !m.CodeLeaves?)
  {
    hide Sets;
    var longer := moves + [m];
    assert longer[|moves|] == m;
    assert forall k :: 0 <= k < |moves| ==> longer[k] == moves[k];
    if Sets(m) {
      assert Sets(longer[|moves|]);
    }
    if Unreturned(moves) && !m.CodeLeaves? {
      var i :| 0 <= i < |moves| && Sets(moves[i]) && forall k :: i < k < |moves| ==> !moves[k].CodeLeaves?;
      assert Sets(longer[i]);
    }
  }

  lemma OverlapSnoc(moves: seq<Move>, m: Move)
    ensures Overlap(moves + [m]) <==> Overlap(moves) || (Starts(m) && Unreturned(moves))
  {
    hide Starts, Unreturned;
    var longer := moves + [m];
    assert longer[|moves|] == m && longer[..|moves|] == moves;
    forall j | 0 <= j < |moves|
      ensures longer[j] == moves[j] && longer[..j] == moves[..j]
    {
    }
    if Overlap(moves) {
      var j :| 0 <= j < |moves| && Starts(moves[j]) && Unreturned(moves[..j]);
      assert Starts(longer[j]) && Unreturned(longer[..j]);
    }
  }

  lemma MoveCrashes(p: Process, m: Move)
    requires !p.r.crashed
    ensures Next(p, m).r.crashed <==> Starts(m) && p.r.safePanic
    ensures !Next(p, m).r.crashed ==> (Next(p, m).r.safePanic <==> Sets(m) || (p.r.safePanic && !m.CodeLeaves?))
  {
    hide Step, GoCompletes;
  }

  /**
   Recovery panics itself, and with it the process ends, if and only if some panic is answered while the
   safe reply to an earlier one has not returned: because it is still on its way, or because it was refused
   and never returns.
   */
  lemma {:induction false} RunCrashes(go: Oracle, run: ProcessRun)
    requires ValidProcess(go, run)
    ensures run.Last().r.crashed <==> Overlap(run.moves)
    ensures !run.Last().r.crashed ==> (run.Last().r.safePanic <==> Unreturned(run.moves))
    decreases |run.moves|
  {
    hide Next, InitFilter, LegalCalls, Unreturned, Overlap;
    if run.moves == [] {
      NothingOverlaps();
    } else {
      var before, m := run.Before(), run.LastMove();
      DropMove(go, run);
      RunCrashes(go, before);
      MoveCrashes(before.Last(), m);
      assert run.moves == before.moves + [m];
      UnreturnedSnoc(before.moves, m);
      OverlapSnoc(before.moves, m);
    }
  }

  lemma NothingOverlaps()
    ensures !Overlap([]) && !Unreturned([])
  {
  }

  /**
   The ways this happens. Code whose reply was accepted has not yet cleared the flag. Or the filter is
   destroyed and both end with a serious panic, OnDestroy and the Go code that was still outstanding, in
   either order: the reply of the first is refused.
   */
  lemma CrashKinds(go: Oracle, run: ProcessRun)
    requires ValidProcess(go, run) && run.moves != []
    ensures var p, m := run.Before().Last(), run.LastMove();
            && (run.Last().r.crashed <==> Starts(m) && Busy(p))
            && (run.Last().r.crashed && !p.leaving ==>
                  && p.f.destroyed
                  && if m.CodeEnds? then p.ending.Rebuffed? else p.code.Replying? || p.code.Refused?)
  {
    hide Next, InitFilter, LegalCalls, Valid, ProcessRun.Plain;
    DropMove(go, run);
    RunRefines(go, run.Before());
    MoveCrashes(run.Before().Last(), run.LastMove());
    var p, m := run.Before().Last(), run.LastMove();
    if Starts(m) && Busy(p) && !p.leaving {
      LonelyCrash(p, m);
    }
  }

  lemma LonelyCrash(p: Process, m: Move)
    requires Fit(p) && Possible(p, m) && Starts(m) && Busy(p) && !p.leaving
    ensures p.f.destroyed
    ensures if m.CodeEnds? then p.ending.Rebuffed? else p.code.Replying? || p.code.Refused?
  {
  }

  // ---------- runs on which it happens ----------

  lemma ExtendMoves(go: Oracle, run: ProcessRun, m: Move, q: Process) returns (longer: ProcessRun)
    requires ValidProcess(go, run) && Moves(run.Last(), m, q)
    ensures ValidProcess(go, longer) && longer.Last() == q && longer.moves == run.moves + [m]
  {
    hide Moves, InitProcess;
    longer := ProcessRun(run.moves + [m], run.states + [q]);
    forall i | 0 <= i < |longer.moves|
      ensures Moves(longer.states[i], longer.moves[i], longer.states[i + 1])
    {
      if i < |run.moves| {
        assert longer.moves[i] == run.moves[i] && longer.states[i] == run.states[i];
      } else {
        assert longer.states[i] == run.Last();
      }
    }
  }

  /** A goroutine holds the request headers. */
  lemma HeldRun() returns (run: ProcessRun)
    ensures ValidProcess(Later, run) && run.moves == [Envoy(DecodeHeadersEvent(false))]
    ensures run.Last() == Process(Asked(Later), UNMARKED, 0, Free, NotBegun, false)
  {
    hide Moves, Step;
    run := ProcessRun([], [InitProcess(Later)]);
    HeadersShown(Later);
    EnvoyMoves(InitProcess(Later), DecodeHeadersEvent(false), Asked(Later));
    run := ExtendMoves(Later, run, Envoy(DecodeHeadersEvent(false)), InitProcess(Later).(f := Asked(Later)));
  }

  /** And the filter is destroyed under it. */
  function Dying(): FilterView {
    Asked(Later).(destroyed := true, destroyReason := Some(Terminate))
  }

  lemma DyingRun() returns (run: ProcessRun)
    ensures ValidProcess(Later, run) && run.moves == [Envoy(DecodeHeadersEvent(false)), Envoy(DestroyEvent)]
    ensures run.Last() == Process(Dying(), UNMARKED, 0, Free, Inside, false)
  {
    hide Moves, Step;
    run := HeldRun();
    Dies();
    EnvoyMoves(run.Last(), DestroyEvent, Dying());
    run := ExtendMoves(Later, run, Envoy(DestroyEvent), run.Last().(f := Dying(), ending := Inside));
  }

  lemma Dies()
    ensures Link(Asked(Later), DestroyEvent, Dying())
    ensures LegalCompletion(Dying().t.calls, Reply) && LegalCalls(Dying().t.calls)
  {
  }

  lemma CodeMoves(p: Process, m: Move, q: Process)
    requires Possible(p, m) && !m.Envoy? && LegalCalls(q.f.t.calls) && q == Next(p, m)
    ensures Moves(p, m, q)
  {
    hide Possible, Next;
  }

  /** OnDestroy panics first, and then the goroutine that was still running. */
  lemma BothPanic() returns (run: ProcessRun)
    ensures ValidProcess(Later, run) && run.Last().r.crashed
    ensures run.moves == [Envoy(DecodeHeadersEvent(false)), Envoy(DestroyEvent), DestroyEnds(OtherPanic),
                          DestroyReplies, CodeEnds(OtherPanic, Reply)]
  {
    hide Moves, Dying;
    run := DyingRun();
    Dies();
    DyingRuns();
    var g := Dying();
    var p := Process(g, UNMARKED, 0, Free, Doubtful, false);
    CodeMoves(run.Last(), DestroyEnds(OtherPanic), p);
    run := ExtendMoves(Later, run, DestroyEnds(OtherPanic), p);
    var q := Process(g, Recovery(false, true, false), 0, Free, Rebuffed, false);
    CodeMoves(p, DestroyReplies, q);
    run := ExtendMoves(Later, run, DestroyReplies, q);
    CodeMoves(q, CodeEnds(OtherPanic, Reply), q.(r := Recovery(false, true, true)));
    run := ExtendMoves(Later, run, CodeEnds(OtherPanic, Reply), q.(r := Recovery(false, true, true)));
  }

  lemma DyingRuns()
    ensures Dying().destroyed && Dying().t.running
  {
  }

  /** The goroutine panics first, between has_destroyed_ and the panic of OnDestroy. */
  lemma CodeFirst() returns (run: ProcessRun)
    ensures ValidProcess(Later, run) && run.Last().r.crashed
    ensures run.moves == [Envoy(DecodeHeadersEvent(false)), Envoy(DestroyEvent), CodeEnds(OtherPanic, Reply),
                          CodeSets, CodeReplies, DestroyEnds(OtherPanic)]
  {
    hide Moves, Dying;
    run := DyingRun();
    Dies();
    DyingRuns();
    var g := Dying();
    var p := Process(g, UNMARKED, 0, Checked, Inside, false);
    CodeMoves(run.Last(), CodeEnds(OtherPanic, Reply), p);
    run := ExtendMoves(Later, run, CodeEnds(OtherPanic, Reply), p);
    var q := Process(g, Recovery(false, true, false), 0, Replying, Inside, false);
    CodeMoves(p, CodeSets, q);
    run := ExtendMoves(Later, run, CodeSets, q);
    var x := q.(f := g.(t := g.t.(running := false)), code := Refused);
    CodeMoves(q, CodeReplies, x);
    run := ExtendMoves(Later, run, CodeReplies, x);
    CodeMoves(x, DestroyEnds(OtherPanic), x.(r := Recovery(false, true, true)));
    run := ExtendMoves(Later, run, DestroyEnds(OtherPanic), x.(r := Recovery(false, true, true)));
  }

  /** Go has replied for the request, and Envoy answers with headers that a goroutine of the response holds. */
  function Answered(): FilterView {
    var f := Asked(Later);
    f.(dec := f.dec.(state := WaitingHeader, replied := true), t := f.t.(running := false))
  }

  lemma Answers()
    ensures var f := Asked(Later);
            Link(f.(t := f.t.(running := false, queue := [Reply])), PostedEvent, Answered())
  {
    assert [Reply][1..] == [];
  }

  lemma AnswerShown()
    ensures Link(Answered(), EncodeHeadersEvent(true), Step(Answered(), EncodeHeadersEvent(true)))
    ensures Step(Answered(), EncodeHeadersEvent(true)).t.running
    ensures Step(Answered(), EncodeHeadersEvent(true)).t.calls != []
    ensures !Step(Answered(), EncodeHeadersEvent(true)).destroyed
  {
    var f := Answered();
    CallsSnoc(f.t.calls, GoCall(EncodeHeader, true, [], Some(ResponseHeaders), Running));
    assert f.t.calls[0] == GoCall(DecodeHeader, false, [], Some(RequestHeaders), Running);
  }

  lemma Replies()
    ensures var f := Asked(Later);
            && GoCompletes(f, Reply) == (f.(t := f.t.(running := false, queue := [Reply])), CAPIOK)
            && f.t.running && LegalCompletion(f.t.calls, Reply) && LegalCalls(f.t.calls)
  {
    assert [] + [Reply] == [Reply];
  }

  /**
   On a live filter: a goroutine panics and its safe reply is accepted, but before it has cleared the flag
   the response to that reply enters Go, and that callback panics too.
   */
  lemma LivePanic() returns (run: ProcessRun)
    ensures ValidProcess(Later, run) && run.Last().r.crashed && !run.Last().f.destroyed
    ensures run.moves == [Envoy(DecodeHeadersEvent(false)), CodeEnds(OtherPanic, Reply), CodeSets, CodeReplies,
                          Envoy(PostedEvent), Envoy(EncodeHeadersEvent(true)), CodeEnds(OtherPanic, Reply)]
  {
    hide Moves, Step, GoCompletes, Asked, Answered, LegalCalls, Link;
    run := HeldRun();
    Replies();
    var f := Asked(Later);
    var p := run.Last().(code := Checked);
    CodeMoves(run.Last(), CodeEnds(OtherPanic, Reply), p);
    run := ExtendMoves(Later, run, CodeEnds(OtherPanic, Reply), p);
    var q := p.(r := Recovery(false, true, false), code := Replying);
    CodeMoves(p, CodeSets, q);
    run := ExtendMoves(Later, run, CodeSets, q);
    var x := q.(f := f.(t := f.t.(running := false, queue := [Reply])), paid := 1, code := Free, leaving := true);
    CodeMoves(q, CodeReplies, x);
    run := ExtendMoves(Later, run, CodeReplies, x);
    Answers();
    EnvoyMoves(x, PostedEvent, Answered());
    var y := x.(f := Answered());
    run := ExtendMoves(Later, run, Envoy(PostedEvent), y);
    AnswerShown();
    var h := Step(Answered(), EncodeHeadersEvent(true));
    EnvoyMoves(y, EncodeHeadersEvent(true), h);
    var z := y.(f := h);
    run := ExtendMoves(Later, run, Envoy(EncodeHeadersEvent(true)), z);
    LegalLink(Answered(), EncodeHeadersEvent(true), h);
    CodeMoves(z, CodeEnds(OtherPanic, Reply), z.(r := Recovery(false, true, true)));
    run := ExtendMoves(Later, run, CodeEnds(OtherPanic, Reply), z.(r := Recovery(false, true, true)));
  }

  lemma LegalLink(f: FilterView, e: Event, g: FilterView)
    requires Link(f, e, g)
    ensures LegalCalls(g.t.calls)
  {
  }

  /**
   Go asks to buffer the body, and code of the same request that runs on calls the filter once more. It
   is refused and marks the request, and so the next callback completes twice.
   */
  lemma MarkedByStrayCode(data: Bytes, call: ApiCall) returns (run: Run)
    ensures Valid(StopsHeaders, run) && run.events == [DecodeHeadersEvent(false), DecodeDataEvent(data, true)]
    ensures var r := Recover(UNMARKED, PanicOf(ApiStatus(run.states[1], call)), CAPIOK);
            r.paniced && forall status, e :: Completions(r, status, e, GoCompletes(run.Last(), Reply).1) == 2
  {
    hide Link, Inv, Step;
    var f, e := Asked(StopsHeaders), DecodeDataEvent(data, true);
    run := Start(StopsHeaders);
    HeadersShown(StopsHeaders);
    run := Extend(StopsHeaders, run, DecodeHeadersEvent(false), f);
    HeaderReads.BodyHeld(data);
    run := Extend(StopsHeaders, run, e, HeaderReads.HoldsBody(data));
    RunSafe(StopsHeaders, run);
    HeldApi(run.Last(), Reply);
  }
}
