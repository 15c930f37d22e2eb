/**
 The life of a C request on the Go side: the entry of the shared request map, the Go object with its
 finalizer, and the one finalization that deletes the C request, by hand or by the garbage collector.
 Composed with runs in which any Go code may panic, OnDestroy too, which decides whether it happens at all.
 */
module RequestLife {
  import opened StreamTypes
  import opened StreamSpec
  import opened StreamRuns
  import opened StreamSafety
  import opened StreamDestroy
  import opened StreamProtocol
  import opened StreamWitnesses
  import opened GoRequest
  import opened GoDiscipline

  /** One key of the request map: whether it is stored, Go objects made for it, finalizers still set. */
  datatype Life = Life(stored: bool, created: nat, finalizers: nat, finalized: nat, byHand: bool)

  const UNBORN := Life(false, 0, 0, 0, false)

  /** createRequest, when a callback finds no request, or is the first of all. */
  function Enter(life: Life, phase: Phase): Life {
    if phase.DecodeHeader? || !life.stored then
      life.(stored := true, created := life.created + 1, finalizers := life.finalizers + 1)
    else life
  }

  function EnterAll(life: Life, calls: seq<GoCall>): Life {
    if calls == [] then life else Enter(EnterAll(life, calls[..|calls| - 1]), calls[|calls| - 1].phase)
  }

  /**
   moeOnHttpDestroy once OnDestroy has returned: the entry goes; after a normal end nobody uses the object,
   and it is finalized by hand.
   */
  function Destroyed(life: Life, reason: DestroyReason): Life {
    if reason.Normal? && life.finalizers > 0 then
      life.(stored := false, finalizers := life.finalizers - 1, finalized := life.finalized + 1, byHand := true)
    else life.(stored := false)
  }

  /** The garbage collector runs requestFinalize. */
  function Collected(life: Life): Life {
    if life.finalizers > 0 then life.(finalizers := life.finalizers - 1, finalized := life.finalized + 1) else life
  }

  /** The request map and the finalizers, as one key sees them. */
  class RequestEntry {
    var stored: bool
    var created: nat
    var finalizers: nat
    var finalized: nat
    ghost var byHand: bool

    ghost function View(): Life
      reads this
    {
      Life(stored, created, finalizers, finalized, byHand)
    }

    constructor ()
      ensures View() == UNBORN
    {
      stored, created, finalizers, finalized, byHand := false, 0, 0, 0, false;
    }

    method CreateRequest()
      modifies this
      ensures View() == old(View()).(stored := true, created := old(created) + 1, finalizers := old(finalizers) + 1)
    {
      created := created + 1;
      finalizers := finalizers + 1;
      stored := true;
    }

    /** The start of moeOnHttpHeader and moeOnHttpData. */
    method OnHttpCall(phase: Phase)
      modifies this
      ensures View() == Enter(old(View()), phase)
    {
      if phase.DecodeHeader? {
        CreateRequest();
      } else if !stored {
        CreateRequest();
      }
    }

    /** OnDestroy ends with e; a panic skips the rest, and recovery swallows or answers it. */
    method OnHttpDestroy(reason: DestroyReason, e: Panic)
      requires finalizers > 0
      modifies this
      ensures View() == if e.NoPanic? then Destroyed(old(View()), reason) else old(View())
    {
      if !e.NoPanic? {
        return;
      }
      stored := false;
      if reason.Normal? {
        finalizers := finalizers - 1;
        finalized := finalized + 1;
        byHand := true;
      }
    }

    method Collect()
      requires finalizers > 0
      modifies this
      ensures View() == Collected(old(View()))
    {
      finalizers := finalizers - 1;
      finalized := finalized + 1;
    }
  }

  // ---------- together with the filter ----------

  datatype System = System(p: Process, life: Life)

  datatype SystemEvent = Go(m: Move) | Collect

  function SystemStep(s: System, x: SystemEvent): System {
    match x
    case Go(m) =>
      var q := Next(s.p, m);
      var life :=
        if m.DestroyEnds? then
          if m.e.NoPanic? && q.f.destroyReason.Some? then Destroyed(s.life, q.f.destroyReason.value) else s.life
        else if |s.p.f.t.calls| <= |q.f.t.calls| then EnterAll(s.life, q.f.t.calls[|s.p.f.t.calls|..])
        else s.life;
      System(q, life)
    case Collect => s.(life := Collected(s.life))
  }

  /** An object is collected when the map has let it go and no code of the Go filter is under way. */
  ghost predicate SystemEnabled(s: System, x: SystemEvent) {
    match x
    case Go(m) => Possible(s.p, m)
    case Collect => !s.p.r.crashed && !s.life.stored && s.life.finalizers > 0 && !s.p.f.t.running && !s.p.leaving
  }

  /** The events of a run of both, and the states before, between and after them. */
  datatype History = History(events: seq<SystemEvent>, states: seq<System>) {
    predicate Shaped() { |states| == |events| + 1 }

    function Last(): System
      requires Shaped()
    {
      states[|events|]
    }

    function Before(): History
      requires Shaped() && events != []
    {
      History(events[..|events| - 1], states[..|events|])
    }

    function LastEvent(): SystemEvent
      requires events != []
    {
      events[|events| - 1]
    }
  }

  ghost predicate SystemLink(s: System, x: SystemEvent, t: System) {
    SystemEnabled(s, x) && t == SystemStep(s, x) && (x.Go? ==> Moves(s.p, x.m, t.p))
  }

  function InitSystem(go: Oracle): System {
    System(InitProcess(go), UNBORN)
  }

  ghost predicate Played(go: Oracle, h: History) {
    && h.Shaped() && h.states[0] == InitSystem(go)
    && forall i {:trigger h.events[i], h.states[i]} :: 0 <= i < |h.events| ==>
         SystemLink(h.states[i], h.events[i], h.states[i + 1])
  }

  lemma DropLastPlayed(go: Oracle, h: History)
    requires Played(go, h) && h.events != []
    ensures Played(go, h.Before()) && SystemLink(h.Before().Last(), h.LastEvent(), h.Last())
  {
    hide SystemLink;
    var n := |h.events| - 1;
    assert h.events[n] == h.LastEvent();
    forall i | 0 <= i < n
      ensures SystemLink(h.Before().states[i], h.Before().events[i], h.Before().states[i + 1])
    {
      assert h.events[i] == h.Before().events[i];
    }
  }

  /** The life of the request after its callbacks, from its birth. */
  lemma {:induction false} CallsMakeOne(calls: seq<GoCall>)
    requires Grammar(calls)
    ensures EnterAll(UNBORN, calls) == if calls == [] then UNBORN else Life(true, 1, 1, 0, false)
  {
    if calls != [] {
      var n := |calls| - 1;
      var init := calls[..n];
      assert Grammar(init);
      CallsMakeOne(init);
      if n > 0 {
        assert Follows(calls[n - 1], calls[n]);
      }
    }
  }

  /** The places where an object is made: at the first of all callbacks, and at every DecodeHeaders. */
  function Creations(calls: seq<GoCall>): nat {
    if calls == [] then 0
    else
      var n := |calls| - 1;
      Creations(calls[..n]) + if n == 0 || calls[n].phase.DecodeHeader? then 1 else 0
  }

  /** And in any other order, one for each of those, every one with a finalizer. */
  lemma {:induction false} CallsMake(calls: seq<GoCall>)
    ensures EnterAll(UNBORN, calls) == Life(calls != [], Creations(calls), Creations(calls), 0, false)
  {
    if calls != [] {
      CallsMake(calls[..|calls| - 1]);
    }
  }

  lemma {:induction false} EnterAllConcat(life: Life, a: seq<GoCall>, b: seq<GoCall>)
    ensures EnterAll(life, a + b) == EnterAll(EnterAll(life, a), b)
  {
    if b == [] {
      assert a + b == a;
    } else {
      EnterAllConcat(life, a, b[..|b| - 1]);
      assert (a + b)[..|a + b| - 1] == a + b[..|b| - 1];
    }
  }

  // ---------- every step ----------

  /** As the callbacks left it until OnDestroy returns; afterwards it is finalized once, and otherwise never. */
  ghost predicate LifeInv(s: System) {
    && Inv(s.p.f) && Fit(s.p) && LegalCalls(s.p.f.t.calls)
    && (s.p.f.destroyed ==> s.p.f.destroyReason.Some? && s.p.f.t.calls != [])
    && (s.p.f.destroyed && s.p.f.destroyReason == Some(Normal) ==> !s.p.f.t.running)
    && (if !s.p.ending.Returned? then s.life == EnterAll(UNBORN, s.p.f.t.calls)
        else
          && !s.life.stored && s.life.created == 1 && s.life.finalizers + s.life.finalized == 1
          && (s.p.f.destroyReason == Some(Normal) <==> s.life.byHand)
          && (s.life.byHand ==> s.life.finalized == 1)
          && (s.life.finalized == 1 ==> !s.p.f.t.running))
  }

  /** A filter that has a C request has called Go. */
  lemma Begun(f: FilterView)
    requires Inv(f) && !f.destroyed && f.t.hasReq
    ensures f.t.calls != []
  {
    if f != InitFilter(f.t.go) {
      var u := Unpost(f);
      assert u.t.calls == f.t.calls;
    }
  }

  lemma DyingFilter(f: FilterView)
    requires Inv(f) && Enabled(f, DestroyEvent) && !GoesWrong(f, DestroyEvent)
    ensures var g := Step(f, DestroyEvent);
            && g.destroyReason.Some? && g.t.calls == f.t.calls && g.t.calls != []
            && (g.destroyReason == Some(Normal) ==> !g.t.running)
  {
    hide Inv;
    Begun(f);
    DestroyReasonExact(f);
  }

  lemma EnvoyLife(s: System, e: Event)
    requires LifeInv(s) && SystemLink(s, Go(Envoy(e)), SystemStep(s, Go(Envoy(e))))
    requires Inv(Next(s.p, Envoy(e)).f) && Fit(Next(s.p, Envoy(e)))
    ensures LifeInv(SystemStep(s, Go(Envoy(e))))
  {
    hide Inv, Step, EnterAll, GoesWrong, LegalCalls, Busy;
    EnteredBegan(s.p.f);
    StepEntersGo(s.p.f, e);
    KeepsRunning(s.p.f, e);
    if e.DestroyEvent? {
      DyingFilter(s.p.f);
    } else if s.p.f.destroyed {
      DestroyedKeeps(s.p.f, e);
      SameReason(s.p.f, e);
    } else {
      StaysLive(s.p.f, e);
    }
    LifeGrows(s, Envoy(e));
  }

  lemma SameReason(f: FilterView, e: Event)
    requires f.destroyed && Enabled(f, e)
    ensures Step(f, e).destroyReason == f.destroyReason
  {
  }

  /** Every move but the end of OnDestroy leaves the life as the calls have made it. */
  lemma LifeGrows(s: System, m: Move)
    requires !m.DestroyEnds? && s.p.f.t.calls <= Next(s.p, m).f.t.calls
    ensures var t := SystemStep(s, Go(m));
            && (s.life == EnterAll(UNBORN, s.p.f.t.calls) ==> t.life == EnterAll(UNBORN, t.p.f.t.calls))
            && (s.p.f.t.calls == t.p.f.t.calls ==> t.life == s.life)
  {
    hide Next;
    var calls, longer := s.p.f.t.calls, Next(s.p, m).f.t.calls;
    EnterAllConcat(UNBORN, calls, longer[|calls|..]);
    assert calls + longer[|calls|..] == longer;
  }

  /** What Go code leaves alone: everything of the filter but what is running and queued. */
  ghost predicate Untouched(f: FilterView, g: FilterView) {
    && g.t.calls == f.t.calls && g.destroyed == f.destroyed && g.destroyReason == f.destroyReason
    && (g.t.running ==> f.t.running)
  }

  lemma CompletionTouches(p: Process, c: Completion)
    ensures Untouched(p.f, Completed(p, c).0.f) && Completed(p, c).0.ending == p.ending
  {
  }

  lemma CodeKeeps(p: Process, m: Move)
    requires Possible(p, m) && !m.Envoy? && !m.DestroyEnds?
    ensures Untouched(p.f, Next(p, m).f) && (Next(p, m).ending.Returned? <==> p.ending.Returned?)
  {
    hide Step, Completed, Raised, LegalCompletion;
    match m
    case CodeEnds(e, c) => CompletionTouches(p, c);
    case CodeReplies => CompletionTouches(p, Reply);
    case _ =>
  }

  lemma CodeLife(s: System, m: Move)
    requires LifeInv(s) && SystemLink(s, Go(m), SystemStep(s, Go(m))) && !m.Envoy? && !m.DestroyEnds?
    requires Inv(Next(s.p, m).f) && Fit(Next(s.p, m))
    ensures LifeInv(SystemStep(s, Go(m)))
  {
    hide Inv, EnterAll, LegalCalls, Fit, Next, Possible;
    CodeKeeps(s.p, m);
    LifeGrows(s, m);
  }

  lemma EndLife(s: System, e: Panic)
    requires LifeInv(s) && SystemLink(s, Go(DestroyEnds(e)), SystemStep(s, Go(DestroyEnds(e))))
    requires Inv(Next(s.p, DestroyEnds(e)).f) && Fit(Next(s.p, DestroyEnds(e)))
    ensures LifeInv(SystemStep(s, Go(DestroyEnds(e))))
  {
    hide Sound, EnterAll, Grammar;
    InvGrammar(s.p.f);
    CallsMakeOne(s.p.f.t.calls);
  }

  lemma CollectedLife(s: System)
    requires LifeInv(s) && SystemEnabled(s, Collect)
    ensures LifeInv(SystemStep(s, Collect))
  {
    hide Inv, Grammar, EnterAll, Fit;
    InvGrammar(s.p.f);
    CallsMakeOne(s.p.f.t.calls);
  }

  lemma StepLife(s: System, x: SystemEvent)
    requires LifeInv(s) && SystemLink(s, x, SystemStep(s, x))
    ensures LifeInv(SystemStep(s, x))
  {
    hide Inv, Fit, Moves, Next, Possible, LegalCalls;
    match x
    case Collect => CollectedLife(s);
    case Go(m) =>
      MoveKeeps(s.p, m, Next(s.p, m));
      match m
      case Envoy(e) => EnvoyLife(s, e);
      case DestroyEnds(e) => EndLife(s, e);
      case _ => CodeLife(s, m);
  }

  lemma InvGrammar(f: FilterView)
    requires Inv(f)
    ensures Grammar(f.t.calls)
  {
  }

  lemma FirstLife(go: Oracle)
    ensures LifeInv(InitSystem(go))
  {
  }

  // ---------- whole runs ----------

  lemma {:induction false} PlayKeeps(go: Oracle, h: History)
    requires Played(go, h)
    ensures LifeInv(h.Last())
    decreases |h.events|
  {
    hide SystemStep, SystemEnabled, LifeInv, Moves, InitSystem;
    if h.events == [] {
      FirstLife(go);
    } else {
      DropLastPlayed(go, h);
      PlayKeeps(go, h.Before());
      StepLife(h.Before().Last(), h.LastEvent());
    }
  }

  /**
   On every run, with any Go code free to panic and the garbage collector free to act whenever it may: one Go
   object is made for the C request, no matter with which phase Go is first called; the request is
   finalized at most once, only after OnDestroy has returned, and while no Go code is running; by hand,
   and then at once, exactly when the reason is Normal; and after a finalization no finalizer is left. After
   a normal end Go owes nothing because of the reason; after any other, because the collector leaves an
   object alone that running Go code can reach, which is what Collect requires.
   */
  lemma RunFinalizesOnce(go: Oracle, h: History)
    requires Played(go, h)
    ensures var s := h.Last();
            && s.life.created == (if s.p.f.t.calls == [] then 0 else 1)
            && s.life.finalized <= 1
            && (s.life.finalized == 1 ==> s.p.ending.Returned? && !s.p.f.t.running && s.life.finalizers == 0)
            && (s.p.ending.Returned? ==>
                  && (s.p.f.destroyReason == Some(Normal) <==> s.life.byHand)
                  && (s.life.byHand ==> s.life.finalized == 1)
                  && (s.life.finalized == 0 ==> s.life.finalizers == 1 && !s.life.stored))
            && (s.p.f.destroyed && !s.p.ending.Returned? ==> s.life.stored && s.life.finalized == 0)
  {
    hide Inv, SystemLink, EnterAll, Grammar;
    PlayKeeps(go, h);
    var s := h.Last();
    InvGrammar(s.p.f);
    CallsMakeOne(s.p.f.t.calls);
  }

  // ---------- whether it is ever finalized ----------

  ghost predicate Continues(h: History, g: History)
    requires h.Shaped() && g.Shaped()
  {
    && |h.events| <= |g.events|
    && g.events[..|h.events|] == h.events && g.states[..|h.states|] == h.states
  }

  /** onDestroy is over, in one way or another. */
  predicate Over(p: Process) {
    p.ending.Returned? || p.ending.Swallowed? || p.ending.Rebuffed?
  }

  lemma MoveStaysOver(p: Process, m: Move)
    requires Fit(p) && Over(p) && Possible(p, m)
    ensures Next(p, m).ending == p.ending
  {
    hide Step;
  }

  lemma {:induction false} StaysOver(go: Oracle, h: History, g: History)
    requires Played(go, h) && Played(go, g) && Continues(h, g) && Over(h.Last().p)
    ensures g.Last().p.ending == h.Last().p.ending
    decreases |g.events|
  {
    hide SystemEnabled, LifeInv, Moves, InitSystem, Fit, Possible, Next;
    if |g.events| == |h.events| {
      assert g.states[..|h.states|] == g.states;
    } else {
      DropLastPlayed(go, g);
      var before := g.Before();
      assert before.events[..|h.events|] == g.events[..|h.events|];
      assert before.states[..|h.states|] == g.states[..|h.states|];
      StaysOver(go, h, before);
      LinkStaysOver(go, before, g.LastEvent(), g.Last());
    }
  }

  lemma LinkStaysOver(go: Oracle, h: History, x: SystemEvent, t: System)
    requires Played(go, h) && SystemLink(h.Last(), x, t) && Over(h.Last().p)
    ensures t.p.ending == h.Last().p.ending
  {
    hide Inv, InitSystem, Fit, Next, Possible, LegalCalls, EnterAll;
    PlayKeeps(go, h);
    if x.Go? { MoveStaysOver(h.Last().p, x.m); }
  }

  lemma Continue(go: Oracle, h0: History, h: History, x: SystemEvent) returns (g: History)
    requires Played(go, h0) && Played(go, h) && Continues(h0, h)
    requires SystemLink(h.Last(), x, SystemStep(h.Last(), x))
    ensures Played(go, g) && Continues(h0, g) && g.Last() == SystemStep(h.Last(), x)
    ensures g.events == h.events + [x]
  {
    hide SystemLink, InitSystem, SystemStep;
    var t := SystemStep(h.Last(), x);
    g := History(h.events + [x], h.states + [t]);
    forall i | 0 <= i < |g.events|
      ensures SystemLink(g.states[i], g.events[i], g.states[i + 1])
    {
      if i < |h.events| {
        assert g.events[i] == h.events[i] && g.states[i] == h.states[i] && g.states[i + 1] == h.states[i + 1];
      } else {
        assert g.states[i] == h.Last();
      }
    }
    assert g.events[..|h0.events|] == h.events[..|h0.events|] && g.states[..|h0.states|] == h.states[..|h0.states|];
  }

  /** The next thing that Go code of a destroyed request does on its way out. */
  function WayOut(p: Process): Move {
    if p.leaving then CodeLeaves
    else match p.code
         case Checked => CodeSets
         case Replying => CodeReplies
         case _ => CodeEnds(NoPanic, Reply)
  }

  function Left(p: Process): nat {
    (if p.leaving then 1 else 0) + (if p.f.t.running then 1 else 0) +
    (match p.code case Checked => 2 case Replying => 1 case _ => 0)
  }

  lemma WayOutLeads(s: System)
    requires LifeInv(s) && s.p.ending.Returned? && !s.p.r.crashed && (s.p.f.t.running || s.p.leaving)
    ensures var m := WayOut(s.p);
            && SystemLink(s, Go(m), SystemStep(s, Go(m))) && Left(Next(s.p, m)) < Left(s.p)
            && Next(s.p, m).ending.Returned? && !Next(s.p, m).r.crashed
  {
    hide Inv, EnterAll;
  }

  /** Code that is still under way can always end, and then the collector can take the object. */
  lemma Finish(go: Oracle, h0: History, h: History) returns (g: History)
    requires Played(go, h0) && Played(go, h) && Continues(h0, h)
    requires h.Last().p.ending.Returned? && !h.Last().p.r.crashed
    ensures Played(go, g) && Continues(h0, g) && g.Last().life.finalized == 1
    decreases Left(h.Last().p)
  {
    hide SystemLink, InitSystem, Next, WayOut, Left, Inv, Fit, EnterAll, LegalCalls;
    PlayKeeps(go, h);
    var s := h.Last();
    if s.life.finalized == 1 {
      g := h;
    } else if s.p.f.t.running || s.p.leaving {
      WayOutLeads(s);
      var next := Continue(go, h0, h, Go(WayOut(s.p)));
      g := Finish(go, h0, next);
    } else {
      assert SystemLink(s, Collect, SystemStep(s, Collect)) by { CollectLinks(s); }
      g := Continue(go, h0, h, Collect);
    }
  }

  lemma CollectLinks(s: System)
    requires SystemEnabled(s, Collect)
    ensures SystemLink(s, Collect, SystemStep(s, Collect))
  {
  }

  /**
   Once onDestroy is over and the process lives, the C request can still be finalized, or has been, if and
   only if OnDestroy returned: if it panicked, the rest of moeOnHttpDestroy was skipped, and the request map
   keeps the object for ever.
   */
  lemma FinalizableExactly(go: Oracle, h: History)
    requires Played(go, h) && Over(h.Last().p) && !h.Last().p.r.crashed
    ensures (exists g :: Played(go, g) && Continues(h, g) && g.Last().life.finalized == 1) <==>
            h.Last().p.ending.Returned?
  {
    hide InitSystem, SystemLink;
    if h.Last().p.ending.Returned? {
      assert h.events[..|h.events|] == h.events && h.states[..|h.states|] == h.states;
      var g := Finish(go, h, h);
    } else {
      forall g | Played(go, g) && Continues(h, g)
        ensures g.Last().life.finalized == 0
      {
        StaysOver(go, h, g);
        NotReturned(go, g);
      }
    }
  }

  lemma NotReturned(go: Oracle, g: History)
    requires Played(go, g) && Over(g.Last().p) && !g.Last().p.ending.Returned?
    ensures g.Last().life.finalized == 0
  {
    hide InitSystem, SystemLink, Inv, EnterAll;
    RunFinalizesOnce(go, g);
    PlayKeeps(go, g);
  }

  /** Go has asked for the whole body; the filter is destroyed; and its OnDestroy calls the filter. */
  function Waiting(ending: Ending): System {
    var f := Asked(StopsHeaders);
    var g := if ending.NotBegun? then f else f.(destroyed := true, destroyReason := Some(Normal));
    System(Process(g, UNMARKED, 0, Free, ending, false), Life(true, 1, 1, 0, false))
  }

  lemma WaitingBegins()
    ensures SystemLink(InitSystem(StopsHeaders), Go(Envoy(DecodeHeadersEvent(false))), Waiting(NotBegun))
  {
    hide Step, Link, Asked;
    HeadersShown(StopsHeaders);
    EnvoyMoves(InitProcess(StopsHeaders), DecodeHeadersEvent(false), Asked(StopsHeaders));
    FirstCall();
    var calls := Asked(StopsHeaders).t.calls;
    assert calls[0..] == calls && calls[..0] == [];
    assert EnterAll(UNBORN, calls) == Life(true, 1, 1, 0, false);
    var p, m := InitProcess(StopsHeaders), Envoy(DecodeHeadersEvent(false));
    assert Next(p, m) == p.(f := Asked(StopsHeaders));
  }

  lemma FirstCall()
    ensures Asked(StopsHeaders).t.calls == [GoCall(DecodeHeader, false, [], Some(RequestHeaders), StopAndBuffer)]
  {
  }

  lemma WaitingDies()
    ensures SystemLink(Waiting(NotBegun), Go(Envoy(DestroyEvent)), Waiting(Inside))
  {
    var calls := Asked(StopsHeaders).t.calls;
    assert calls[|calls|..] == [];
  }

  lemma WaitingEnds(call: ApiCall)
    ensures var e := PanicOf(ApiStatus(Waiting(Inside).p.f, call));
            && SystemLink(Waiting(Inside), Go(DestroyEnds(e)), Waiting(Swallowed))
            && e == PanicOf(ApiStatus(Waiting(Swallowed).p.f, call))
  {
    WaitingLegal();
  }

  lemma WaitingLegal()
    ensures LegalCalls(Asked(StopsHeaders).t.calls)
  {
  }

  /**
   A run on which that happens, at a normal end: Go asked for the whole body, Envoy gives up, and OnDestroy
   calls the filter, which refuses it. Nothing is finalized, now or later.
   */
  lemma NeverFinalized(call: ApiCall) returns (h: History)
    ensures Played(StopsHeaders, h) && h.Last().p.f.destroyReason == Some(Normal)
    ensures h.events == [Go(Envoy(DecodeHeadersEvent(false))), Go(Envoy(DestroyEvent)),
                         Go(DestroyEnds(PanicOf(ApiStatus(h.Last().p.f, call))))]
    ensures h.Last().life == Life(true, 1, 1, 0, false)
    ensures forall g :: Played(StopsHeaders, g) && Continues(h, g) ==> g.Last().life.finalized == 0
  {
    hide SystemStep, InitSystem, Moves, Next, Possible, ApiStatus;
    var h0 := History([], [InitSystem(StopsHeaders)]);
    var e := PanicOf(ApiStatus(Waiting(Inside).p.f, call));
    WaitingBegins();
    WaitingDies();
    WaitingEnds(call);
    h := Continue(StopsHeaders, h0, h0, Go(Envoy(DecodeHeadersEvent(false))));
    h := Continue(StopsHeaders, h0, h, Go(Envoy(DestroyEvent)));
    h := Continue(StopsHeaders, h0, h, Go(DestroyEnds(e)));
    FinalizableExactly(StopsHeaders, h);
    forall g | Played(StopsHeaders, g) && Continues(h, g)
      ensures g.Last().life.finalized == 0
    {
      RunFinalizesOnce(StopsHeaders, g);
    }
  }
}
