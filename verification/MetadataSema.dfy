/**
 Reading dynamic metadata from a goroutine: the goroutine adds one to a WaitGroup, enters the C side
 under a mutex, and waits for a callback that the C side posted to the worker thread; destruction
 wakes it too. The steps below are the atomic steps of the goroutines and of the worker thread; any
 number of goroutines may call at once. Wait of a WaitGroup returns at once if the counter is 0, and
 registers the goroutine otherwise; a registered goroutine is released at the moment the counter becomes
 0, and panics as it returns if somebody has added to the counter in between.
 */
module MetadataSema {
  /** Goroutines are numbered. Blocked ones have added to the WaitGroup and want the mutex. */
  datatype View = View(
    counter: int,
    blocked: set<nat>,
    holder: Holder,
    waitSema: bool,
    destroyed: bool,
    posted: nat,
    adds: nat,
    dones: nat)

  /**
   Who holds the mutex of the request: on its way into C; back from C with CAPIYield, not yet in Wait;
   registered in Wait; or released from it.
   */
  datatype Holder = Nobody | Calling(who: nat) | Yielded(who: nat) | Registered(who: nat) | Released(who: nat)

  const INIT := View(0, {}, Nobody, false, false, 0, 0, 0)

  datatype Event =
    | Begin(who: nat)      // sema.Add(1)
    | Lock(who: nat)       // mutex.Lock()
    | CallYields           // the C side posted a callback: CAPIYield
    | CallReturns          // any other answer: sema.Done(), mutex.Unlock()
    | WaitPasses           // sema.Wait() finds 0 and returns, mutex.Unlock()
    | WaitRegisters        // sema.Wait() finds more than 0
    | WaitReturns          // a released goroutine returns, mutex.Unlock()
    | WaitPanics           // it finds the WaitGroup in use again; the deferred mutex.Unlock() runs
    | RunCallback          // the worker thread runs the posted callback
    | Destroy              // onDestroy

  predicate Enabled(v: View, e: Event) {
    match e
    case Begin(who) => who !in v.blocked && (v.holder.Nobody? || v.holder.who != who)
    case Lock(who) => who in v.blocked && v.holder.Nobody?
    case CallYields => v.holder.Calling? && !v.destroyed
    case CallReturns => v.holder.Calling?
    case WaitPasses => v.holder.Yielded? && v.counter == 0
    case WaitRegisters => v.holder.Yielded? && v.counter != 0
    case WaitReturns => v.holder.Released? && v.counter == 0
    case WaitPanics => v.holder.Released? && v.counter != 0
    case RunCallback => v.posted > 0
    case Destroy => !v.destroyed
  }

  /** sema.Done(): reaching 0 releases whoever is registered. */
  function Done(v: View): View {
    v.(counter := v.counter - 1, dones := v.dones + 1,
       holder := if v.counter == 1 && v.holder.Registered? then Released(v.holder.who) else v.holder)
  }

  function Step(v: View, e: Event): View {
    match e
    case Begin(who) => v.(counter := v.counter + 1, adds := v.adds + 1, blocked := v.blocked + {who})
    case Lock(who) => v.(blocked := v.blocked - {who}, holder := Calling(who))
    case CallYields =>
      if v.holder.Calling? then v.(waitSema := true, posted := v.posted + 1, holder := Yielded(v.holder.who)) else v
    case CallReturns => Done(v).(holder := Nobody)
    case WaitPasses | WaitReturns | WaitPanics => v.(holder := Nobody)
    case WaitRegisters => if v.holder.Yielded? then v.(holder := Registered(v.holder.who)) else v
    case RunCallback =>
      if v.posted == 0 then v
      else
        var w := v.(posted := v.posted - 1);
        if v.destroyed then w else Done(w.(waitSema := false))
    case Destroy =>
      var w := v.(destroyed := true);
      if v.waitSema then Done(w) else w
  }

  /** httpRequest with the C request it stands for, field by field. */
  class Request {
    var counter: int
    var blocked: set<nat>
    var holder: Holder
    var waitSema: bool
    var hasDestroyed: bool
    var posted: nat
    ghost var adds: nat
    ghost var dones: nat

    ghost function Value(): View
      reads this
    {
      View(counter, blocked, holder, waitSema, hasDestroyed, posted, adds, dones)
    }

    constructor ()
      ensures Value() == INIT
    {
      counter, blocked, holder, waitSema, hasDestroyed, posted := 0, {}, Nobody, false, false, 0;
      adds, dones := 0, 0;
    }

    method SemaAdd(who: nat)
      modifies this
      ensures Value() == Step(old(Value()), Begin(who))
    {
      counter := counter + 1;
      blocked := blocked + {who};
      adds := adds + 1;
    }

    method MutexLock(who: nat)
      modifies this
      ensures Value() == Step(old(Value()), Lock(who))
    {
      blocked := blocked - {who};
      holder := Calling(who);
    }

    method SemaDone()
      modifies this
      ensures Value() == Done(old(Value()))
    {
      counter := counter - 1;
      dones := dones + 1;
      if counter == 0 && holder.Registered? {
        holder := Released(holder.who);
      }
    }

    /** getDynamicMetadata: threadSafe tells whether the caller is the worker thread, inGo the state. */
    method GetDynamicMetadata(threadSafe: bool, inGo: bool) returns (yielded: bool)
      requires holder.Calling?
      modifies this
      ensures yielded <==> !old(hasDestroyed) && inGo && !threadSafe
      ensures Value() == Step(old(Value()), if yielded then CallYields else CallReturns)
    {
      yielded := !hasDestroyed && inGo && !threadSafe;
      if yielded {
        waitSema := true;
        posted := posted + 1;
        holder := Yielded(holder.who);
      } else {
        SemaDone();
        holder := Nobody;
      }
    }

    /** The first half of sema.Wait(). */
    method SemaWait() returns (passed: bool)
      requires holder.Yielded?
      modifies this
      ensures passed <==> old(counter) == 0
      ensures Value() == Step(old(Value()), if passed then WaitPasses else WaitRegisters)
    {
      passed := counter == 0;
      holder := if passed then Nobody else Registered(holder.who);
    }

    /** The second half, once the goroutine has been released. */
    method SemaWoken() returns (panics: bool)
      requires holder.Released?
      modifies this
      ensures panics <==> old(counter) != 0
      ensures Value() == Step(old(Value()), if panics then WaitPanics else WaitReturns)
    {
      panics := counter != 0;
      holder := Nobody;
    }

    method PostedCallback()
      requires posted > 0
      modifies this
      ensures Value() == Step(old(Value()), RunCallback)
    {
      posted := posted - 1;
      if !hasDestroyed {
        waitSema := false;
        SemaDone();
      }
    }

    method OnDestroy()
      modifies this
      ensures Value() == Step(old(Value()), Destroy)
    {
      hasDestroyed := true;
      if waitSema {
        SemaDone();
      }
    }
  }

  // ---------- runs ----------

  function Exec(v: View, events: seq<Event>): View {
    if events == [] then v else Step(Exec(v, events[..|events| - 1]), events[|events| - 1])
  }

  ghost predicate Valid(v: View, events: seq<Event>) {
    events == [] ||
    (Valid(v, events[..|events| - 1]) && Enabled(Exec(v, events[..|events| - 1]), events[|events| - 1]))
  }

  /** The posted call has been neither answered by its callback nor woken by destruction. */
  predicate Unsignalled(v: View) {
    v.waitSema && !v.destroyed
  }

  /** The goroutine that holds the mutex is past its call into C and has not returned. */
  predicate Waits(v: View) {
    v.holder.Yielded? || v.holder.Registered? || v.holder.Released?
  }

  /** Every unit of the counter belongs to somebody who is going to take it back. */
  ghost predicate Inv(v: View) {
    && v.counter == |v.blocked| + (if v.holder.Calling? then 1 else 0) + (if Unsignalled(v) then 1 else 0)
    && v.counter == v.adds - v.dones
    && (v.holder.Nobody? || v.holder.who !in v.blocked)
    && (Unsignalled(v) ==> v.holder.Yielded? || v.holder.Registered?)
    && (v.holder.Registered? ==> v.counter > 0)
    && (!v.destroyed ==> v.posted == if v.waitSema then 1 else 0)
  }

  lemma StepKeeps(v: View, e: Event)
    requires Inv(v) && Enabled(v, e)
    ensures Inv(Step(v, e))
  {
    match e
    case Lock(who) => assert |v.blocked| == |v.blocked - {who}| + 1;
    case Begin(who) => assert |v.blocked + {who}| == |v.blocked| + 1;
    case _ =>
  }

  /**
   In every interleaving of any number of callers, the posted callbacks and destruction: the counter
   never goes negative, it counts exactly the Adds whose Done is still to come, and when no call is
   under way every Add has been matched by one Done.
   */
  lemma {:induction false} RunBalances(events: seq<Event>)
    requires Valid(INIT, events)
    ensures var v := Exec(INIT, events);
            && Inv(v) && v.counter >= 0
            && (v.blocked == {} && v.holder.Nobody? ==> v.counter == 0 && v.adds == v.dones)
  {
    hide Enabled, Step;
    if events != [] {
      var before := events[..|events| - 1];
      RunBalances(before);
      StepKeeps(Exec(INIT, before), events[|events| - 1]);
    }
  }

  /** The event signals a goroutine that yielded. */
  predicate Signals(v: View, e: Event) {
    (e.RunCallback? && v.posted > 0 && !v.destroyed) || (e.Destroy? && v.waitSema)
  }

  function SignalCount(v: View, events: seq<Event>): nat {
    if events == [] then 0
    else
      var before := events[..|events| - 1];
      SignalCount(v, before) + if Signals(Exec(v, before), events[|events| - 1]) then 1 else 0
  }

  /** The callback or destruction has come. */
  predicate Came(events: seq<Event>) {
    exists e :: e in events && (e.RunCallback? || e.Destroy?)
  }

  /** A goroutine that yielded and that nothing has signalled has its callback queued, so both can come. */
  lemma StillToCome(v: View)
    requires Inv(v) && Unsignalled(v)
    ensures (v.holder.Yielded? || v.holder.Registered?) && Enabled(v, RunCallback) && Enabled(v, Destroy)
    ensures Signals(v, RunCallback) && Signals(v, Destroy)
  {
  }

  /**
   A goroutine that yielded and that nothing has signalled: both its callback and destruction can come, and
   whatever goroutines do until somebody yields again, it is signalled once, when the first of the two
   comes, and never again.
   */
  lemma {:induction false} SignalledOnce(v: View, events: seq<Event>)
    requires Inv(v) && Unsignalled(v) && Valid(v, events) && CallYields !in events
    ensures (v.holder.Yielded? || v.holder.Registered?) && Enabled(v, RunCallback) && Enabled(v, Destroy)
    ensures SignalCount(v, events) == if Came(events) then 1 else 0
    ensures var w := Exec(v, events);
            && Inv(w) && (Unsignalled(w) <==> !Came(events))
            && (Came(events) ==> (w.waitSema || w.posted > 0 ==> w.destroyed))
  {
    StillToCome(v);
    if events != [] {
      var before, e := events[..|events| - 1], events[|events| - 1];
      assert events == before + [e];
      SignalledOnce(v, before);
      assert Came(events) <==> Came(before) || e.RunCallback? || e.Destroy?;
      StepKeeps(Exec(v, before), e);
      QuietStep(Exec(v, before), e);
    }
  }

  lemma QuietStep(v: View, e: Event)
    requires Inv(v) && Enabled(v, e) && !e.CallYields?
    ensures Unsignalled(v) ==> (Signals(v, e) <==> e.RunCallback? || e.Destroy?)
    ensures Unsignalled(v) ==> (Unsignalled(Step(v, e)) <==> !Signals(v, e))
    ensures !Unsignalled(v) && (v.waitSema || v.posted > 0 ==> v.destroyed) ==>
              !Signals(v, e) && !Unsignalled(Step(v, e))
    ensures Signals(v, e) || (!Unsignalled(v) && (v.waitSema || v.posted > 0 ==> v.destroyed)) ==>
              var w := Step(v, e);
              w.waitSema || w.posted > 0 ==> w.destroyed
  {
  }

  // ---------- when a waiting goroutine comes back ----------

  /** The mutex holder of v has left its call at the end of the run. */
  ghost predicate Leaves(v: View, events: seq<Event>) {
    Valid(v, events) && Exec(v, events).holder.Nobody?
  }

  lemma Blocked(v: View, who: nat)
    requires who in v.blocked
    ensures |v.blocked| >= 1
  {
    assert |v.blocked| == |v.blocked - {who}| + 1;
  }

  /**
   Two callers: if a second goroutine begins before the first one is released, both are blocked for ever,
   whatever happens afterwards, because its Add comes before its Lock.
   */
  lemma {:induction false} OverlapDeadlocks(v: View, events: seq<Event>, first: nat, second: nat)
    requires Inv(v) && (v.holder == Yielded(first) || v.holder == Registered(first)) && second in v.blocked
    requires Valid(v, events)
    ensures var w := Exec(v, events);
            Inv(w) && (w.holder == Yielded(first) || w.holder == Registered(first)) && second in w.blocked
  {
    if events != [] {
      hide Valid;
      var before, e := events[..|events| - 1], events[|events| - 1];
      assert Valid(v, before) && Enabled(Exec(v, before), e) by { ValidLast(v, events); }
      OverlapDeadlocks(v, before, first, second);
      StepKeeps(Exec(v, before), e);
      OverlapStays(Exec(v, before), e, first, second);
    }
  }

  lemma ValidLast(v: View, events: seq<Event>)
    requires Valid(v, events) && events != []
    ensures Valid(v, events[..|events| - 1]) && Enabled(Exec(v, events[..|events| - 1]), events[|events| - 1])
  {
  }

  lemma OverlapStays(v: View, e: Event, first: nat, second: nat)
    requires Inv(v) && (v.holder == Yielded(first) || v.holder == Registered(first)) && second in v.blocked
    requires Enabled(v, e)
    ensures var w := Step(v, e);
            (w.holder == Yielded(first) || w.holder == Registered(first)) && second in w.blocked
  {
    Blocked(v, second);
  }

  lemma TwoEvents(v: View, a: Event, b: Event)
    requires Enabled(v, a) && Enabled(Step(v, a), b)
    ensures Valid(v, [a, b]) && Exec(v, [a, b]) == Step(Step(v, a), b)
  {
    OneEvent(v, a);
    assert [a, b][..1] == [a];
  }

  lemma OneEvent(v: View, a: Event)
    requires Enabled(v, a)
    ensures Valid(v, [a]) && Exec(v, [a]) == Step(v, a)
  {
    assert [a][..0] == [];
    assert Valid(v, []) && Exec(v, []) == v;
  }

  /** A waiting goroutine that nobody else has joined is on its way back. */
  lemma WayBack(v: View) returns (events: seq<Event>)
    requires Inv(v) && Waits(v) && (v.blocked == {} || v.holder.Released?)
    ensures Leaves(v, events) && |events| <= 2
  {
    if v.holder.Released? {
      events := [if v.counter == 0 then WaitReturns else WaitPanics];
      OneEvent(v, events[0]);
    } else if Unsignalled(v) {
      var w := Step(v, RunCallback);
      events := [RunCallback, if v.holder.Registered? then WaitReturns else WaitPasses];
      TwoEvents(v, RunCallback, events[1]);
    } else {
      events := [WaitPasses];
      OneEvent(v, WaitPasses);
    }
  }

  /**
   A waiting goroutine can come back if and only if it has been released already, or no other goroutine
   has begun a call.
   */
  lemma WokenExactly(v: View)
    requires Inv(v) && Waits(v)
    ensures (exists events :: Leaves(v, events)) <==> v.holder.Released? || v.blocked == {}
  {
    if v.holder.Released? || v.blocked == {} {
      var events := WayBack(v);
    } else {
      var second :| second in v.blocked;
      forall events: seq<Event> | Valid(v, events)
        ensures !Exec(v, events).holder.Nobody?
      {
        OverlapDeadlocks(v, events, v.holder.who, second);
      }
    }
  }

  /** How many steps are left at most until all callers have come back, if no call begins any more. */
  function Ahead(v: View): nat {
    5 * |v.blocked| + v.posted + (if v.destroyed then 0 else 1) +
    match v.holder
    case Nobody => 0
    case Calling(_) => 4
    case Yielded(_) => 2
    case Registered(_) | Released(_) => 1
  }

  lemma StepAhead(v: View, e: Event)
    requires Enabled(v, e) && !e.Begin?
    ensures Ahead(Step(v, e)) < Ahead(v)
  {
    if e.Lock? {
      assert |v.blocked| == |v.blocked - {e.who}| + 1;
    }
  }

  lemma SomeStep(v: View) returns (e: Event)
    requires Inv(v) && v.blocked == {} && !v.holder.Nobody?
    ensures Enabled(v, e) && !e.Begin?
  {
    match v.holder
    case Calling(_) => e := CallReturns;
    case Yielded(_) => e := if v.counter == 0 then WaitPasses else WaitRegisters;
    case Registered(_) => e := RunCallback;
    case Released(_) => e := if v.counter == 0 then WaitReturns else WaitPanics;
  }

  /**
   With one caller at a time it does come back, whatever order things happen in: a run without a further
   Begin has a bounded length, and as long as the mutex is held it can go on.
   */
  lemma {:induction false} ComesBack(v: View, events: seq<Event>)
    requires Inv(v) && v.blocked == {} && Valid(v, events) && forall e :: e in events ==> !e.Begin?
    ensures |events| + Ahead(Exec(v, events)) <= Ahead(v)
    ensures Inv(Exec(v, events)) && Exec(v, events).blocked == {}
    ensures Exec(v, events).holder.Nobody? || exists e :: Enabled(Exec(v, events), e) && !e.Begin?
  {
    if events != [] {
      hide Valid;
      var before, e := events[..|events| - 1], events[|events| - 1];
      assert e in events && forall x :: x in before ==> x in events;
      assert Valid(v, before) && Enabled(Exec(v, before), e) by { ValidLast(v, events); }
      ComesBack(v, before);
      StepKeeps(Exec(v, before), e);
      StepAhead(Exec(v, before), e);
    }
    if !Exec(v, events).holder.Nobody? {
      var e := SomeStep(Exec(v, events));
    }
  }

  /** And it returns rather than panics if and only if no other goroutine has begun a call by then. */
  lemma ReturnsExactly(v: View)
    requires Inv(v) && v.holder.Released?
    ensures Enabled(v, WaitReturns) <==> v.blocked == {}
    ensures Enabled(v, WaitPanics) <==> v.blocked != {}
  {
    if v.blocked != {} {
      var who :| who in v.blocked;
      Blocked(v, who);
    }
  }

  /** Both ends of an overlap are reached: beginning before the signal, and between signal and return. */
  lemma OverlapRuns()
    ensures var v := Exec(INIT, [Begin(0), Lock(0), CallYields, WaitRegisters, Begin(1), RunCallback]);
            && Valid(INIT, [Begin(0), Lock(0), CallYields, WaitRegisters, Begin(1), RunCallback])
            && v.holder == Registered(0) && !Unsignalled(v) && v.blocked == {1}
    ensures var v := Exec(INIT, [Begin(0), Lock(0), CallYields, WaitRegisters, RunCallback, Begin(1)]);
            && Valid(INIT, [Begin(0), Lock(0), CallYields, WaitRegisters, RunCallback, Begin(1)])
            && v.holder == Released(0) && Enabled(v, WaitPanics)
  {
    hide Step, Enabled;
    var shared := [Begin(0), Lock(0), CallYields, WaitRegisters];
    FirstRegisters();
    SecondSteps();
    Longer(INIT, shared, Begin(1));
    Longer(INIT, shared + [Begin(1)], RunCallback);
    Longer(INIT, shared, RunCallback);
    Longer(INIT, shared + [RunCallback], Begin(1));
    assert shared + [Begin(1)] + [RunCallback] == [Begin(0), Lock(0), CallYields, WaitRegisters, Begin(1), RunCallback];
    assert shared + [RunCallback] + [Begin(1)] == [Begin(0), Lock(0), CallYields, WaitRegisters, RunCallback, Begin(1)];
  }

  const WAITING := View(1, {}, Registered(0), true, false, 1, 1, 0)

  lemma FirstRegisters()
    ensures Valid(INIT, [Begin(0), Lock(0), CallYields, WaitRegisters])
    ensures Exec(INIT, [Begin(0), Lock(0), CallYields, WaitRegisters]) == WAITING
  {
    OneEvent(INIT, Begin(0));
    assert [Begin(0)] + [Lock(0)] == [Begin(0), Lock(0)];
    Longer(INIT, [Begin(0)], Lock(0));
    assert [Begin(0), Lock(0)] + [CallYields] == [Begin(0), Lock(0), CallYields];
    Longer(INIT, [Begin(0), Lock(0)], CallYields);
    assert [Begin(0), Lock(0), CallYields] + [WaitRegisters] == [Begin(0), Lock(0), CallYields, WaitRegisters];
    Longer(INIT, [Begin(0), Lock(0), CallYields], WaitRegisters);
  }

  lemma SecondSteps()
    ensures Enabled(WAITING, Begin(1)) && Enabled(WAITING, RunCallback)
    ensures Step(WAITING, Begin(1)) == View(2, {1}, Registered(0), true, false, 1, 2, 0)
    ensures Enabled(Step(WAITING, Begin(1)), RunCallback)
    ensures Step(Step(WAITING, Begin(1)), RunCallback) == View(1, {1}, Registered(0), false, false, 0, 2, 1)
    ensures Step(WAITING, RunCallback) == View(0, {}, Released(0), false, false, 0, 1, 1)
    ensures Enabled(Step(WAITING, RunCallback), Begin(1))
    ensures Step(Step(WAITING, RunCallback), Begin(1)) == View(1, {1}, Released(0), false, false, 0, 2, 1)
    ensures Enabled(View(1, {1}, Released(0), false, false, 0, 2, 1), WaitPanics)
  {
  }

  lemma Longer(v: View, events: seq<Event>, e: Event)
    requires Valid(v, events) && Enabled(Exec(v, events), e)
    ensures Valid(v, events + [e]) && Exec(v, events + [e]) == Step(Exec(v, events), e)
  {
    assert (events + [e])[..|events|] == events;
  }
}
