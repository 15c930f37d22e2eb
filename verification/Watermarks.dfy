/**
 Backpressure: data_buffer_ is an Envoy watermark buffer whose callbacks ask Envoy to stop and to
 resume reading, or answer 413 when the buffer fills while Go wants the whole body.
 */
module Watermarks {
  import opened StreamTypes

  /** What the callbacks tell Envoy. */
  datatype Signal = ReadOff | ReadOn | TooLarge

  /**
   A watermark buffer with its callbacks as addBufferData installs them: its length, whether the high
   watermark was crossed since the low one, watermark_requested_, and the signals sent.
   */
  datatype View = View(created: bool, length: nat, above: bool, requested: bool, state: FilterState, log: seq<Signal>)

  const EMPTY := View(false, 0, false, false, WaitingHeader, [])

  /** The high callback. */
  function AboveHigh(v: View): View {
    if v.state.WaitingAllData? then v.(log := v.log + [TooLarge])
    else if !v.requested then v.(requested := true, log := v.log + [ReadOff])
    else v
  }

  /** The low callback. */
  function BelowLow(v: View): View {
    if v.requested then v.(requested := false, log := v.log + [ReadOn]) else v
  }

  /** Bytes were added: a limit of 0 means no watermarks. */
  function Grown(v: View, limit: nat, n: nat): View {
    var w := v.(created := true, length := v.length + n);
    if limit != 0 && w.length > limit && !w.above then AboveHigh(w.(above := true)) else w
  }

  /** The whole buffer was taken out: that is below any low watermark. */
  function Emptied(v: View): View {
    var w := v.(length := 0);
    if w.above then BelowLow(w.(above := false)) else w
  }

  datatype Op =
    | AddBufferData(n: nat)   // addBufferData
    | MoveOut                 // data.move or push takes the whole buffer
    | DrainBufferData         // drainBufferData
    | SetState(state: FilterState)

  function Apply(v: View, limit: nat, op: Op): View {
    match op
    case AddBufferData(n) => Grown(v, limit, n)
    case MoveOut => if v.created then Emptied(v) else v
    case DrainBufferData => if v.created && v.length > 0 then Emptied(v) else v
    case SetState(state) => v.(state := state)
  }

  /** The buffer and the callbacks as objects: the buffer calls back into the processor state. */
  class ProcessorState {
    const limit: nat
    var created: bool
    var length: nat
    var aboveHighCalled: bool
    var watermarkRequested: bool
    var state: FilterState
    var log: seq<Signal>

    ghost function Value(): View
      reads this
    {
      View(created, length, aboveHighCalled, watermarkRequested, state, log)
    }

    constructor (limit: nat)
      ensures Value() == EMPTY && this.limit == limit
    {
      this.limit := limit;
      created, length, aboveHighCalled, watermarkRequested, state, log := false, 0, false, false, WaitingHeader, [];
    }

    method OnAboveHighWatermark()
      modifies this
      ensures Value() == AboveHigh(old(Value()))
    {
      if state.WaitingAllData? {
        log := log + [TooLarge];
        return;
      }
      if !watermarkRequested {
        watermarkRequested := true;
        log := log + [ReadOff];
      }
    }

    method OnBelowLowWatermark()
      modifies this
      ensures Value() == BelowLow(old(Value()))
    {
      if watermarkRequested {
        watermarkRequested := false;
        log := log + [ReadOn];
      }
    }

    method AddBufferData(n: nat)
      modifies this
      ensures Value() == Apply(old(Value()), limit, Op.AddBufferData(n))
    {
      if !created {
        created := true;
      }
      length := length + n;
      if limit != 0 && length > limit && !aboveHighCalled {
        aboveHighCalled := true;
        OnAboveHighWatermark();
      }
    }

    method Take()
      modifies this
      ensures Value() == Emptied(old(Value()))
    {
      length := 0;
      if aboveHighCalled {
        aboveHighCalled := false;
        OnBelowLowWatermark();
      }
    }

    /** The whole buffer is moved into another one. */
    method MoveOut()
      modifies this
      ensures Value() == Apply(old(Value()), limit, Op.MoveOut)
    {
      if created {
        Take();
      }
    }

    method DrainBufferData()
      modifies this
      ensures Value() == Apply(old(Value()), limit, Op.DrainBufferData)
    {
      if created {
        var len := length;
        if len > 0 {
          Take();
        }
      }
    }
  }

  // ---------- the property ----------

  function Run(v: View, limit: nat, ops: seq<Op>): View {
    if ops == [] then v else Apply(Run(v, limit, ops[..|ops| - 1]), limit, ops[|ops| - 1])
  }

  /** The pauses and resumes among the signals. */
  function Flow(log: seq<Signal>): seq<Signal> {
    if log == [] then []
    else
      var init, last := log[..|log| - 1], log[|log| - 1];
      if last.TooLarge? then Flow(init) else Flow(init) + [last]
  }

  /** ReadOff, ReadOn, ReadOff, and so on. */
  ghost predicate Alternates(flow: seq<Signal>) {
    forall i :: 0 <= i < |flow| ==> flow[i] == if i % 2 == 0 then ReadOff else ReadOn
  }

  /** Envoy has been told to stop and not yet to go on. */
  predicate Paused(flow: seq<Signal>) {
    flow != [] && flow[|flow| - 1].ReadOff?
  }

  ghost predicate Inv(v: View) {
    && Alternates(Flow(v.log)) && (v.requested <==> Paused(Flow(v.log)))
    && (v.requested ==> v.above) && (v.above ==> v.length > 0) && (v.length > 0 ==> v.created)
  }

  lemma FlowSnoc(log: seq<Signal>, s: Signal)
    ensures Flow(log + [s]) == if s.TooLarge? then Flow(log) else Flow(log) + [s]
  {
    assert (log + [s])[..|log|] == log;
  }

  lemma ApplyKeeps(v: View, limit: nat, op: Op)
    requires Inv(v)
    ensures Inv(Apply(v, limit, op))
  {
    hide Flow;
    FlowSnoc(v.log, ReadOff);
    FlowSnoc(v.log, ReadOn);
    FlowSnoc(v.log, TooLarge);
  }

  /**
   Whatever is added, moved out and drained, in whatever states: pauses and resumes strictly alternate,
   watermark_requested_ says whether Envoy is paused, and an empty buffer never leaves it paused.
   */
  lemma {:induction false} RunBalances(limit: nat, ops: seq<Op>)
    ensures var v := Run(EMPTY, limit, ops);
            Inv(v) && (v.length == 0 ==> !Paused(Flow(v.log)))
  {
    hide Apply;
    if ops != [] {
      RunBalances(limit, ops[..|ops| - 1]);
      ApplyKeeps(Run(EMPTY, limit, ops[..|ops| - 1]), limit, ops[|ops| - 1]);
    }
  }

  /**
   413 exactly when data takes the buffer over its limit while Go wants the whole body, and the buffer
   was not over it already: a body that overflowed earlier, while Go held the direction, is not refused
   any more, and reading stays paused.
   */
  lemma TooLargeExactly(v: View, limit: nat, n: nat)
    requires v.state.WaitingAllData?
    ensures var w := Apply(v, limit, AddBufferData(n));
            && (w.log == v.log + [TooLarge] <==> limit != 0 && v.length + n > limit && !v.above)
            && (w.log == v.log || w.log == v.log + [TooLarge])
            && w.requested == v.requested
  {
    assert v.log != v.log + [TooLarge];
  }

  /** How many bytes were added since the buffer was last emptied. */
  function Added(ops: seq<Op>): nat {
    if ops == [] then 0
    else
      var init, op := ops[..|ops| - 1], ops[|ops| - 1];
      if Empties(op) then 0 else Added(init) + if op.AddBufferData? then op.n else 0
  }

  /** The buffer holds exactly those. */
  lemma {:induction false} RunCounts(limit: nat, ops: seq<Op>)
    ensures var v := Run(EMPTY, limit, ops);
            v.length == Added(ops) && (v.length > 0 ==> v.created)
  {
    if ops != [] {
      RunCounts(limit, ops[..|ops| - 1]);
    }
  }

  /**
   The counterpart of ResumesExactly: reading is paused exactly when data takes the buffer over its limit in
   any state but WaitingAllData, and the buffer was not over it already.
   */
  lemma PausesExactly(v: View, limit: nat, op: Op)
    requires Inv(v)
    ensures var w := Apply(v, limit, op);
            w.log == v.log + [ReadOff] <==>
            op.AddBufferData? && limit != 0 && v.length + op.n > limit && !v.above && !v.state.WaitingAllData?
  {
    assert v.log != v.log + [ReadOff];
    SnocDiffers(v.log, TooLarge, ReadOff);
    SnocDiffers(v.log, ReadOn, ReadOff);
  }

  /** Data takes the buffer over its limit. */
  predicate Crosses(v: View, limit: nat, op: Op) {
    op.AddBufferData? && limit != 0 && v.length + op.n > limit && !v.above
  }

  predicate Empties(op: Op) {
    op.MoveOut? || op.DrainBufferData?
  }

  /** The buffer went over its limit with the j-th operation, and was not emptied since. */
  ghost predicate OverSince(limit: nat, ops: seq<Op>, j: nat)
    requires j < |ops|
  {
    Crosses(Run(EMPTY, limit, ops[..j]), limit, ops[j]) && forall k :: j < k < |ops| ==> !Empties(ops[k])
  }

  lemma ApplyOver(v: View, limit: nat, op: Op)
    requires Inv(v)
    ensures var w := Apply(v, limit, op);
            && (w.above <==> Crosses(v, limit, op) || (v.above && !Empties(op)))
            && (Crosses(v, limit, op) ==> (w.requested <==> !v.state.WaitingAllData?))
            && (v.above && !Empties(op) ==> w.requested == v.requested)
  {
  }

  lemma OverSnoc(limit: nat, ops: seq<Op>, op: Op, j: nat)
    requires j <= |ops|
    ensures OverSince(limit, ops + [op], j) <==>
            if j == |ops| then Crosses(Run(EMPTY, limit, ops), limit, op)
            else OverSince(limit, ops, j) && !Empties(op)
  {
    hide Crosses, Run, Empties;
    var longer := ops + [op];
    assert longer[..j] == ops[..j] && longer[|ops|] == op;
    assert ops[..|ops|] == ops;
    assert forall k :: 0 <= k < |ops| ==> longer[k] == ops[k];
  }

  /**
   Over any operations: the buffer counts as over its limit exactly since data took it there and nothing
   emptied it; and all that time Envoy is paused, unless Go wanted the whole body when it happened.
   */
  lemma {:induction false} RunPauses(limit: nat, ops: seq<Op>)
    ensures var v := Run(EMPTY, limit, ops);
            && (v.above <==> exists j :: 0 <= j < |ops| && OverSince(limit, ops, j))
            && (forall j :: 0 <= j < |ops| && OverSince(limit, ops, j) ==>
                  (Paused(Flow(v.log)) <==> !Run(EMPTY, limit, ops[..j]).state.WaitingAllData?))
  {
    hide Apply, Crosses, OverSince;
    if ops != [] {
      var init, op := ops[..|ops| - 1], ops[|ops| - 1];
      assert ops == init + [op];
      RunPauses(limit, init);
      RunBalances(limit, init);
      RunSnoc(EMPTY, limit, init, op);
      ApplyOver(Run(EMPTY, limit, init), limit, op);
      forall j | 0 <= j < |ops|
        ensures OverSince(limit, ops, j) <==>
                if j == |init| then Crosses(Run(EMPTY, limit, init), limit, op)
                else OverSince(limit, init, j) && !Empties(op)
        ensures ops[..j] == if j == |init| then init else init[..j]
      {
        OverSnoc(limit, init, op, j);
      }
      CrossesOnce(Run(EMPTY, limit, init), limit, op);
      RunBalances(limit, ops);
    }
  }

  lemma CrossesOnce(v: View, limit: nat, op: Op)
    ensures Crosses(v, limit, op) ==> !v.above
  {
  }

  lemma RunSnoc(v: View, limit: nat, ops: seq<Op>, op: Op)
    ensures Run(v, limit, ops + [op]) == Apply(Run(v, limit, ops), limit, op)
  {
    assert (ops + [op])[..|ops|] == ops;
  }

  lemma TwoOps(v: View, limit: nat, a: Op, b: Op)
    ensures Run(v, limit, [a, b]) == Apply(Apply(v, limit, a), limit, b)
  {
    hide Apply;
    RunSnoc(v, limit, [], a);
    RunSnoc(v, limit, [a], b);
    assert [] + [a] == [a] && [a] + [b] == [a, b];
  }

  lemma FourOps(v: View, limit: nat, a: Op, b: Op, c: Op, d: Op)
    ensures Run(v, limit, [a, b, c, d]) ==
            Apply(Apply(Apply(Apply(v, limit, a), limit, b), limit, c), limit, d)
  {
    hide Apply;
    TwoOps(v, limit, a, b);
    RunSnoc(v, limit, [a, b], c);
    RunSnoc(v, limit, [a, b, c], d);
    assert [a, b] + [c] == [a, b, c] && [a, b, c] + [d] == [a, b, c, d];
  }

  lemma OverflowHeld(limit: nat, body: nat, more: nat)
    requires 0 < limit < body
    ensures Run(EMPTY, limit, [SetState(ProcessingHeader), AddBufferData(body), SetState(WaitingAllData),
                               AddBufferData(more)]) == View(true, body + more, true, true, WaitingAllData, [ReadOff])
  {
    var all, late := SetState(WaitingAllData), AddBufferData(more);
    FourOps(EMPTY, limit, SetState(ProcessingHeader), AddBufferData(body), all, late);
    hide Run;
    var held := Apply(Apply(EMPTY, limit, SetState(ProcessingHeader)), limit, AddBufferData(body));
    assert [] + [ReadOff] == [ReadOff];
    assert held == View(true, body, true, true, ProcessingHeader, [ReadOff]);
  }

  lemma OverflowWanted(limit: nat, body: nat)
    requires 0 < limit < body
    ensures Run(EMPTY, limit, [SetState(WaitingAllData), AddBufferData(body)]) ==
            View(true, body, true, false, WaitingAllData, [TooLarge])
  {
    TwoOps(EMPTY, limit, SetState(WaitingAllData), AddBufferData(body));
    hide Run;
    assert [] + [TooLarge] == [TooLarge];
  }

  /**
   Both sides of that condition happen: a body that overflows the buffer while Go holds the headers only
   pauses Envoy, and when Go then asks for all of it no later byte is refused; the same body is refused
   with 413 if Go asked before it came.
   */
  lemma OverflowFirst(limit: nat, body: nat, more: nat)
    requires 0 < limit < body
    ensures Run(EMPTY, limit, [SetState(ProcessingHeader), AddBufferData(body), SetState(WaitingAllData),
                               AddBufferData(more)]) == View(true, body + more, true, true, WaitingAllData, [ReadOff])
    ensures Run(EMPTY, limit, [SetState(WaitingAllData), AddBufferData(body)]) ==
            View(true, body, true, false, WaitingAllData, [TooLarge])
  {
    hide Run, Apply;
    OverflowHeld(limit, body, more);
    OverflowWanted(limit, body);
  }

  /**
   Reading resumes exactly when a paused buffer is emptied, for Go or for good: neither more data nor a
   change of state resumes it. So a body that paused Envoy while Go held the headers, and that Go then
   wants whole, is not resumed by anything before its end.
   */
  lemma ResumesExactly(v: View, limit: nat, op: Op)
    requires Inv(v)
    ensures var w := Apply(v, limit, op);
            && (v.requested && !w.requested <==> v.requested && (op.MoveOut? || op.DrainBufferData?))
            && (w.log == v.log + [ReadOn] <==> v.requested && !w.requested)
  {
    assert v.log != v.log + [ReadOn];
    SnocDiffers(v.log, TooLarge, ReadOn);
    SnocDiffers(v.log, ReadOff, ReadOn);
  }

  lemma SnocDiffers(log: seq<Signal>, a: Signal, b: Signal)
    requires a != b
    ensures log + [a] != log + [b]
  {
    assert (log + [a])[|log|] != (log + [b])[|log|];
  }
}
