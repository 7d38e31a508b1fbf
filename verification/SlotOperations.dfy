/** Operations waiting for slots, under every interleaving of their starts, stops, slots given back, and shutdown. */
module SlotOperations {
  import opened Wrappers
  import opened QueueLines

  type OpId = int

  /** Where an operation has got to; `given` says whether it is completing with a slot, or stopped. */
  datatype Phase =
    | Made                     // not started
    | Registered               // its stop can reach it, but it has not looked for a slot
    | Completing(given: bool)  // about to complete within its start, or within the handoff shutting down
    | InLine
    | Resuming(given: bool)    // off the line; to be resumed on the handoff
    | Completed(given: bool)

  /** `stopped` is whether its one stop has come; `stoppedEarly`, whether that found nothing to take out of line. */
  datatype Op = Op(phase: Phase, reacquire: bool, promoted: bool, stopped: bool, stoppedEarly: bool)

  /** `holders` are the operations that completed with a slot not given back yet. */
  datatype Queue = Queue(
    lines: Lines<OpId>,
    ops: map<OpId, Op>,
    holders: set<OpId>,
    completions: multiset<OpId>,
    shutDown: bool)

  datatype Step =
    | Make(op: OpId, reacquire: bool, promoted: bool)
    | Register(op: OpId)
    | Enter(op: OpId)        // start() takes the lock
    | Complete(op: OpId)     // completes outside the lock, where it is
    | OnStop(op: OpId)
    | Release(op: OpId)      // a slot is given back
    | Resume(op: OpId)       // the handoff resumes it
    | Shut(op: OpId)         // or stops instead, shutting down
    | Promote(op: OpId)

  function Init(n: nat): Queue {
    Queue(Lines(n, [], [], []), map[], {}, multiset{}, false)
  }

  function At(q: Queue, op: OpId, phase: Phase): Queue
    requires op in q.ops
  {
    q.(ops := q.ops[op := q.ops[op].(phase := phase)])
  }

  /** A slot given back goes to whoever is first in line, to be resumed, or is free. */
  function PassOn(q: Queue): Queue
  {
    var passed := q.(lines := q.lines.Release());
    var heir := q.lines.Heir();
    if heir.Some? && heir.value in q.ops then At(passed, heir.value, Resuming(true)) else passed
  }

  function Done(q: Queue, op: OpId, given: bool): Queue
    requires op in q.ops
  {
    At(q, op, Completed(given)).(completions := q.completions + multiset{op}, holders := if given then q.holders + {op} else q.holders)
  }

  /** Its stop can run from when it is registered until it completes, and only once. */
  predicate Stoppable(x: Op) { !x.phase.Made? && !x.phase.Completed? && !x.stopped }

  ghost predicate Enabled(q: Queue, step: Step) {
    match step
    case Make(op, _, _) => op !in q.ops
    case Register(op) => op in q.ops && q.ops[op].phase == Made
    case Enter(op) => op in q.ops && q.ops[op].phase == Registered
    case Complete(op) => op in q.ops && q.ops[op].phase.Completing?
    case OnStop(op) => op in q.ops && Stoppable(q.ops[op])
    case Release(op) => op in q.ops && op in q.holders
    case Resume(op) => op in q.ops && q.ops[op].phase.Resuming?
    case Shut(op) => op in q.ops && q.ops[op].phase.Resuming?
    case Promote(op) => op in q.ops && !q.ops[op].reacquire
  }

  ghost predicate LineKnown(q: Queue) {
    forall op :: op in q.lines.All() ==> op in q.ops
  }

  function AfterEnter(q: Queue, op: OpId): Queue
    requires op in q.ops
  {
    if q.ops[op].stoppedEarly then At(q, op, Completing(false))
    else if q.lines.free > 0 then At(q.(lines := q.lines.TakeFree()), op, Completing(true))
    else At(q.(lines := q.lines.Enqueue(op, q.ops[op].reacquire, q.ops[op].promoted)), op, InLine)
  }

  function AfterStop(q: Queue, op: OpId): Queue
    requires op in q.ops
  {
    var marked := q.(ops := q.ops[op := q.ops[op].(stopped := true)]);
    if q.ops[op].phase == InLine then
      At(marked.(lines := q.lines.Dequeue(op, q.ops[op].reacquire)), op, Resuming(false))
    else marked.(ops := marked.ops[op := marked.ops[op].(stoppedEarly := true)])
  }

  function AfterPromote(q: Queue, op: OpId): Queue
    requires op in q.ops
  {
    if q.ops[op].promoted then q
    else q.(lines := q.lines.Promote(op), ops := q.ops[op := q.ops[op].(promoted := true)])
  }

  ghost function Next(q: Queue, step: Step): Queue
    requires Enabled(q, step)
  {
    match step
    case Make(op, reacquire, promoted) => q.(ops := q.ops[op := Op(Made, reacquire, promoted, false, false)])
    case Register(op) => At(q, op, Registered)
    case Enter(op) => AfterEnter(q, op)
    case Complete(op) => Done(q, op, q.ops[op].phase.given)
    case OnStop(op) => AfterStop(q, op)
    case Release(op) => PassOn(q.(holders := q.holders - {op}))
    case Resume(op) => Done(q, op, q.ops[op].phase.given)
    case Shut(op) =>
      var stopping := At(q, op, Completing(false)).(shutDown := true);
      if q.ops[op].phase.given then PassOn(stopping) else stopping
    case Promote(op) => AfterPromote(q, op)
  }

  // ---- What every run keeps --------------------------------------------------------------------

  /** Slots on their way to operations that are to complete with them. */
  ghost function InTransit(q: Queue): set<OpId> {
    set op | op in q.ops && q.ops[op].phase in {Completing(true), Resuming(true)}
  }

  predicate OpOk(q: Queue, op: OpId)
    requires op in q.ops
  {
    var x := q.ops[op];
    && (x.phase == InLine <==> op in q.lines.All())
    && (op in q.lines.reacquiring ==> x.reacquire)
    && (op in q.lines.promoted ==> !x.reacquire && x.promoted)
    && (op in q.lines.waiting ==> !x.reacquire && !x.promoted)
    && (x.phase == Made ==> !x.stopped)
    && (x.phase == InLine ==> !x.stopped)
    && (x.stoppedEarly ==> x.stopped)
    && (x.phase == Registered && x.stopped ==> x.stoppedEarly)
    && (op in q.holders ==> x.phase == Completed(true))
    && q.completions[op] == (if x.phase.Completed? then 1 else 0)
    && (x.phase in {Completing(false), Resuming(false), Completed(false)} ==> x.stopped || q.shutDown)
  }

  /** All that is kept but the count of slots. */
  ghost predicate Shape(q: Queue) {
    && q.lines.Orderly()
    && LineKnown(q)
    && (forall op :: op in q.holders ==> op in q.ops)
    && (forall op :: op in q.ops ==> OpOk(q, op))
    && (forall op :: op !in q.ops ==> q.completions[op] == 0)
  }

  /** Slots free, held, and on their way to an operation. */
  ghost function Slots(q: Queue): nat {
    q.lines.free + |q.holders| + |InTransit(q)|
  }

  ghost predicate Inv(q: Queue, n: nat) {
    Shape(q) && Slots(q) == n
  }

  predicate Carries(x: Op) { x.phase in {Completing(true), Resuming(true)} }

  /** The operations but `op` that carry a slot. */
  ghost function OthersInTransit(q: Queue, op: OpId): set<OpId> {
    set p | p in q.ops && p != op && Carries(q.ops[p])
  }

  lemma TransitOf(q: Queue, op: OpId)
    ensures |InTransit(q)| == |OthersInTransit(q, op)| + if op in q.ops && Carries(q.ops[op]) then 1 else 0
  {
    var rest := OthersInTransit(q, op);
    forall p ensures p in InTransit(q) <==> p in rest || (p == op && op in q.ops && Carries(q.ops[op])) {
    }
    assert InTransit(q) == if op in q.ops && Carries(q.ops[op]) then rest + {op} else rest;
  }

  /** Only `op` may have changed between carrying a slot and not. */
  lemma TransitChange(q: Queue, r: Queue, op: OpId)
    requires op in r.ops && r.ops.Keys == q.ops.Keys + {op}
    requires forall p :: p in q.ops && p != op ==> r.ops[p].phase == q.ops[p].phase
    ensures |InTransit(r)| + (if op in q.ops && Carries(q.ops[op]) then 1 else 0)
      == |InTransit(q)| + if Carries(r.ops[op]) then 1 else 0
  {
    TransitOf(q, op);
    TransitOf(r, op);
    forall p ensures p in OthersInTransit(q, op) <==> p in OthersInTransit(r, op) {
    }
    assert OthersInTransit(q, op) == OthersInTransit(r, op);
  }

  lemma PassOnKeeps(q: Queue, n: nat)
    requires Shape(q) && Slots(q) + 1 == n
    ensures Inv(PassOn(q), n)
  {
    ReleaseOrderly(q.lines);
    var r := PassOn(q);
    hide Distinct, OpOk;
    if q.lines.Heir().Some? {
      var heir := q.lines.Heir().value;
      assert heir in q.lines.All() && OpOk(q, heir);
      forall op | op in r.ops ensures OpOk(r, op) {
        PassOnKeepsOp(q, heir, op);
      }
      HeirInLine(q, heir);
      TransitChange(q, r, heir);
    } else {
      forall op | op in r.ops ensures OpOk(r, op) {
        FreedKeepsOp(q, op);
      }
      assert InTransit(r) == InTransit(q);
    }
  }

  lemma HeirInLine(q: Queue, heir: OpId)
    requires Shape(q) && q.lines.Heir() == Some(heir)
    ensures heir in q.ops && q.ops[heir].phase == InLine
  {
    assert heir in q.lines.All();
    assert OpOk(q, heir);
  }

  lemma FreedKeepsOp(q: Queue, op: OpId)
    requires q.lines.Heir().None? && op in q.ops && OpOk(q, op)
    ensures OpOk(PassOn(q), op)
  {
  }

  lemma PassOnKeepsOp(q: Queue, heir: OpId, op: OpId)
    requires q.lines.Orderly() && q.lines.Heir() == Some(heir) && heir in q.ops && op in q.ops && OpOk(q, op) && OpOk(q, heir)
    ensures OpOk(PassOn(q), op)
  {
    ReleaseOrderly(q.lines);
    hide Distinct;
  }

  lemma InitInv(n: nat)
    ensures Inv(Init(n), n)
  {
    assert InTransit(Init(n)) == {};
  }

  // ---- Each step -------------------------------------------------------------------------------

  lemma MakeKeeps(q: Queue, n: nat, op: OpId, reacquire: bool, promoted: bool)
    requires Inv(q, n) && op !in q.ops
    ensures Inv(Next(q, Make(op, reacquire, promoted)), n)
  {
    hide Distinct;
    var r := Next(q, Make(op, reacquire, promoted));
    forall p | p in r.ops ensures OpOk(r, p) {
      assert p != op ==> OpOk(q, p);
    }
    hide OpOk;
    TransitChange(q, r, op);
  }

  /** A change of the phase of `op` alone, neither into the line nor out of it, nor of who carries a slot. */
  lemma PhaseKeeps(q: Queue, n: nat, op: OpId, phase: Phase)
    requires Inv(q, n) && op in q.ops && !phase.Completed? && !phase.InLine? && !q.ops[op].phase.InLine?
    requires !q.ops[op].phase.Completed? && !phase.Made?
    requires phase == Completing(false) ==> q.ops[op].stopped || q.shutDown
    requires phase != Resuming(false) && (phase == Registered ==> q.ops[op].phase == Made)
    ensures Shape(At(q, op, phase))
    ensures Slots(At(q, op, phase)) + (if Carries(q.ops[op]) then 1 else 0) == n + if Carries(q.ops[op].(phase := phase)) then 1 else 0
  {
    hide Distinct;
    var r := At(q, op, phase);
    assert OpOk(q, op);
    forall p | p in r.ops ensures OpOk(r, p) {
      assert OpOk(q, p);
    }
    hide OpOk;
    TransitChange(q, r, op);
  }

  lemma EnterKeeps(q: Queue, n: nat, op: OpId)
    requires Inv(q, n) && op in q.ops && q.ops[op].phase == Registered
    ensures Inv(AfterEnter(q, op), n)
  {
    var r := AfterEnter(q, op);
    assert OpOk(q, op);
    if q.ops[op].stoppedEarly {
      PhaseKeeps(q, n, op, Completing(false));
    } else if q.lines.free > 0 {
      PhaseKeeps(q, n, op, Completing(true));
      TakenKeeps(At(q, op, Completing(true)));
      assert r == At(q, op, Completing(true)).(lines := q.lines.TakeFree());
    } else {
      LineUpKeeps(q, n, op);
    }
  }

  lemma LineUpKeeps(q: Queue, n: nat, op: OpId)
    requires Inv(q, n) && op in q.ops && q.ops[op].phase == Registered && !q.ops[op].stoppedEarly && q.lines.free == 0
    ensures Inv(AfterEnter(q, op), n)
  {
    var r := AfterEnter(q, op);
    assert OpOk(q, op);
    EnqueueOrderly(q.lines, op, q.ops[op].reacquire, q.ops[op].promoted);
    hide Distinct;
    forall p | p in r.ops ensures OpOk(r, p) {
      assert OpOk(q, p);
    }
    hide OpOk;
    TransitChange(q, r, op);
  }

  lemma TakenKeeps(q: Queue)
    requires Shape(q) && q.lines.free > 0
    ensures var r := q.(lines := q.lines.TakeFree()); Shape(r) && Slots(r) == Slots(q) - 1
  {
    var r := q.(lines := q.lines.TakeFree());
    assert r.lines.All() == q.lines.All();
    assert InTransit(r) == InTransit(q);
    hide Distinct;
    forall p | p in r.ops ensures OpOk(r, p) {
      assert OpOk(q, p);
    }
  }

  lemma DoneKeeps(q: Queue, n: nat, op: OpId)
    requires Inv(q, n) && op in q.ops && (q.ops[op].phase.Completing? || q.ops[op].phase.Resuming?)
    ensures Inv(Done(q, op, q.ops[op].phase.given), n)
  {
    hide Distinct;
    var r := Done(q, op, q.ops[op].phase.given);
    assert OpOk(q, op);
    forall p | p in r.ops ensures OpOk(r, p) {
      assert OpOk(q, p);
    }
    assert op !in q.holders;
    hide OpOk;
    TransitChange(q, r, op);
  }

  lemma OnStopKeeps(q: Queue, n: nat, op: OpId)
    requires Inv(q, n) && op in q.ops && Stoppable(q.ops[op])
    ensures Inv(AfterStop(q, op), n)
  {
    var r := AfterStop(q, op);
    if q.ops[op].phase == InLine {
      assert OpOk(q, op);
      DequeueOrderly(q.lines, op, q.ops[op].reacquire);
      DequeueKeepsPlaces(q.lines, op, q.ops[op].reacquire);
    }
    hide Distinct, OpOk;
    forall p | p in r.ops ensures OpOk(r, p) {
      OnStopKeepsOp(q, op, p);
    }
    OnStopKeepsRest(q, op);
    TransitChange(q, r, op);
  }

  lemma OnStopKeepsOp(q: Queue, op: OpId, p: OpId)
    requires Shape(q) && op in q.ops && Stoppable(q.ops[op]) && p in q.ops
    ensures OpOk(AfterStop(q, op), p)
  {
    assert OpOk(q, op) && OpOk(q, p);
    if q.ops[op].phase == InLine {
      DequeueOrderly(q.lines, op, q.ops[op].reacquire);
      DequeueKeepsPlaces(q.lines, op, q.ops[op].reacquire);
    }
    hide Distinct;
  }

  lemma OnStopKeepsRest(q: Queue, op: OpId)
    requires op in q.ops
    ensures var r := AfterStop(q, op);
      && r.ops.Keys == q.ops.Keys && r.holders == q.holders && r.completions == q.completions
      && Carries(r.ops[op]) == Carries(q.ops[op])
  {
  }

  lemma DequeueKeepsPlaces(l: Lines<OpId>, op: OpId, reacquire: bool)
    ensures var m := l.Dequeue(op, reacquire);
      && m.free == l.free
      && (forall p :: p in m.reacquiring ==> p in l.reacquiring)
      && (forall p :: p in m.promoted ==> p in l.promoted)
      && (forall p :: p in m.waiting ==> p in l.waiting)
  {
  }

  lemma ReleaseKeeps(q: Queue, n: nat, op: OpId)
    requires Inv(q, n) && op in q.ops && op in q.holders
    ensures Inv(PassOn(q.(holders := q.holders - {op})), n)
  {
    var r := q.(holders := q.holders - {op});
    hide Distinct;
    forall p | p in r.ops ensures OpOk(r, p) {
      assert OpOk(q, p);
    }
    assert InTransit(r) == InTransit(q);
    assert q.holders == r.holders + {op};
    hide OpOk;
    PassOnKeeps(r, n);
  }

  lemma ShutKeeps(q: Queue, n: nat, op: OpId)
    requires Inv(q, n) && op in q.ops && q.ops[op].phase.Resuming?
    ensures Inv(Next(q, Shut(op)), n)
  {
    var shut := q.(shutDown := true);
    hide Distinct;
    forall p | p in shut.ops ensures OpOk(shut, p) {
      assert OpOk(q, p);
    }
    assert InTransit(shut) == InTransit(q);
    hide OpOk;
    PhaseKeeps(shut, n, op, Completing(false));
    assert At(q, op, Completing(false)).(shutDown := true) == At(shut, op, Completing(false));
    if q.ops[op].phase.given {
      PassOnKeeps(At(shut, op, Completing(false)), n);
    }
  }

  lemma PromoteKeeps(q: Queue, n: nat, op: OpId)
    requires Inv(q, n) && op in q.ops && !q.ops[op].reacquire
    ensures Inv(AfterPromote(q, op), n)
  {
    var r := AfterPromote(q, op);
    PromoteOrderly(q.lines, op);
    hide Distinct;
    forall p | p in r.ops ensures OpOk(r, p) {
      assert OpOk(q, p) && OpOk(q, op);
    }
    hide OpOk;
    TransitChange(q, r, op);
  }

  /** However starts, stops, releases and a shutdown interleave, no slot is made or lost, and none completes twice. */
  lemma StepKeeps(q: Queue, n: nat, step: Step)
    requires Inv(q, n) && Enabled(q, step)
    ensures Inv(Next(q, step), n)
  {
    hide Inv;
    match step
    case Make(op, reacquire, promoted) => MakeKeeps(q, n, op, reacquire, promoted);
    case Register(op) => RegisterKeeps(q, n, op);
    case Enter(op) => EnterKeeps(q, n, op);
    case Complete(op) => DoneKeeps(q, n, op);
    case OnStop(op) => OnStopKeeps(q, n, op);
    case Release(op) => ReleaseKeeps(q, n, op);
    case Resume(op) => DoneKeeps(q, n, op);
    case Shut(op) => ShutKeeps(q, n, op);
    case Promote(op) => PromoteKeeps(q, n, op);
  }

  lemma RegisterKeeps(q: Queue, n: nat, op: OpId)
    requires Inv(q, n) && op in q.ops && q.ops[op].phase == Made
    ensures Inv(At(q, op, Registered), n)
  {
    PhaseKeeps(q, n, op, Registered);
  }

  // ---- Runs ------------------------------------------------------------------------------------

  ghost predicate IsRun(states: seq<Queue>, steps: seq<Step>, n: nat) {
    && |states| == |steps| + 1 && states[0] == Init(n)
    && forall i :: 0 <= i < |steps| ==> Enabled(states[i], steps[i]) && states[i + 1] == Next(states[i], steps[i])
  }

  lemma {:induction false} RunKeeps(states: seq<Queue>, steps: seq<Step>, n: nat, i: nat)
    requires IsRun(states, steps, n) && i < |states|
    ensures Inv(states[i], n)
  {
    hide Inv, Next, Enabled;
    if i == 0 {
      InitInv(n);
    } else {
      RunKeeps(states, steps, n, i - 1);
      StepKeeps(states[i - 1], n, steps[i - 1]);
      assert states[i - 1 + 1] == Next(states[i - 1], steps[i - 1]);
    }
  }

  lemma EveryRunConserves(states: seq<Queue>, steps: seq<Step>, n: nat, i: nat)
    requires IsRun(states, steps, n) && i < |states|
    ensures var q := states[i];
      && q.lines.free + |q.holders| + |InTransit(q)| == n
      && (q.lines.free > 0 ==> q.lines.All() == [])
      && (forall op :: q.completions[op] <= 1)
      && (forall op :: op in q.ops ==> (q.completions[op] == 1 <==> q.ops[op].phase.Completed?))
      && (forall op :: op in q.ops && q.ops[op].phase == Completed(false) ==> q.ops[op].stopped || q.shutDown)
  {
    RunKeeps(states, steps, n, i);
    var q := states[i];
    hide IsRun;
    forall op | op in q.ops ensures OpOk(q, op) {
    }
  }

  /** How far an operation is from having completed. */
  function Left(phase: Phase): nat {
    match phase
    case Made => 5
    case Registered => 4
    case InLine => 3
    case Resuming(_) => 2
    case Completing(_) => 1
    case Completed(_) => 0
  }

  ghost predicate NotBack(x: Op, y: Op) {
    Left(y.phase) <= Left(x.phase) && (x.phase.Completed? ==> y.phase == x.phase)
  }

  /** No step sets an operation back, or changes how it completed. */
  lemma NoneGoesBack(q: Queue, n: nat, step: Step, op: OpId)
    requires Inv(q, n) && Enabled(q, step) && op in q.ops
    ensures op in Next(q, step).ops && NotBack(q.ops[op], Next(q, step).ops[op])
  {
    hide Inv, Next, Enabled, NotBack;
    match step
    case Release(released) => ReleaseNotBack(q, n, op, released);
    case Shut(shut) => ShutNotBack(q, n, op, shut);
    case _ => OthersNotBack(q, step, op);
  }

  lemma OthersNotBack(q: Queue, step: Step, op: OpId)
    requires Enabled(q, step) && op in q.ops && !step.Release? && !step.Shut?
    ensures op in Next(q, step).ops && NotBack(q.ops[op], Next(q, step).ops[op])
  {
    match step
    case Enter(other) => EnterNotBack(q, other, op);
    case OnStop(other) => StopNotBack(q, other, op);
    case _ => hide AfterEnter, AfterStop;
  }

  lemma EnterNotBack(q: Queue, other: OpId, op: OpId)
    requires other in q.ops && q.ops[other].phase == Registered && op in q.ops
    ensures op in AfterEnter(q, other).ops && NotBack(q.ops[op], AfterEnter(q, other).ops[op])
  {
  }

  lemma StopNotBack(q: Queue, other: OpId, op: OpId)
    requires other in q.ops && op in q.ops
    ensures op in AfterStop(q, other).ops && NotBack(q.ops[op], AfterStop(q, other).ops[op])
  {
  }

  lemma PassOnNotBack(q: Queue, op: OpId)
    requires op in q.ops
    requires q.lines.Heir().Some? ==> q.lines.Heir().value in q.ops && q.ops[q.lines.Heir().value].phase == InLine
    ensures op in PassOn(q).ops && NotBack(q.ops[op], PassOn(q).ops[op])
  {
  }

  lemma ReleaseNotBack(q: Queue, n: nat, op: OpId, released: OpId)
    requires Inv(q, n) && op in q.ops && Enabled(q, Release(released))
    ensures op in Next(q, Release(released)).ops && NotBack(q.ops[op], Next(q, Release(released)).ops[op])
  {
    if q.lines.Heir().Some? {
      HeirInLine(q, q.lines.Heir().value);
    }
    hide Shape;
    PassOnNotBack(q.(holders := q.holders - {released}), op);
  }

  lemma ShutNotBack(q: Queue, n: nat, op: OpId, shut: OpId)
    requires Inv(q, n) && op in q.ops && Enabled(q, Shut(shut))
    ensures op in Next(q, Shut(shut)).ops && NotBack(q.ops[op], Next(q, Shut(shut)).ops[op])
  {
    if q.lines.Heir().Some? {
      HeirInLine(q, q.lines.Heir().value);
    }
    hide Shape, PassOn;
    var stopping := At(q, shut, Completing(false)).(shutDown := true);
    assert NotBack(q.ops[op], stopping.ops[op]);
    PassOnNotBack(stopping, op);
  }

  /** The step an operation can take by itself, if it is not in line. */
  function OwnStep(x: Op, op: OpId): Step {
    if x.phase == Registered then Enter(op) else if x.phase.Completing? then Complete(op) else Resume(op)
  }

  lemma OwnStepGoesOn(q: Queue, op: OpId)
    requires op in q.ops && (q.ops[op].phase == Registered || q.ops[op].phase.Completing? || q.ops[op].phase.Resuming?)
    ensures var step := OwnStep(q.ops[op], op);
      Enabled(q, step) && op in Next(q, step).ops && Left(Next(q, step).ops[op].phase) < Left(q.ops[op].phase)
  {
    hide Distinct;
  }

  lemma InLineWaits(q: Queue, n: nat, op: OpId)
    requires Inv(q, n) && op in q.ops && q.ops[op].phase == InLine
    ensures op in q.lines.All() && |q.holders| + |InTransit(q)| == n
  {
    assert OpOk(q, op);
    hide Distinct;
  }

  /** An operation started goes on by itself, or is in line while every slot is held or on its way. */
  lemma GoesOnOrWaits(q: Queue, n: nat, op: OpId)
    requires Inv(q, n) && op in q.ops && !q.ops[op].phase.Made? && !q.ops[op].phase.Completed?
    ensures (exists step :: step in [Enter(op), Complete(op), Resume(op)] && Enabled(q, step)
                && op in Next(q, step).ops && Left(Next(q, step).ops[op].phase) < Left(q.ops[op].phase))
      || (op in q.lines.All() && |q.holders| + |InTransit(q)| == n)
  {
    if q.ops[op].phase == InLine {
      InLineWaits(q, n, op);
    } else {
      OwnStepGoesOn(q, op);
      hide Inv, OpOk, Enabled, Next, Left;
      var step := OwnStep(q.ops[op], op);
      assert step in [Enter(op), Complete(op), Resume(op)];
    }
  }

  /** Its stop came before any slot did: it completes with none, or has. */
  predicate Quelled(x: Op) {
    x.phase in {Completing(false), Resuming(false), Completed(false)} || (x.phase == Registered && x.stoppedEarly)
  }

  lemma StopQuells(q: Queue, op: OpId)
    requires Enabled(q, OnStop(op)) && q.ops[op].phase in {Registered, InLine}
    ensures op in Next(q, OnStop(op)).ops && Quelled(Next(q, OnStop(op)).ops[op])
  {
  }

  lemma PassOnQuelled(q: Queue, op: OpId)
    requires op in q.ops && Quelled(q.ops[op]) && op !in q.lines.All()
    ensures op in PassOn(q).ops && PassOn(q).ops[op] == q.ops[op]
  {
    assert q.lines.Heir().Some? ==> q.lines.Heir().value in q.lines.All();
  }

  lemma StaysQuelled(q: Queue, n: nat, step: Step, op: OpId)
    requires Inv(q, n) && Enabled(q, step) && op in q.ops && Quelled(q.ops[op])
    ensures op in Next(q, step).ops && Quelled(Next(q, step).ops[op])
  {
    assert OpOk(q, op);
    hide Inv, PassOn, Lines.Release, Lines.Enqueue, Lines.Dequeue, Lines.Promote, Lines.TakeFree;
    match step
    case Release(other) => PassOnQuelled(q.(holders := q.holders - {other}), op);
    case Shut(other) => PassOnQuelled(At(q, other, Completing(false)).(shutDown := true), op);
    case _ =>
  }

  /** An operation stopped before a slot was given to it, however it got so far, completes without one. */
  lemma {:induction false} StopsTakeEffect(states: seq<Queue>, steps: seq<Step>, n: nat, j: nat, i: nat, op: OpId)
    requires IsRun(states, steps, n) && j < i < |states| && steps[j] == OnStop(op) && op in states[j].ops
    requires states[j].ops[op].phase in {Registered, InLine}
    ensures op in states[i].ops && Quelled(states[i].ops[op])
    ensures states[i].ops[op].phase.Completed? ==> states[i].ops[op].phase == Completed(false)
  {
    hide Inv, Next, Enabled;
    assert Enabled(states[i - 1], steps[i - 1]) && states[i - 1 + 1] == Next(states[i - 1], steps[i - 1]);
    RunKeeps(states, steps, n, i - 1);
    if i == j + 1 {
      StopQuells(states[j], op);
    } else {
      StopsTakeEffect(states, steps, n, j, i - 1, op);
      StaysQuelled(states[i - 1], n, steps[i - 1], op);
    }
  }
}
