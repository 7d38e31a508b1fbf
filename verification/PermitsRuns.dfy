/** Every run of the composed machine is safe, and never comes to rest with a wait unanswered. */
module PermitsRuns {
  import opened Wrappers
  import opened Graphs
  import opened CoordinatorModel
  import opened CoordinatorInvariants
  import opened Permits
  import opened PermitsInvariant
  import opened PermitsSteps
  import opened PermitsOpen

  // ---- Safety ----------------------------------------------------------------------------------

  lemma FinishedKeeps(s: System, n: nat, a: AttemptId, work: Code, result: Code)
    requires SystemInv(s, n) && Enabled(s, Finished(a, work))
    ensures SystemInv(Absorb(s, Complete(s.c, a, result)), n)
  {
    FinishedSetsOne(s, a, work, result);
    hide Complete, Calm, AnswersExactly, SetsResults, Local, Acyclic, HurryClosed, Accounts, Behind, Woken, Counted, Tracked;
    CompleteIsCalm(s.c, a, result);
    CompleteKeepsInv(s.c, a, result);
    CalmStep(s, n, Complete(s.c, a, result));
  }

  lemma FinishedSetsOne(s: System, a: AttemptId, work: Code, result: Code)
    requires Enabled(s, Finished(a, work))
    ensures SetsResults(s, Complete(s.c, a, result))
  {
  }

  lemma StoppedKeeps(s: System, n: nat, stopped: set<AttemptId>, doom: bool)
    requires SystemInv(s, n) && stopped <= s.c.attempts.Keys && forall a :: a in stopped ==> Stoppable(s.c.attempts[a])
    ensures SystemInv(Absorb(s, Stop(s.c, stopped, doom)), n)
  {
    hide Accounts, Behind, Woken, Counted, Local, Acyclic, HurryClosed, Stop, Calm, AnswersExactly, SetsResults;
    InvIsLocal(s.c);
    StopIsCalm(s.c, stopped, doom);
    StopKeepsInv(s.c, stopped, doom);
    StopSetsNone(s, n, stopped, doom);
    CalmStep(s, n, Stop(s.c, stopped, doom));
  }

  lemma InvIsLocal(c: State)
    requires Inv(c)
    ensures Local(c)
  {
  }

  lemma StopSetsNone(s: System, n: nat, stopped: set<AttemptId>, doom: bool)
    requires Accounts(s, n) && stopped <= s.c.attempts.Keys
    ensures Tracked(s) && Stop(s.c, stopped, doom).state.attempts.Keys == s.c.attempts.Keys
    ensures SetsResults(s, Stop(s.c, stopped, doom))
  {
  }

  lemma CancelKeeps(s: System, n: nat, w: WaitId)
    requires SystemInv(s, n) && Enabled(s, Cancel(w))
    ensures SystemInv(Absorb(s, CancelWait(s.c, w)), n)
  {
    CancelSetsNone(s, w);
    hide CancelWait, Calm, AnswersExactly, SetsResults, Local, Acyclic, HurryClosed, Accounts, Behind, Woken, Counted, Tracked;
    CancelIsCalm(s.c, w);
    CancelWaitKeepsInv(s.c, w);
    CalmStep(s, n, CancelWait(s.c, w));
  }

  lemma CancelSetsNone(s: System, w: WaitId)
    requires Enabled(s, Cancel(w))
    ensures SetsResults(s, CancelWait(s.c, w))
  {
  }

  lemma OuterStopKeeps(s: System, n: nat, a: AttemptId)
    requires SystemInv(s, n) && a in s.c.attempts
    ensures SystemInv(Absorb(s, CoordinatorModel.OnOuterStop(s.c, a)), n)
  {
    if Stoppable(s.c.attempts[a]) {
      StoppedKeeps(s, n, {a}, false);
    } else {
      var o := CoordinatorModel.OnOuterStop(s.c, a);
      assert Calm(s.c, o) && AnswersExactly(s.c, o) && SetsResults(s, o);
      hide SystemInv, CoordinatorModel.OnOuterStop, Calm, AnswersExactly, SetsResults;
      assert Inv(o.state) by { InvOf(s, n); }
      CalmStep(s, n, o);
    }
  }

  lemma InvOf(s: System, n: nat)
    requires SystemInv(s, n)
    ensures Inv(s.c)
  {
  }

  /** Whatever step is taken, by anyone, everything the two keep between them still holds. */
  lemma StepKeeps(s: System, n: nat, step: Step)
    requires SystemInv(s, n) && Enabled(s, step)
    ensures SystemInv(Next(s, step), n)
  {
    hide SystemInv, Absorb, Complete, CancelWait, CoordinatorModel.OnOuterStop, Doom, Finish;
    match step
    case Create(a, output, predecessor) => CreateKeeps(s, n, a, output, predecessor);
    case Start(a) => StartKeeps(s, n, a);
    case Begin(a) => BeginKeeps(s, n, a);
    case Deliver(a) => if IsTakeBack(s, a) { TakeBackKeeps(s, n, a); } else { FirstKeeps(s, n, a); }
    case DeliverRefusal(a) => if IsTakeBack(s, a) { RefusalKeeps(s, n, a); } else { AbandonKeeps(s, n, a); }
    case RequestStop(a) => StopRequestKeeps(s, n, a);
    case StopQueued(a) => StopRequestKeeps(s, n, a);
    case Work(a) => WorkKeeps(s, n, a);
    case Drain(a) => DrainKeeps(s, n, a);
    case Retire(a) => RetireKeeps(s, n, a);
    case Finished(a, work) => FinishedKeeps(s, n, a, work, ResultOf(s.c.attempts[a], work));
    case Open(w, target, requester, order) => OpenKeeps(s, n, w, target, requester, order);
    case OpenClosesCycle(target, asker, cycle) => DoomedKeeps(s, n, cycle);
    case Cancel(w) => CancelKeeps(s, n, w);
    case OuterStop(a) => OuterStopKeeps(s, n, a);
  }

  lemma DoomedKeeps(s: System, n: nat, cycle: seq<AttemptId>)
    requires SystemInv(s, n)
    ensures SystemInv(Absorb(s, Doom(s.c, Nodes(cycle))), n)
  {
    hide SystemInv, Absorb, Stop;
    var hit := Nodes(cycle);
    var stopped := set a | a in hit && a in s.c.attempts && Stoppable(s.c.attempts[a]);
    assert Doom(s.c, hit) == Stop(s.c, stopped, true);
    StoppedKeeps(s, n, stopped, true);
  }

  /** A run of the machine of `n` slots, from the start. */
  ghost predicate IsRun(states: seq<System>, steps: seq<Step>, n: nat) {
    && |states| == |steps| + 1 && states[0] == Init(n)
    && forall i :: 0 <= i < |steps| ==> Enabled(states[i], steps[i]) && states[i + 1] == Next(states[i], steps[i])
  }

  lemma {:induction false} RunKeeps(states: seq<System>, steps: seq<Step>, n: nat, i: nat)
    requires IsRun(states, steps, n) && i < |states|
    ensures SystemInv(states[i], n)
  {
    if i == 0 {
      InitInv(n);
    } else {
      RunKeeps(states, steps, n, i - 1);
      StepKeeps(states[i - 1], n, steps[i - 1]);
      assert states[i - 1 + 1] == Next(states[i - 1], steps[i - 1]);
    }
  }

  /** What the invariant says of the permits of attempts and the waits of their requests. */
  lemma PermitProtocol(c: State, w: WaitId, r: AttemptId)
    requires Inv(c) && w in c.waits && c.waits[w].requester == Some(r) && Live(c.waits[w])
    ensures r in c.attempts && c.attempts[r].phase == Running && !c.attempts[r].stopping
    ensures c.attempts[r].permit != Held
    ensures c.waits[w].state == Ready ==> c.attempts[r].permit == Reacquiring
    ensures c.attempts[r].permit == Released ==> forall v :: v in c.waits && MadeBy(c.waits[v], r) ==> c.waits[v].state == Blocked
  {
    assert WaitOk(c, c.waits[w]);
    forall v | v in c.waits && MadeBy(c.waits[v], r) && c.attempts[r].permit == Released ensures c.waits[v].state == Blocked {
      assert WaitOk(c, c.waits[v]);
    }
  }

  /** Every state of every run: no deadlock closed, no slot made or lost, each wait woken just once, nothing spinning. */
  lemma EveryRunIsSafe(states: seq<System>, steps: seq<Step>, n: nat, i: nat)
    requires IsRun(states, steps, n) && i < |states|
    ensures var s := states[i];
      && Acyclic(WaitGraph(s.c)) && HurryClosed(s.c)
      && s.lines.free + |s.holders| + |InTransit(s)| == n
      && (s.lines.free > 0 ==> s.lines.All() == [])
      && (forall w :: s.wakes[w] <= 1)
      && (forall w :: w in s.c.waits ==> (s.wakes[w] == 1 <==> s.c.waits[w].state == Done))
      && (forall a :: s.releases[a] <= 1 + s.grants[a])
      && (forall a :: a in s.c.attempts && GaveBack(s.c.attempts[a]) ==> HasBlocked(s.c, a))
  {
    RunKeeps(states, steps, n, i);
    var s := states[i];
    hide Acyclic, HurryClosed, Behind;
    forall a ensures s.releases[a] <= 1 + s.grants[a] {
      assert a in s.c.attempts ==> CountOk(s, a);
    }
  }

  /** A wait answered got its target's result, or was canceled; one not answered waits for a target not completed. */
  lemma AnswersAreResults(states: seq<System>, steps: seq<Step>, n: nat, i: nat, w: WaitId)
    requires IsRun(states, steps, n) && i < |states| && w in states[i].c.waits
    ensures var c := states[i].c;
      var wait := c.waits[w];
      && wait.target in c.attempts
      && (wait.state == Done ==> wait.result == Canceled || c.attempts[wait.target].result == Some(wait.result))
      && (wait.state == Blocked ==> c.attempts[wait.target].result.None?)
  {
    RunKeeps(states, steps, n, i);
    assert WaitOk(states[i].c, states[i].c.waits[w]);
  }

  /** Whatever a hurried attempt waits on, or behind, is hurried too, and nothing hurried waits among those that are not. */
  lemma HurriedGoAhead(states: seq<System>, steps: seq<Step>, n: nat, i: nat, a: AttemptId, b: AttemptId)
    requires IsRun(states, steps, n) && i < |states| && a in states[i].c.attempts && states[i].c.attempts[a].hurried
    requires a == b || Reaches(WaitGraph(states[i].c), a, b)
    ensures var s := states[i];
      b in s.c.attempts && s.c.attempts[b].hurried && b !in s.lines.waiting
  {
    RunKeeps(states, steps, n, i);
    var s := states[i];
    var held := set x | x in s.c.attempts && s.c.attempts[x].hurried;
    HurriedClosed(s.c, held);
    ConnectedSplits(WaitGraph(s.c), a, b);
    var p :| PathBetween(WaitGraph(s.c), p, a, b);
    ClosedHoldsPath(WaitGraph(s.c), held, p, a, b);
    assert PlaceOk(s, b);
  }

  lemma HurriedClosed(c: State, held: set<AttemptId>)
    requires Known(c) && HurryClosed(c) && forall x :: x in held <==> x in c.attempts && c.attempts[x].hurried
    ensures forall x, y :: x in held && Edge(WaitGraph(c), x, y) ==> y in held
  {
    WaitGraphEdges(c);
    forall x, y | x in held && Edge(WaitGraph(c), x, y) ensures y in held {
      assert WaitsOn(c, x, y);
    }
  }

  /** Attempts at one output never run at once. */
  lemma OneRunsEach(states: seq<System>, steps: seq<Step>, n: nat, i: nat, a: AttemptId, b: AttemptId)
    requires IsRun(states, steps, n) && i < |states|
    requires a in states[i].c.attempts && b in states[i].c.attempts
    requires states[i].c.attempts[a].phase == Running && states[i].c.attempts[b].phase == Running
    requires states[i].c.attempts[a].output == states[i].c.attempts[b].output
    ensures a == b
  {
    RunKeeps(states, steps, n, i);
  }

  // ---- Progress --------------------------------------------------------------------------------

  /** An unanswered wait. */
  predicate Unanswered(s: System, w: WaitId) {
    w in s.c.waits && Live(s.c.waits[w])
  }

  /** The attempt whose work a step goes on with, if it does, rather than being a command's choice, or the giving up of an attempt. */
  function DueFor(s: System, step: Step): Option<AttemptId> {
    match step
    case Begin(a) => Some(a)
    case Deliver(a) => Some(a)
    case DeliverRefusal(a) => Some(a)
    case RequestStop(a) => Some(a)
    case Drain(a) => Some(a)
    case Start(a) => Some(a)
    case Finished(a, _) => Some(a)
    case Work(a) =>
      // Its command is being stopped, or runs on a permit with nothing to wait for.
      if a in s.c.attempts && (s.c.attempts[a].stopping || (s.c.attempts[a].permit == Held && !HasBlocked(s.c, a)))
      then Some(a) else None
    case _ => None
  }

  ghost predicate GoesOn(s: System, a: AttemptId) {
    exists step :: DueFor(s, step) == Some(a) && Enabled(s, step)
  }

  /** The attempt goes on, or is in line for a slot of one that does. */
  ghost predicate GetsOn(s: System, a: AttemptId) {
    || GoesOn(s, a)
    || (a in s.requests && s.requests[a] == InLine && exists b :: (b in s.holders || b in InTransit(s)) && GoesOn(s, b))
  }

  lemma GoesOnBy(s: System, step: Step, a: AttemptId)
    requires DueFor(s, step) == Some(a) && Enabled(s, step)
    ensures GoesOn(s, a)
  {
  }

  /** Whoever holds a slot is to give it back. */
  lemma HolderGoesOn(s: System, n: nat, a: AttemptId)
    requires SystemInv(s, n) && a in s.holders
    ensures GoesOn(s, a)
  {
    assert SlotOk(s, a) && AttemptOk(s.c.attempts[a]);
    if s.c.attempts[a].phase == Ended {
      GoesOnBy(s, Drain(a), a);
    } else {
      HeldWaitsForNone(s.c, a);
      GoesOnBy(s, Work(a), a);
    }
  }

  lemma HeldWaitsForNone(c: State, a: AttemptId)
    requires Local(c) && a in c.attempts && c.attempts[a].permit == Held
    ensures !HasBlocked(c, a)
  {
    forall w | w in c.waits ensures !(c.waits[w].state == Blocked && c.waits[w].requester == Some(a)) {
      assert WaitOk(c, c.waits[w]);
    }
  }

  /** A slot somebody waits for is held by someone, or on its way to them. */
  lemma LineGetsOn(s: System, n: nat, a: AttemptId)
    requires SystemInv(s, n) && n >= 1 && a in s.c.attempts && s.requests[a] == InLine
    ensures GetsOn(s, a)
  {
    assert PlaceOk(s, a);
    assert s.lines.free == 0;
    if |s.holders| > 0 {
      var h := Member(s.holders);
      HolderGoesOn(s, n, h);
    } else {
      var b := Member(InTransit(s));
      GoesOnBy(s, Deliver(b), b);
    }
  }

  lemma RequestGetsOn(s: System, n: nat, a: AttemptId)
    requires SystemInv(s, n) && n >= 1 && a in s.c.attempts && UnderWay(s.requests[a])
    ensures GetsOn(s, a)
  {
    match s.requests[a]
    case Starting => GoesOnBy(s, Begin(a), a);
    case InLine => LineGetsOn(s, n, a);
    case Given => GoesOnBy(s, Deliver(a), a);
    case Refused => GoesOnBy(s, DeliverRefusal(a), a);
  }

  /** An attempt not completed that waits on no other such goes on, or gets the slot of one that does. */
  lemma SinkGetsOn(s: System, n: nat, a: AttemptId)
    requires SystemInv(s, n) && n >= 1 && a in s.c.attempts && s.c.attempts[a].result.None?
    requires forall b :: WaitsOn(s.c, a, b) ==> b in s.c.attempts && s.c.attempts[b].result.Some?
    ensures GetsOn(s, a)
  {
    var x := s.c.attempts[a];
    assert SlotOk(s, a) && AttemptOk(x);
    NoBlockedLeft(s.c, a);
    if UnderWay(s.requests[a]) {
      RequestGetsOn(s, n, a);
    } else if s.requests[a] == Abandoned {
      GoesOnBy(s, Finished(a, Success), a);
    } else {
      match x.phase
      case Pending =>
        if x.predecessor.Some? {
          assert WaitsOn(s.c, a, x.predecessor.value);
        }
        GoesOnBy(s, Start(a), a);
      case Queued => assert false;
      case Running => GoesOnBy(s, Work(a), a);
      case Ended =>
        if a in s.drained {
          GoesOnBy(s, Finished(a, Success), a);
        } else {
          GoesOnBy(s, Drain(a), a);
        }
    }
  }

  /** A wait blocked has a target not completed. */
  lemma NoBlockedLeft(c: State, a: AttemptId)
    requires Inv(c) && a in c.attempts
    requires forall b :: WaitsOn(c, a, b) ==> b in c.attempts && c.attempts[b].result.Some?
    ensures !HasBlocked(c, a)
  {
    forall w | w in c.waits ensures !(c.waits[w].state == Blocked && c.waits[w].requester == Some(a)) {
      assert WaitOk(c, c.waits[w]);
      assert Blocks(c.waits[w], a, c.waits[w].target) ==> WaitsOn(c, a, c.waits[w].target);
    }
  }

  ghost function Uncompleted(c: State): set<AttemptId> {
    set a | a in c.attempts && c.attempts[a].result.None?
  }

  /** What an attempt not completed waits on leads to one that waits on no other such. */
  lemma FindSink(c: State, target: AttemptId) returns (sink: AttemptId)
    requires Inv(c) && target in Uncompleted(c)
    ensures sink in Uncompleted(c) && Connected(WaitGraph(c), target, sink)
    ensures forall b :: WaitsOn(c, sink, b) ==> b in c.attempts && c.attempts[b].result.Some?
  {
    var live := Uncompleted(c);
    var g := set e | e in WaitGraph(c) && e.1 in live;
    FewerEdgesStayAcyclic(g, WaitGraph(c));
    sink := ReachSink(g, target);
    var p :| PathBetween(g, p, target, sink);
    ClosedHoldsPath(g, live, p, target, sink);
    PathInLarger(g, WaitGraph(c), target, sink);
    WaitGraphEdges(c);
    forall b | WaitsOn(c, sink, b) ensures b in c.attempts && c.attempts[b].result.Some? {
      assert Edge(WaitGraph(c), sink, b) && !Edge(g, sink, b);
    }
  }

  /** What an unanswered wait is held up by: what its target waits on, or, its answer known, its own attempt's permit. */
  ghost predicate HoldsUp(c: State, wait: Wait, a: AttemptId) {
    if wait.state == Ready then wait.requester == Some(a) else Connected(WaitGraph(c), wait.target, a)
  }

  /** With a slot to share, something that holds up an unanswered wait can go on, or whoever has the slot it is in line for can. */
  lemma AlwaysGoesOn(s: System, n: nat, w: WaitId)
    requires SystemInv(s, n) && n >= 1 && Unanswered(s, w)
    ensures exists a :: HoldsUp(s.c, s.c.waits[w], a) && GetsOn(s, a)
  {
    var wait := s.c.waits[w];
    assert WaitOk(s.c, wait);
    if wait.state == Ready {
      var r := wait.requester.value;
      assert SlotOk(s, r);
      RequestGetsOn(s, n, r);
      assert HoldsUp(s.c, wait, r);
    } else {
      var sink := FindSink(s.c, wait.target);
      SinkGetsOn(s, n, sink);
      assert HoldsUp(s.c, wait, sink);
    }
  }

  /** So no run comes to rest with a wait unanswered. */
  lemma NoRunDeadlocks(states: seq<System>, steps: seq<Step>, n: nat, i: nat, w: WaitId)
    requires IsRun(states, steps, n) && i < |states| && n >= 1 && Unanswered(states[i], w)
    ensures exists a :: HoldsUp(states[i].c, states[i].c.waits[w], a) && GetsOn(states[i], a)
  {
    RunKeeps(states, steps, n, i);
    AlwaysGoesOn(states[i], n, w);
  }
}
