/** Each wait starts at most one take-back, so permits are not given back and taken without end. */
module PermitsTakeBacks {
  import opened Wrappers
  import opened Graphs
  import opened CoordinatorModel
  import opened CoordinatorInvariants
  import opened QueueLines
  import opened Permits
  import opened PermitsInvariant
  import opened PermitsRuns

  /** The requests of `a` that no longer wait for their target. */
  ghost function Unblocked(c: State, a: AttemptId): set<WaitId> {
    set w | w in c.waits && c.waits[w].requester == Some(a) && c.waits[w].state != Blocked
  }

  /** The take-backs of `a` granted, and the one under way. */
  function TakeBacks(s: System, a: AttemptId): nat {
    s.grants[a] + if a in s.c.attempts && s.c.attempts[a].permit == Reacquiring then 1 else 0
  }

  predicate WentOn(v: Wait, u: Wait) {
    u.requester == v.requester && (u.state == Blocked ==> v.state == Blocked)
  }

  /** Waits stay, and none blocks again. */
  ghost predicate MovesOn(c: State, d: State) {
    && c.attempts.Keys <= d.attempts.Keys
    && forall w :: w in c.waits ==> w in d.waits && WentOn(c.waits[w], d.waits[w])
  }

  /** A request of `a` that blocked does no more. */
  ghost predicate Turned(c: State, d: State, a: AttemptId) {
    exists w :: w in c.waits && w in d.waits && c.waits[w].state == Blocked && c.waits[w].requester == Some(a)
                && d.waits[w].state != Blocked
  }

  ghost predicate TakesFor(c: State, d: State, a: AttemptId)
    requires a in d.attempts
  {
    d.attempts[a].permit == Reacquiring ==>
      a in c.attempts && (c.attempts[a].permit == Reacquiring || Turned(c, d, a))
  }

  /** A change starts a take-back only as some request of its attempt stops blocking. */
  ghost predicate TakesOncePerWait(c: State, d: State) {
    MovesOn(c, d) && forall a :: a in d.attempts ==> TakesFor(c, d, a)
  }

  lemma StopTakes(c: State, stopped: set<AttemptId>, doom: bool)
    requires stopped <= c.attempts.Keys
    ensures TakesOncePerWait(c, Stop(c, stopped, doom).state)
  {
  }

  lemma CompleteTakes(c: State, a: AttemptId, result: Code)
    requires a in c.attempts
    ensures TakesOncePerWait(c, Complete(c, a, result).state)
  {
    var d := Complete(c, a, result).state;
    forall r | r in d.attempts ensures TakesFor(c, d, r) {
      if r in Complete(c, a, result).effects.reacquires {
        var w :| w in BlockedOn(c, a) && c.waits[w].requester == Some(r);
        assert d.waits[w].state != Blocked;
      }
    }
  }

  lemma CancelTakes(c: State, w: WaitId)
    requires Local(c) && w in c.waits && (c.waits[w].requester.Some? ==> c.waits[w].requester.value in c.attempts)
    ensures TakesOncePerWait(c, CancelWait(c, w).state)
  {
    var d := CancelWait(c, w).state;
    assert WaitOk(c, c.waits[w]);
    forall r | r in d.attempts ensures TakesFor(c, d, r) {
      if r in CancelWait(c, w).effects.reacquires {
        assert c.waits[w].state == Blocked && d.waits[w].state == Done;
      }
    }
  }

  lemma BlockTakes(c: State, w: WaitId, target: AttemptId, requester: Option<AttemptId>)
    requires Blockable(c, w, target, requester)
    ensures TakesOncePerWait(c, Block(c, w, target, requester).state)
  {
    hide WaitGraph, Connected, Upstream;
  }

  lemma ReacquiredTakes(c: State, a: AttemptId, granted: bool)
    requires a in c.attempts
    ensures TakesOncePerWait(c, OnReacquired(c, a, granted).state)
    ensures OnReacquired(c, a, granted).state.attempts[a].permit != Reacquiring
  {
  }

  predicate Grants(s: System, step: Step) {
    step.Deliver? && step.a in s.c.attempts && IsTakeBack(s, step.a)
  }

  /** What a step does to the grants: it adds to them only as it answers a take-back. */
  predicate GrantsOk(s: System, step: Step, t: System) {
    if Grants(s, step) then
      t.grants == s.grants + multiset{step.a} && step.a in t.c.attempts && t.c.attempts[step.a].permit != Reacquiring
    else t.grants == s.grants
  }

  lemma DeliverTakes(s: System, a: AttemptId)
    requires Enabled(s, Deliver(a))
    ensures TakesOncePerWait(s.c, Next(s, Deliver(a)).c) && GrantsOk(s, Deliver(a), Next(s, Deliver(a)))
  {
    hide OnReacquired, PromoteAll, Distinct;
    if IsTakeBack(s, a) {
      hide TakesOncePerWait;
      ReacquiredTakes(s.c, a, true);
    }
  }

  lemma OpenTakes(s: System, w: WaitId, target: AttemptId, requester: Option<AttemptId>, order: seq<AttemptId>)
    requires Enabled(s, Open(w, target, requester, order))
    ensures var t := AfterOpen(s, w, target, requester, order);
      TakesOncePerWait(s.c, t.c) && t.grants == s.grants
  {
    hide Block, PromoteAll, Distinct, TakesOncePerWait;
    BlockTakes(s.c, w, target, requester);
  }

  lemma RefusalTakes(s: System, a: AttemptId)
    requires Enabled(s, DeliverRefusal(a))
    ensures TakesOncePerWait(s.c, AfterRefusal(s, a).c) && AfterRefusal(s, a).grants == s.grants
  {
    hide OnReacquired;
    if IsTakeBack(s, a) {
      ReacquiredTakes(s.c, a, false);
    }
  }

  lemma OuterStopTakes(s: System, a: AttemptId)
    requires Enabled(s, OuterStop(a))
    ensures TakesOncePerWait(s.c, CoordinatorModel.OnOuterStop(s.c, a).state)
  {
    StopTakes(s.c, {a}, false);
  }

  lemma WorkTakes(s: System, a: AttemptId)
    requires Enabled(s, Work(a))
    ensures TakesOncePerWait(s.c, Finish(s.c, a).state)
  {
  }

  lemma BeginTakes(s: System, a: AttemptId)
    requires Enabled(s, Begin(a))
    ensures TakesOncePerWait(s.c, AfterBegin(s, a).c) && AfterBegin(s, a).grants == s.grants
  {
  }

  lemma StopRequestTakes(s: System, a: AttemptId)
    requires Tracked(s) && a in s.c.attempts
    ensures TakesOncePerWait(s.c, StopRequest(s, a).c) && StopRequest(s, a).grants == s.grants
  {
  }

  lemma StepTakes(s: System, n: nat, step: Step)
    requires SystemInv(s, n) && Enabled(s, step)
    ensures TakesOncePerWait(s.c, Next(s, step).c) && GrantsOk(s, step, Next(s, step))
  {
    match step
    case Cancel(w) => hide CancelWait, TakesOncePerWait; CancelTakesInv(s, n, w);
    case Deliver(a) => hide SystemInv; DeliverTakes(s, a);
    case _ => hide SystemInv; OtherStepTakes(s, step);
  }

  lemma OtherStepTakes(s: System, step: Step)
    requires Enabled(s, step) && !step.Cancel? && !step.Deliver?
    ensures TakesOncePerWait(s.c, Next(s, step).c) && GrantsOk(s, step, Next(s, step))
  {
    hide Complete, Stop, AfterRefusal, Block, AfterOpen, NewlyHurried, StopRequest, AfterBegin, Finish, CoordinatorModel.OnOuterStop;
    match step
    case Retire(_) =>
    case Finished(a, work) => hide TakesOncePerWait; CompleteTakes(s.c, a, ResultOf(s.c.attempts[a], work));
    case Open(w, target, requester, order) => hide TakesOncePerWait; OpenTakes(s, w, target, requester, order);
    case DeliverRefusal(a) => hide TakesOncePerWait; RefusalTakes(s, a);
    case OpenClosesCycle(_, _, cycle) =>
      hide TakesOncePerWait;
      var hit := Nodes(cycle);
      StopTakes(s.c, set a | a in hit && a in s.c.attempts && Stoppable(s.c.attempts[a]), true);
    case OuterStop(a) => OuterStopTakes(s, a);
    case Create(_, _, _) =>
    case Start(_) =>
    case Work(a) => WorkTakes(s, a);
    case Drain(_) =>
    case Begin(a) => BeginTakes(s, a);
    case RequestStop(a) => StopRequestTakes(s, a);
    case StopQueued(a) => StopRequestTakes(s, a);
  }

  lemma CancelTakesInv(s: System, n: nat, w: WaitId)
    requires SystemInv(s, n) && Enabled(s, Cancel(w))
    ensures TakesOncePerWait(s.c, CancelWait(s.c, w).state)
  {
    hide CancelWait, TakesOncePerWait;
    CancelTakes(s.c, w);
  }

  ghost predicate TakesBounded(s: System) {
    forall a :: TakeBacks(s, a) <= |Unblocked(s.c, a)|
  }

  lemma TurnedGrows(c: State, d: State, a: AttemptId)
    requires MovesOn(c, d)
    ensures |Unblocked(c, a)| + (if Turned(c, d, a) then 1 else 0) <= |Unblocked(d, a)|
  {
    forall w | w in Unblocked(c, a) ensures w in Unblocked(d, a) {
      assert WentOn(c.waits[w], d.waits[w]);
    }
    if Turned(c, d, a) {
      var w :| w in c.waits && w in d.waits && c.waits[w].state == Blocked && c.waits[w].requester == Some(a)
               && d.waits[w].state != Blocked;
      Larger(Unblocked(c, a) + {w}, Unblocked(d, a));
    } else {
      Larger(Unblocked(c, a), Unblocked(d, a));
    }
  }

  lemma Larger(x: set<WaitId>, y: set<WaitId>)
    requires x <= y
    ensures |x| <= |y|
  {
    assert y == x + (y - x);
  }

  lemma StepBoundsTakes(s: System, n: nat, step: Step)
    requires SystemInv(s, n) && Enabled(s, step) && TakesBounded(s)
    ensures TakesBounded(Next(s, step))
  {
    var t := Next(s, step);
    StepTakes(s, n, step);
    hide SystemInv, Next, Enabled, Unblocked, Turned, MovesOn;
    assert MovesOn(s.c, t.c) && forall a :: a in t.c.attempts ==> TakesFor(s.c, t.c, a);
    forall a ensures TakeBacks(t, a) <= |Unblocked(t.c, a)| {
      TurnedGrows(s.c, t.c, a);
      assert TakeBacks(s, a) <= |Unblocked(s.c, a)|;
      assert a in t.c.attempts ==> TakesFor(s.c, t.c, a);
    }
  }

  lemma {:induction false} RunBoundsTakes(states: seq<System>, steps: seq<Step>, n: nat, i: nat)
    requires IsRun(states, steps, n) && i < |states|
    ensures TakesBounded(states[i])
  {
    hide SystemInv, Next, Enabled, Unblocked;
    if i == 0 {
      assert forall a :: TakeBacks(states[0], a) == 0;
    } else {
      RunKeeps(states, steps, n, i - 1);
      RunBoundsTakes(states, steps, n, i - 1);
      StepBoundsTakes(states[i - 1], n, steps[i - 1]);
      assert states[i - 1 + 1] == Next(states[i - 1], steps[i - 1]);
    }
  }

  /** A permit is given back no more often than once, and once more for each request that ever stopped blocking. */
  lemma NothingSpins(states: seq<System>, steps: seq<Step>, n: nat, i: nat, a: AttemptId)
    requires IsRun(states, steps, n) && i < |states|
    ensures states[i].grants[a] <= |Unblocked(states[i].c, a)|
    ensures states[i].releases[a] <= 1 + |Unblocked(states[i].c, a)|
  {
    hide Unblocked;
    RunBoundsTakes(states, steps, n, i);
    EveryRunIsSafe(states, steps, n, i);
    assert TakeBacks(states[i], a) <= |Unblocked(states[i].c, a)|;
  }
}
