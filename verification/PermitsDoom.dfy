/** What becomes of attempts on a cycle: they are stopped, and fail whatever their commands did. */
module PermitsDoom {
  import opened Wrappers
  import opened Graphs
  import opened CoordinatorModel
  import opened CoordinatorInvariants
  import opened Permits
  import opened PermitsInvariant
  import opened PermitsRuns

  /** Whatever was doomed, once completed, has failed. */
  ghost predicate DoomedFail(c: State) {
    forall a :: a in c.attempts && c.attempts[a].doomed && c.attempts[a].result.Some? ==> c.attempts[a].result == Some(WouldDeadlock)
  }

  /** What runs has no result yet. */
  lemma RunningHasNone(s: System, n: nat, a: AttemptId)
    requires SystemInv(s, n) && a in s.c.attempts && s.c.attempts[a].phase == Running
    ensures s.c.attempts[a].result.None?
  {
    assert SlotOk(s, a);
  }

  /** Attempts are doomed, or completed, no more than that keeps to. */
  ghost predicate DoomsRightly(c: State, d: State) {
    forall a :: a in d.attempts && d.attempts[a].doomed && d.attempts[a].result.Some? ==>
      || d.attempts[a].result == Some(WouldDeadlock)
      || (a in c.attempts && c.attempts[a].doomed && c.attempts[a].result == d.attempts[a].result)
  }

  lemma ChangesDoomRightly(c: State, a: AttemptId, work: Code, w: WaitId, granted: bool)
    ensures a in c.attempts ==> DoomsRightly(c, Complete(c, a, ResultOf(c.attempts[a], work)).state)
    ensures a in c.attempts ==> DoomsRightly(c, Finish(c, a).state)
    ensures a in c.attempts ==> DoomsRightly(c, OnReacquired(c, a, granted).state)
    ensures w in c.waits && (c.waits[w].requester.Some? ==> c.waits[w].requester.value in c.attempts) ==>
      DoomsRightly(c, CancelWait(c, w).state)
  {
  }

  lemma StopDoomsRightly(c: State, stopped: set<AttemptId>, doom: bool)
    requires stopped <= c.attempts.Keys && forall a :: a in stopped ==> c.attempts[a].result.None?
    ensures DoomsRightly(c, Stop(c, stopped, doom).state)
  {
  }

  lemma BlockDoomsRightly(c: State, w: WaitId, target: AttemptId, requester: Option<AttemptId>)
    requires Blockable(c, w, target, requester)
    ensures DoomsRightly(c, Block(c, w, target, requester).state)
  {
    BlockAttempts(c, w, target, requester);
    hide Block;
  }

  /** What a step leaves of the coordinator's own state. */
  ghost function StateAfter(s: System, step: Step): State
    requires Enabled(s, step)
  {
    match step
    case Create(a, output, predecessor) => CreateAttempt(s.c, a, output, predecessor)
    case Start(a) => CoordinatorModel.Run(s.c, a)
    case Deliver(a) => if IsTakeBack(s, a) then OnReacquired(s.c, a, true).state else OnPermit(s.c, a)
    case DeliverRefusal(a) => if IsTakeBack(s, a) then OnReacquired(s.c, a, false).state else s.c
    case Work(a) => Finish(s.c, a).state
    case Finished(a, work) => Complete(s.c, a, ResultOf(s.c.attempts[a], work)).state
    case Open(w, target, requester, _) => Block(s.c, w, target, requester).state
    case OpenClosesCycle(_, _, cycle) => Doom(s.c, Nodes(cycle)).state
    case Cancel(w) => CancelWait(s.c, w).state
    case OuterStop(a) => CoordinatorModel.OnOuterStop(s.c, a).state
    case _ => s.c
  }

  lemma StateAfterIs(s: System, step: Step)
    requires Enabled(s, step)
    ensures Next(s, step).c == StateAfter(s, step)
  {
    hide Complete, Finish, OnReacquired, CancelWait, Stop, Block, Doom, CreateAttempt, OnPermit, NewlyHurried, PromoteAll;
  }

  lemma StepDoomsRightly(s: System, n: nat, step: Step)
    requires SystemInv(s, n) && Enabled(s, step)
    ensures DoomsRightly(s.c, Next(s, step).c)
  {
    forall a | a in s.c.attempts && s.c.attempts[a].phase == Running ensures s.c.attempts[a].result.None? {
      RunningHasNone(s, n, a);
    }
    StateAfterIs(s, step);
    StateDoomsRightly(s, step);
    hide SystemInv, DoomsRightly, Next, StateAfter;
  }

  lemma StateDoomsRightly(s: System, step: Step)
    requires Enabled(s, step)
    requires forall a :: a in s.c.attempts && s.c.attempts[a].phase == Running ==> s.c.attempts[a].result.None?
    ensures DoomsRightly(s.c, StateAfter(s, step))
  {
    hide Complete, Finish, OnReacquired, CancelWait, Stop, Block;
    match step
    case Deliver(a) => ChangesDoomRightly(s.c, a, Success, 0, true);
    case DeliverRefusal(a) => ChangesDoomRightly(s.c, a, Success, 0, false);
    case Work(a) => ChangesDoomRightly(s.c, a, Success, 0, true);
    case Finished(a, work) => ChangesDoomRightly(s.c, a, work, 0, true);
    case Cancel(w) => ChangesDoomRightly(s.c, 0, Success, w, true);
    case Open(w, target, requester, _) => BlockDoomsRightly(s.c, w, target, requester);
    case OpenClosesCycle(_, _, cycle) =>
      StopDoomsRightly(s.c, set a | a in Nodes(cycle) && a in s.c.attempts && Stoppable(s.c.attempts[a]), true);
    case OuterStop(a) => StopDoomsRightly(s.c, if Stoppable(s.c.attempts[a]) then {a} else {}, false);
    case _ =>
  }

  lemma {:induction false} RunKeepsDoom(states: seq<System>, steps: seq<Step>, n: nat, i: nat)
    requires IsRun(states, steps, n) && i < |states|
    ensures DoomedFail(states[i].c)
  {
    hide SystemInv, Next, Enabled;
    if i > 0 {
      RunKeepsDoom(states, steps, n, i - 1);
      RunKeeps(states, steps, n, i - 1);
      StepDoomsRightly(states[i - 1], n, steps[i - 1]);
      assert states[i - 1 + 1] == Next(states[i - 1], steps[i - 1]);
    }
  }

  /** A request that waited on an attempt doomed meanwhile is told of the cycle, or was canceled; it never succeeds. */
  lemma NoneSucceedsOnTheDoomed(states: seq<System>, steps: seq<Step>, n: nat, i: nat, w: WaitId)
    requires IsRun(states, steps, n) && i < |states| && w in states[i].c.waits && states[i].c.waits[w].state == Done
    requires states[i].c.waits[w].target in states[i].c.attempts && states[i].c.attempts[states[i].c.waits[w].target].doomed
    ensures states[i].c.waits[w].result in {Canceled, WouldDeadlock}
  {
    AnswersAreResults(states, steps, n, i, w);
    RunKeepsDoom(states, steps, n, i);
  }
}
