/** What each wait is told as it completes, and why: in every run of the waiting thread and those that hand it work. */
module IoOutcomes {
  import opened QueueLines
  import opened LinkedNode
  import opened IoContext

  /** What a step decides for `w`: it was stopped before it began or since, its handle is ready, or it could not be waited for. */
  predicate Decides(c: Context, step: Step, w: WaitId, end: End) {
    || (step == RunTask(true) && c.drained != [] && c.drained[0] == Begin(w) && end == End.Stopped)
    || (step == Register(false) && c.place == Adding(w) && end == Failed)
    || (step == StopOne && c.cancelled != [] && c.cancelled[0] == w && end == End.Stopped)
    || (step.Handle? && c.place.Handling? && c.place.ready != [] && c.place.ready[0] == w
        && (step.done || !step.rearmed) && end == if step.done then Signalled else Failed)
  }

  /** Its end is decided: it is being finished, or has completed. */
  predicate Ending(c: Context, w: WaitId) {
    BeingFinished(c, w) || c.completed[w] > 0
  }

  /** A step that decides the end of a wait begins it. */
  lemma DecidingEnds(c: Context, step: Step, w: WaitId, end: End)
    requires Enabled(c, step) && Decides(c, step, w, end)
    ensures var d := Next(c, step); Ending(d, w) && w in d.ends && d.ends[w] == end
  {
    hide Minus, OldestFirst, TakeCancels;
  }

  /** What was decided stands. */
  lemma EndingStays(c: Context, step: Step, w: WaitId)
    requires Inv(c) && Enabled(c, step) && Ending(c, w)
    ensures var d := Next(c, step); Ending(d, w) && (w in c.ends ==> w in d.ends && d.ends[w] == c.ends[w])
  {
    DecidedOnce(c, step, w, End.Stopped);
    DecidedOnce(c, step, w, Failed);
    DecidedOnce(c, step, w, Signalled);
    hide Inv, Minus, OldestFirst, TakeCancels;
  }

  lemma DecidedOnce(c: Context, step: Step, w: WaitId, end: End)
    requires Inv(c) && Enabled(c, step) && Ending(c, w)
    ensures !Decides(c, step, w, end)
  {
    assert WaitOk(c, w);
    if c.place == Running && c.drained != [] {
      NotRunYet(c);
    }
    hide OldestFirst, Minus, Distinct;
  }

  /** Only such a step does. */
  lemma EndsForCause(c: Context, step: Step, w: WaitId)
    requires Inv(c) && Enabled(c, step) && Ending(Next(c, step), w)
    ensures Ending(c, w) || exists end :: Decides(c, step, w, end)
  {
    if step.Handle? {
      assert Decides(c, step, c.place.ready[0], if step.done then Signalled else Failed) || (!step.done && step.rearmed);
    } else if step == Register(false) {
      assert Decides(c, step, c.place.wait, Failed);
    } else if step == StopOne {
      assert Decides(c, step, c.cancelled[0], End.Stopped);
    } else if step == RunTask(true) {
      assert c.drained[0] == Begin(w) ==> Decides(c, step, w, End.Stopped);
    }
    hide Inv, Minus, OldestFirst, TakeCancels, Decides;
  }

  /** What a wait is told is decided once, for a cause. */
  lemma {:induction false} ToldForCause(states: seq<Context>, steps: seq<Step>, i: nat, w: WaitId) returns (j: nat)
    requires IsRun(states, steps) && i < |states| && Ending(states[i], w)
    ensures j < i && w in states[i].ends && Decides(states[j], steps[j], w, states[i].ends[w])
  {
    hide Inv, Next, Enabled, Decides, Ending;
    InitEndsNone(w);
    assert i > 0;
    assert Enabled(states[i - 1], steps[i - 1]) && states[i - 1 + 1] == Next(states[i - 1], steps[i - 1]);
    RunKeeps(states, steps, i - 1);
    if Ending(states[i - 1], w) {
      j := ToldForCause(states, steps, i - 1, w);
      EndingStays(states[i - 1], steps[i - 1], w);
    } else {
      EndsForCause(states[i - 1], steps[i - 1], w);
      var end :| Decides(states[i - 1], steps[i - 1], w, end);
      DecidingEnds(states[i - 1], steps[i - 1], w, end);
      j := i - 1;
    }
  }

  lemma InitEndsNone(w: WaitId)
    ensures !Ending(Initial, w)
  {
  }

  /** And it is told that by the time the thread next polls: a wait whose handle is ready and that is done, or that could not
      be rearmed, or added, or that is stopped, has completed by then. */
  lemma DecidedCompletesByPoll(states: seq<Context>, steps: seq<Step>, i: nat, k: nat, w: WaitId, end: End)
    requires IsRun(states, steps) && i < k < |states| && states[k].place == Polling && Decides(states[i], steps[i], w, end)
    ensures states[k].completed[w] == 1 && w in states[k].ends && states[k].ends[w] == end
  {
    RunKeeps(states, steps, i);
    assert Enabled(states[i], steps[i]) && states[i + 1] == Next(states[i], steps[i]);
    DecidingEnds(states[i], steps[i], w, end);
    hide Inv, Next, Enabled, Decides;
    TakenCompletesByPoll(states, steps, i + 1, k, w);
    EndStands(states, steps, i + 1, k, w);
  }

  lemma {:induction false} EndStands(states: seq<Context>, steps: seq<Step>, i: nat, k: nat, w: WaitId)
    requires IsRun(states, steps) && i <= k < |states| && Ending(states[i], w) && w in states[i].ends
    ensures Ending(states[k], w) && w in states[k].ends && states[k].ends[w] == states[i].ends[w]
    decreases k - i
  {
    hide Inv, Next, Enabled, Ending;
    if i < k {
      EndStands(states, steps, i, k - 1, w);
      RunKeeps(states, steps, k - 1);
      assert Enabled(states[k - 1], steps[k - 1]) && states[k - 1 + 1] == Next(states[k - 1], steps[k - 1]);
      EndingStays(states[k - 1], steps[k - 1], w);
    }
  }

  /** A wait that is ready and neither done nor failed stays listed with the poller, as one just added does. */
  lemma WatchStays(c: Context, step: Step, w: WaitId)
    requires Inv(c) && Enabled(c, step)
    requires (step == Handle(false, true) && c.place.ready[0] == w) || (step == Register(true) && c.place == Adding(w))
    ensures var d := Next(c, step); Listed(d, w) && w in d.polled && !Ending(d, w) && d.completed[w] == 0
  {
    assert WaitOk(c, w);
    hide Minus, OldestFirst;
  }

  // ---- Handles reported ------------------------------------------------------------------------

  /** What the poller reported of `w` is still to be handled. */
  predicate ToHandle(c: Context, w: WaitId) {
    match c.place
    case Handling(ready) => w in ready
    case Disarming(_, back) => back.ToHandling? && w in back.rest
    case Sweeping(_, back) => back.ToHandling? && w in back.rest
    case Completing(_, back) => back.ToHandling? && w in back.rest
    case _ => false
  }

  lemma StepHandles(c: Context, step: Step, w: WaitId)
    requires Enabled(c, step) && ToHandle(c, w)
    ensures ToHandle(Next(c, step), w) || (step.Handle? && c.place.Handling? && c.place.ready != [] && c.place.ready[0] == w)
  {
    hide Minus, OldestFirst, TakeCancels;
  }

  /** Each handle that the poller reports is handled before it is asked again. */
  lemma {:induction false} ReportedIsHandled(states: seq<Context>, steps: seq<Step>, i: nat, k: nat, w: WaitId) returns (m: nat)
    requires IsRun(states, steps) && i < k < |states| && states[k].place == Polling && ToHandle(states[i], w)
    ensures i <= m < k && steps[m].Handle? && states[m].place.Handling? && states[m].place.ready != [] && states[m].place.ready[0] == w
    decreases k - i
  {
    assert Enabled(states[i], steps[i]) && states[i + 1] == Next(states[i], steps[i]);
    hide Next, Enabled;
    StepHandles(states[i], steps[i], w);
    if ToHandle(states[i + 1], w) {
      m := ReportedIsHandled(states, steps, i + 1, k, w);
    } else {
      m := i;
    }
  }

  lemma PollReports(c: Context, ready: seq<WaitId>, wakes: bool, w: WaitId)
    requires Enabled(c, Poll(ready, wakes)) && w in ready
    ensures ToHandle(Next(c, Poll(ready, wakes)), w)
  {
  }
}
