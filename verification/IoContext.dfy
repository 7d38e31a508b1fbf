/** The thread that waits on handles, and the threads that hand it work, as a machine over every interleaving. */
module IoContext {
  import opened QueueLines
  import opened LinkedNode

  type WaitId = int

  /** Work to run on the thread, or the start of a wait. Each is queued once. */
  datatype TaskId = Work(id: int) | Begin(wait: WaitId)

  /** Where the thread goes once it has finished with a wait. */
  datatype Back = ToRunning | ToStopping | ToHandling(rest: seq<WaitId>)

  /** Where the thread is. */
  datatype Place =
    | Draining                           // about to take the tasks
    | Running                            // running those it took
    | Adding(wait: WaitId)               // a wait's stop is armed; its handle is to be registered
    | Taking                             // about to take the cancellations
    | Stopping                           // stopping those it took
    | Polling
    | Handling(ready: seq<WaitId>)       // what the poller reported
    | Disarming(wait: WaitId, back: Back)
    | Sweeping(wait: WaitId, back: Back)
    | Completing(wait: WaitId, back: Back)

  /** What a wait is told as it completes: that it was stopped, that its handle is ready, or that it could not be waited for. */
  datatype End = Stopped | Signalled | Failed

  /** `callbacks` are stop callbacks still running, and `wakers` those, and the pushers of tasks, that are to wake it. */
  datatype Context = Context(
    tasks: seq<TaskId>,
    drained: seq<TaskId>,
    executed: seq<TaskId>,
    pushed: seq<TaskId>,
    taskWakers: nat,
    cancels: seq<WaitId>,
    cancelWakers: set<WaitId>,
    callbacks: set<WaitId>,
    woken: bool,
    armed: set<WaitId>,
    started: set<WaitId>,
    registered: seq<WaitId>,
    cancelled: seq<WaitId>,
    polled: set<WaitId>,
    completed: multiset<WaitId>,
    ends: map<WaitId, End>,
    place: Place)

  datatype Step =
    | Submit(task: TaskId)          // by any thread
    | WakeForTask                   // by one that pushed onto an empty stack
    | Fire(wait: WaitId)            // a stop callback pushes its wait
    | EndCallback(wait: WaitId)     // and wakes the thread, if the stack was empty
    | Drain
    | RunTask(stopRequested: bool)
    | Register(ok: bool)
    | TasksDone
    | Take
    | StopOne
    | StopsDone
    | Poll(ready: seq<WaitId>, wakes: bool)
    | Handle(done: bool, rearmed: bool)
    | HandledAll
    | Disarm
    | Sweep
    | Finish

  const Initial := Context([], [], [], [], 0, [], {}, {}, false, {}, {}, [], [], {}, multiset{}, map[], Draining)

  /** `s` without anything in `gone`. */
  function Minus(s: seq<WaitId>, gone: seq<WaitId>): (r: seq<WaitId>)
    ensures forall w :: w in r <==> w in s && w !in gone
  {
    if s == [] then []
    else if s[|s| - 1] in gone then Minus(s[..|s| - 1], gone) else Minus(s[..|s| - 1], gone) + [s[|s| - 1]]
  }

  /** Moves every wait whose cancellation was pushed, from whichever list it is in, to those to be stopped. */
  function TakeCancels(c: Context): Context {
    c.(registered := Minus(c.registered, c.cancels), cancelled := Minus(c.cancelled, c.cancels) + c.cancels, cancels := [])
  }

  function PlaceOf(back: Back): Place {
    match back
    case ToRunning => Running
    case ToStopping => Stopping
    case ToHandling(rest) => Handling(rest)
  }

  ghost predicate Enabled(c: Context, step: Step) {
    match step
    case Submit(task) => task !in c.pushed
    case WakeForTask => c.taskWakers > 0
    case Fire(w) => w in c.armed
    case EndCallback(w) => w in c.callbacks
    case Drain => c.place == Draining
    case RunTask(_) => c.place == Running && c.drained != []
    case Register(_) => c.place.Adding?
    case TasksDone => c.place == Running && c.drained == []
    case Take => c.place == Taking
    case StopOne => c.place == Stopping && c.cancelled != []
    case StopsDone => c.place == Stopping && c.cancelled == []
    case Poll(ready, wakes) =>
      && c.place == Polling && (wakes ==> c.woken) && (wakes || ready != [])
      && (forall w :: w in ready ==> w in c.polled) && Distinct(ready)
    case Handle(_, _) => c.place.Handling? && c.place.ready != []
    case HandledAll => c.place == Handling([])
    case Disarm => c.place.Disarming? && c.place.wait !in c.callbacks
    case Sweep => c.place.Sweeping?
    case Finish => c.place.Completing?
  }

  ghost function Next(c: Context, step: Step): Context
    requires Enabled(c, step)
  {
    match step
    case Submit(task) =>
      c.(tasks := [task] + c.tasks, pushed := c.pushed + [task], taskWakers := c.taskWakers + if c.tasks == [] then 1 else 0)
    case WakeForTask => c.(taskWakers := c.taskWakers - 1, woken := true)
    case Fire(w) =>
      c.(armed := c.armed - {w}, cancels := [w] + c.cancels, callbacks := c.callbacks + {w},
         cancelWakers := if c.cancels == [] then c.cancelWakers + {w} else c.cancelWakers)
    case EndCallback(w) =>
      c.(callbacks := c.callbacks - {w}, cancelWakers := c.cancelWakers - {w}, woken := c.woken || w in c.cancelWakers)
    case Drain => c.(drained := OldestFirst(c.tasks), tasks := [], place := Running)
    case RunTask(stopRequested) => AfterTask(c, stopRequested)
    case Register(ok) =>
      if ok then c.(polled := c.polled + {c.place.wait}, registered := c.registered + [c.place.wait], place := Running)
      else c.(ends := c.ends[c.place.wait := Failed], place := Disarming(c.place.wait, ToRunning))
    case TasksDone => c.(place := Taking)
    case Take => TakeCancels(c).(place := Stopping)
    case StopOne =>
      c.(polled := c.polled - {c.cancelled[0]}, ends := c.ends[c.cancelled[0] := End.Stopped], place := Disarming(c.cancelled[0], ToStopping))
    case StopsDone => c.(place := Polling)
    case Poll(ready, wakes) => c.(woken := c.woken && !wakes, place := Handling(ready))
    case Handle(done, rearmed) =>
      var w, rest := c.place.ready[0], c.place.ready[1..];
      if done || !rearmed then
        c.(polled := c.polled - {w}, ends := c.ends[w := if done then Signalled else Failed], place := Disarming(w, ToHandling(rest)))
      else c.(place := Handling(rest))
    case HandledAll => c.(place := Draining)
    case Disarm => c.(armed := c.armed - {c.place.wait}, place := Sweeping(c.place.wait, c.place.back))
    case Sweep => TakeCancels(c).(place := Completing(c.place.wait, c.place.back))
    case Finish =>
      c.(registered := Minus(c.registered, [c.place.wait]), cancelled := Minus(c.cancelled, [c.place.wait]),
         completed := c.completed + multiset{c.place.wait}, place := PlaceOf(c.place.back))
  }

  /** Runs the oldest task taken; a wait already stopped completes there and then, and another is armed. */
  function AfterTask(c: Context, stopRequested: bool): Context
    requires c.drained != []
  {
    var task := c.drained[0];
    var ran := c.(drained := c.drained[1..], executed := c.executed + [task]);
    match task
    case Work(_) => ran
    case Begin(w) =>
      if stopRequested then ran.(completed := c.completed + multiset{w}, ends := c.ends[w := Stopped])
      else ran.(armed := c.armed + {w}, started := c.started + {w}, place := Adding(w))
  }

  // ---- What every run keeps --------------------------------------------------------------------

  /** Tasks run in the order they were pushed, each once. */
  predicate Ordered(c: Context) {
    && c.executed + c.drained + OldestFirst(c.tasks) == c.pushed
    && (c.drained != [] ==> c.place == Running || c.place.Adding? || ReturnsTo(c.place).ToRunning?)
  }

  ghost predicate PushedOnce(c: Context) {
    Distinct(c.pushed)
  }

  /** The wait the thread is in the midst of starting or finishing. */
  predicate InHand(c: Context, w: WaitId) {
    match c.place
    case Adding(v) => v == w
    case Disarming(v, _) => v == w
    case Sweeping(v, _) => v == w
    case Completing(v, _) => v == w
    case _ => false
  }

  /** The wait the thread is in the midst of finishing. */
  predicate BeingFinished(c: Context, w: WaitId) { InHand(c, w) && !c.place.Adding? }

  predicate Listed(c: Context, w: WaitId) { w in c.registered || w in c.cancelled }

  predicate WaitOk(c: Context, w: WaitId) {
    // It completes once, and by then is nowhere.
    && c.completed[w] <= 1
    && (c.completed[w] > 0 || w in c.started ==> Begin(w) in c.executed)
    && (c.completed[w] > 0 ==> w !in c.armed && w !in c.cancels && w !in c.callbacks && w !in c.polled && !Listed(c, w) && !InHand(c, w))
    // Until then it is in one list, or in hand.
    && (w in c.started && c.completed[w] == 0 ==> Listed(c, w) || InHand(c, w))
    // And its stop can come, or has: its cancellation is pushed, or taken, or the wait is being finished.
    && (w in c.started && c.completed[w] == 0 ==> w in c.armed || w in c.cancels || w in c.cancelled || BeingFinished(c, w))
    && (w in c.armed || w in c.cancels || w in c.callbacks || w in c.polled || Listed(c, w) || InHand(c, w) ==> w in c.started)
    && !(w in c.registered && w in c.cancelled)
    // Its cancellation is pushed once, and taken once.
    && (w in c.cancels ==> w !in c.armed && w !in c.cancelled)
    && (w in c.callbacks ==> w !in c.armed)
    && (w in c.cancelled ==> w !in c.armed)
    && (w in c.cancelWakers ==> w in c.callbacks)
    // It is with the poller while listed, unless it is being finished.
    && (w in c.polled ==> Listed(c, w) && !InHand(c, w))
    && (Listed(c, w) && !InHand(c, w) ==> w in c.polled)
    && (c.place == Adding(w) ==> !Listed(c, w))
    && (c.place.Sweeping? && c.place.wait == w ==> w !in c.armed && w !in c.callbacks)
    && (c.place.Completing? && c.place.wait == w ==> w !in c.armed && w !in c.callbacks && w !in c.cancels)
  }

  ghost predicate ListsOk(c: Context) {
    Distinct(c.registered) && Distinct(c.cancelled) && Distinct(c.cancels)
  }

  /** What the poller reported and is still to be handled is registered with it. */
  ghost predicate ReadyOk(c: Context) {
    match c.place
    case Handling(ready) => Distinct(ready) && forall w :: w in ready ==> w in c.polled
    case Disarming(w, back) => BackOk(c, w, back)
    case Sweeping(w, back) => BackOk(c, w, back)
    case Completing(w, back) => BackOk(c, w, back)
    case _ => true
  }

  ghost predicate BackOk(c: Context, w: WaitId, back: Back) {
    match back
    case ToHandling(rest) => Distinct(rest) && w !in rest && forall v :: v in rest ==> v in c.polled
    case _ => true
  }

  /** The tasks are taken, or the cancellations, before the thread next polls. */
  predicate DrainsFirst(c: Context) {
    c.place.Handling? || c.place == Draining || ReturnsTo(c.place).ToHandling?
  }

  predicate SweepsFirst(c: Context) {
    DrainsFirst(c) || c.place == Running || c.place.Adding? || c.place == Taking || ReturnsTo(c.place).ToRunning?
  }

  function ReturnsTo(place: Place): Back {
    match place
    case Disarming(_, back) => back
    case Sweeping(_, back) => back
    case Completing(_, back) => back
    case _ => ToStopping
  }

  /** A stack that is not empty has a wake on its way, or is emptied before the thread next polls. */
  predicate WakesOk(c: Context) {
    && (c.tasks != [] ==> c.woken || c.taskWakers > 0 || DrainsFirst(c))
    && (c.cancels != [] ==> c.woken || c.cancelWakers != {} || SweepsFirst(c))
  }

  /** What was to be stopped has been before the thread polls. */
  predicate StoppedFirst(c: Context) {
    c.place == Polling ==> c.cancelled == []
  }

  ghost predicate Inv(c: Context) {
    && Ordered(c) && PushedOnce(c) && ListsOk(c) && ReadyOk(c) && WakesOk(c) && StoppedFirst(c)
    && forall w :: WaitOk(c, w)
  }

  lemma InitInv()
    ensures Inv(Initial)
  {
    forall w ensures WaitOk(Initial, w) {
    }
  }

  lemma {:induction false} MinusDistinct(s: seq<WaitId>, gone: seq<WaitId>)
    requires Distinct(s)
    ensures Distinct(Minus(s, gone))
  {
    if s != [] {
      var rest, last := s[..|s| - 1], s[|s| - 1];
      assert s == rest + [last];
      DistinctParts(rest, [last]);
      MinusDistinct(rest, gone);
      if last !in gone {
        DistinctJoin(Minus(rest, gone), [last]);
      }
    }
  }

  lemma TakeKeepsLists(c: Context)
    requires ListsOk(c) && forall w :: WaitOk(c, w)
    ensures ListsOk(TakeCancels(c))
  {
    MinusDistinct(c.registered, c.cancels);
    MinusDistinct(c.cancelled, c.cancels);
    DistinctJoin(Minus(c.cancelled, c.cancels), c.cancels);
  }

  lemma StepKeepsLists(c: Context, step: Step)
    requires Inv(c) && Enabled(c, step)
    ensures ListsOk(Next(c, step))
  {
    match step
    case Fire(w) => assert WaitOk(c, w); DistinctJoin([w], c.cancels);
    case Register(ok) =>
      if ok {
        assert WaitOk(c, c.place.wait);
        DistinctJoin(c.registered, [c.place.wait]);
      }
    case Take => TakeKeepsLists(c);
    case Sweep => TakeKeepsLists(c);
    case Finish => MinusDistinct(c.registered, [c.place.wait]); MinusDistinct(c.cancelled, [c.place.wait]);
    case _ =>
  }

  /** A task waiting to run has not run before. */
  lemma NotRunYet(c: Context)
    requires Ordered(c) && PushedOnce(c) && c.drained != []
    ensures c.drained[0] !in c.executed
  {
    var later := c.drained + OldestFirst(c.tasks);
    assert c.pushed == c.executed + later;
    DistinctParts(c.executed, later);
    assert c.drained[0] == later[0];
  }

  lemma SubmitKeepsOrder(c: Context, task: TaskId)
    requires Ordered(c) && PushedOnce(c) && task !in c.pushed
    ensures var d := Next(c, Submit(task)); Ordered(d) && PushedOnce(d)
  {
    DistinctJoin(c.pushed, [task]);
    hide Distinct;
    assert OldestFirst([task] + c.tasks) == OldestFirst(c.tasks) + [task];
    assert c.executed + c.drained + (OldestFirst(c.tasks) + [task]) == (c.executed + c.drained + OldestFirst(c.tasks)) + [task];
  }

  lemma RunKeepsOrder(c: Context, stopRequested: bool)
    requires Ordered(c) && c.drained != [] && c.place == Running
    ensures Ordered(AfterTask(c, stopRequested))
  {
    assert c.executed + [c.drained[0]] + c.drained[1..] == c.executed + c.drained;
  }

  lemma DrainKeepsOrder(c: Context)
    requires Ordered(c) && c.place == Draining
    ensures Ordered(Next(c, Step.Drain))
  {
    assert OldestFirst<TaskId>([]) == [];
    assert c.executed + [] + OldestFirst(c.tasks) == c.executed + OldestFirst(c.tasks) + [];
  }

  lemma StepKeepsOrder(c: Context, step: Step)
    requires Ordered(c) && PushedOnce(c) && Enabled(c, step)
    ensures Ordered(Next(c, step)) && PushedOnce(Next(c, step))
  {
    match step
    case Submit(task) => hide Ordered, PushedOnce; SubmitKeepsOrder(c, task);
    case Drain => hide Ordered; DrainKeepsOrder(c);
    case RunTask(stopRequested) => hide Ordered, AfterTask; RunKeepsOrder(c, stopRequested); RunPushesNone(c, stopRequested);
    case _ => hide Distinct;
  }

  lemma RunPushesNone(c: Context, stopRequested: bool)
    requires c.drained != []
    ensures AfterTask(c, stopRequested).pushed == c.pushed
  {
  }

  // ---- Waits -----------------------------------------------------------------------------------

  lemma OutsideKeepsWait(c: Context, step: Step, w: WaitId)
    requires Enabled(c, step) && WaitOk(c, w) && (step.Submit? || step.WakeForTask? || step.Fire? || step.EndCallback?)
    requires step.Fire? ==> WaitOk(c, step.wait)
    ensures WaitOk(Next(c, step), w)
  {
  }

  lemma RunTaskKeepsWait(c: Context, stopRequested: bool, w: WaitId)
    requires Ordered(c) && PushedOnce(c) && c.place == Running && c.drained != [] && WaitOk(c, w)
    ensures WaitOk(AfterTask(c, stopRequested), w)
  {
    NotRunYet(c);
    hide Ordered, PushedOnce, WaitOk, AfterTask;
    if c.drained[0] == Begin(w) {
      BeginKeepsItsWait(c, stopRequested, w);
    } else {
      TaskKeepsOtherWait(c, stopRequested, w);
    }
  }

  lemma BeginKeepsItsWait(c: Context, stopRequested: bool, w: WaitId)
    requires c.place == Running && c.drained != [] && WaitOk(c, w) && c.drained[0] == Begin(w) && c.drained[0] !in c.executed
    ensures WaitOk(AfterTask(c, stopRequested), w)
  {
    assert c.drained[0] in c.executed + [c.drained[0]];
  }

  lemma TaskKeepsOtherWait(c: Context, stopRequested: bool, w: WaitId)
    requires c.place == Running && c.drained != [] && WaitOk(c, w) && c.drained[0] != Begin(w)
    ensures WaitOk(AfterTask(c, stopRequested), w)
  {
    assert Begin(w) in c.executed ==> Begin(w) in c.executed + [c.drained[0]];
  }

  lemma SweepKeepsWait(c: Context, step: Step, w: WaitId)
    requires Enabled(c, step) && WaitOk(c, w) && (step.Take? || step.Sweep?)
    ensures WaitOk(Next(c, step), w)
  {
  }

  lemma RegisterKeepsWait(c: Context, ok: bool, w: WaitId)
    requires Enabled(c, Register(ok)) && WaitOk(c, w)
    ensures WaitOk(Next(c, Register(ok)), w)
  {
  }

  lemma FinishingKeepsWait(c: Context, step: Step, w: WaitId)
    requires Enabled(c, step) && WaitOk(c, w) && ReadyOk(c) && (step.StopOne? || step.Handle?)
    requires step.StopOne? ==> WaitOk(c, c.cancelled[0])
    requires step.Handle? ==> WaitOk(c, c.place.ready[0])
    ensures WaitOk(Next(c, step), w)
  {
    hide Distinct;
  }

  lemma FinishedKeepsWait(c: Context, step: Step, w: WaitId)
    requires Enabled(c, step) && WaitOk(c, w) && (step.Disarm? || step.Finish?)
    ensures WaitOk(Next(c, step), w)
  {
  }

  lemma MoveKeepsWait(c: Context, step: Step, w: WaitId)
    requires Enabled(c, step) && WaitOk(c, w)
    requires step.Drain? || step.TasksDone? || step.StopsDone? || step.Poll? || step.HandledAll?
    ensures WaitOk(Next(c, step), w)
  {
  }

  lemma StepKeepsWait(c: Context, step: Step, w: WaitId)
    requires Inv(c) && Enabled(c, step)
    ensures WaitOk(Next(c, step), w)
  {
    assert WaitOk(c, w);
    match step
    case Submit(_) => OutsideKeepsWait(c, step, w);
    case WakeForTask => OutsideKeepsWait(c, step, w);
    case Fire(v) => assert WaitOk(c, v); OutsideKeepsWait(c, step, w);
    case EndCallback(_) => OutsideKeepsWait(c, step, w);
    case RunTask(stopRequested) => RunTaskKeepsWait(c, stopRequested, w);
    case Take => SweepKeepsWait(c, step, w);
    case Sweep => SweepKeepsWait(c, step, w);
    case Register(ok) => RegisterKeepsWait(c, ok, w);
    case StopOne => assert WaitOk(c, c.cancelled[0]); FinishingKeepsWait(c, step, w);
    case Handle(_, _) => assert WaitOk(c, c.place.ready[0]); FinishingKeepsWait(c, step, w);
    case Disarm => FinishedKeepsWait(c, step, w);
    case Finish => FinishedKeepsWait(c, step, w);
    case _ => MoveKeepsWait(c, step, w);
  }

  lemma StepKeepsReady(c: Context, step: Step)
    requires ReadyOk(c) && Enabled(c, step)
    ensures ReadyOk(Next(c, step))
  {
    hide Distinct, Minus, OldestFirst;
    if step.Handle? {
      assert c.place.ready == [c.place.ready[0]] + c.place.ready[1..];
      DistinctParts([c.place.ready[0]], c.place.ready[1..]);
    }
  }

  lemma StepKeepsWakes(c: Context, step: Step)
    requires WakesOk(c) && Enabled(c, step) && ListsOk(c)
    ensures WakesOk(Next(c, step))
  {
    hide Distinct;
  }

  lemma StepKeeps(c: Context, step: Step)
    requires Inv(c) && Enabled(c, step)
    ensures Inv(Next(c, step))
  {
    forall w ensures WaitOk(Next(c, step), w) {
      StepKeepsWait(c, step, w);
    }
    StepKeepsOrder(c, step);
    StepKeepsLists(c, step);
    StepKeepsReady(c, step);
    StepKeepsWakes(c, step);
    hide Next, Enabled, WaitOk, Ordered, PushedOnce, ListsOk, ReadyOk, WakesOk;
  }

  // ---- Runs ------------------------------------------------------------------------------------

  ghost predicate IsRun(states: seq<Context>, steps: seq<Step>) {
    && |states| == |steps| + 1 && states[0] == Initial
    && forall i :: 0 <= i < |steps| ==> Enabled(states[i], steps[i]) && states[i + 1] == Next(states[i], steps[i])
  }

  lemma {:induction false} RunKeeps(states: seq<Context>, steps: seq<Step>, i: nat)
    requires IsRun(states, steps) && i < |states|
    ensures Inv(states[i])
  {
    hide Inv, Next, Enabled;
    if i == 0 {
      InitInv();
    } else {
      RunKeeps(states, steps, i - 1);
      StepKeeps(states[i - 1], steps[i - 1]);
      assert states[i - 1 + 1] == Next(states[i - 1], steps[i - 1]);
    }
  }

  /** Each task runs once, and in the order they were pushed. */
  lemma TasksRunInOrder(states: seq<Context>, steps: seq<Step>, i: nat)
    requires IsRun(states, steps) && i < |states|
    ensures states[i].executed <= states[i].pushed && Distinct(states[i].executed)
    ensures states[i].place == Polling && states[i].tasks == [] ==> states[i].executed == states[i].pushed
  {
    RunKeeps(states, steps, i);
    var c := states[i];
    var later := c.drained + OldestFirst(c.tasks);
    assert c.pushed == c.executed + later;
    DistinctParts(c.executed, later);
  }

  /** A wait started has completed, once, and is nowhere, or it is in a list or in hand, and its stop can come or is seen to. */
  lemma WaitsCompleteOnce(states: seq<Context>, steps: seq<Step>, i: nat, w: WaitId)
    requires IsRun(states, steps) && i < |states|
    ensures var c := states[i];
      && c.completed[w] <= 1
      && (c.completed[w] == 1 ==> !Listed(c, w) && w !in c.cancels && w !in c.polled && w !in c.callbacks && w !in c.armed)
      && (w in c.started && c.completed[w] == 0 ==>
            && (Listed(c, w) || InHand(c, w))
            && (w in c.armed || w in c.cancels || w in c.cancelled || BeingFinished(c, w)))
  {
    RunKeeps(states, steps, i);
    assert WaitOk(states[i], w);
  }

  /** A thread that polls with no cancellation pushed has every wait not completed where it can be reported, and stopped. */
  lemma PollsForEveryWait(states: seq<Context>, steps: seq<Step>, i: nat, w: WaitId)
    requires IsRun(states, steps) && i < |states| && states[i].place == Polling
    requires w in states[i].started && states[i].completed[w] == 0
    ensures w in states[i].registered && w in states[i].polled
    ensures w in states[i].armed || w in states[i].cancels
  {
    RunKeeps(states, steps, i);
    assert WaitOk(states[i], w);
  }

  /** The cancellation of `w` has been taken, and the wait is to be stopped, is being finished, or has completed. */
  predicate Taken(c: Context, w: WaitId) {
    w in c.cancelled || BeingFinished(c, w) || c.completed[w] > 0
  }

  lemma StepKeepsTaken(c: Context, step: Step, w: WaitId)
    requires Enabled(c, step) && Taken(c, w)
    ensures Taken(Next(c, step), w)
  {
    hide Distinct;
  }

  lemma TakeTakes(c: Context, w: WaitId)
    requires w in c.cancels && (c.place == Taking || c.place.Sweeping?)
    ensures Taken(TakeCancels(c), w)
  {
  }

  lemma {:induction false} TakenStays(states: seq<Context>, steps: seq<Step>, i: nat, k: nat, w: WaitId)
    requires IsRun(states, steps) && i <= k < |states| && Taken(states[i], w)
    ensures Taken(states[k], w)
    decreases k - i
  {
    hide Next, Enabled, Taken;
    if i < k {
      TakenStays(states, steps, i, k - 1, w);
      StepKeepsTaken(states[k - 1], steps[k - 1], w);
      assert states[k - 1 + 1] == Next(states[k - 1], steps[k - 1]);
    }
  }

  /** A cancellation that has been taken is completed before the thread next polls. */
  lemma TakenCompletesByPoll(states: seq<Context>, steps: seq<Step>, i: nat, k: nat, w: WaitId)
    requires IsRun(states, steps) && i <= k < |states| && states[k].place == Polling
    requires Taken(states[i], w) || (w in states[i].cancels && i < k && steps[i] in [Take, Sweep])
    ensures states[k].completed[w] == 1
  {
    RunKeeps(states, steps, i);
    RunKeeps(states, steps, k);
    assert WaitOk(states[k], w);
    if Taken(states[i], w) {
      TakenStays(states, steps, i, k, w);
    } else {
      TakeTakes(states[i], w);
      assert states[i + 1] == Next(states[i], steps[i]) && Taken(states[i + 1], w);
      TakenStays(states, steps, i + 1, k, w);
    }
  }

  /** The thread never sleeps on work: with a task or a cancellation pushed, a wake has come or is coming. */
  lemma NeverSleepsOnWork(states: seq<Context>, steps: seq<Step>, i: nat)
    requires IsRun(states, steps) && i < |states| && states[i].place == Polling
    requires states[i].tasks != [] || states[i].cancels != []
    ensures Enabled(states[i], Poll([], true)) || Enabled(states[i], WakeForTask)
      || exists w :: w in states[i].cancelWakers && Enabled(states[i], EndCallback(w))
  {
    RunKeeps(states, steps, i);
    var c := states[i];
    if !c.woken && c.taskWakers == 0 {
      assert (forall w :: w !in c.cancelWakers) ==> c.cancelWakers == {};
      var w :| w in c.cancelWakers;
      assert WaitOk(c, w);
    }
  }

  // ---- The way to the next poll ----------------------------------------------------------------

  /** The thread's own steps; the others are those of whoever hands it work. */
  predicate IsThreads(step: Step) {
    !step.Submit? && !step.WakeForTask? && !step.Fire? && !step.EndCallback?
  }

  /** Which part of the way is left: what was reported, the tasks pushed, those taken, the cancellations, what they stop. */
  function Part(c: Context): nat {
    match c.place
    case Handling(_) => 5
    case Draining => 4
    case Running => 3
    case Adding(_) => 3
    case Taking => 2
    case Stopping => 1
    case Polling => 0
    case Disarming(_, back) => PartOf(back)
    case Sweeping(_, back) => PartOf(back)
    case Completing(_, back) => PartOf(back)
  }

  function PartOf(back: Back): nat {
    match back
    case ToHandling(_) => 5
    case ToRunning => 3
    case ToStopping => 1
  }

  function Unfinished(c: Context): set<WaitId> {
    set w | w in c.started && c.completed[w] == 0
  }

  /** How far along that part it is: how many are still to be gone through, and where with the one in hand. */
  function Amount(c: Context): nat {
    match c.place
    case Handling(ready) => 5 * |ready|
    case Draining => 0
    case Running => 5 * |c.drained|
    case Adding(_) => 5 * |c.drained| + 4
    case Taking => 0
    case Stopping => 5 * |Unfinished(c)| + 4
    case Polling => 0
    case Disarming(_, back) => AmountOf(c, back) + 3
    case Sweeping(_, back) => AmountOf(c, back) + 2
    case Completing(_, back) => AmountOf(c, back) + 1
  }

  function AmountOf(c: Context, back: Back): nat {
    match back
    case ToHandling(rest) => 5 * |rest|
    case ToRunning => 5 * |c.drained|
    case ToStopping => 5 * |Unfinished(c)|
  }

  predicate Nearer(d: Context, c: Context) {
    Part(d) < Part(c) || (Part(d) == Part(c) && Amount(d) < Amount(c))
  }

  /** Whatever the thread does but poll brings its next poll nearer, and nothing others do puts it off. */
  lemma ThreadNearsPoll(c: Context, step: Step)
    requires Inv(c) && Enabled(c, step) && c.place != Polling
    ensures IsThreads(step) ==> Nearer(Next(c, step), c)
    ensures !IsThreads(step) ==> Next(c, step).place == c.place && Amount(Next(c, step)) == Amount(c)
  {
    hide Inv, Nearer, Part, Amount, Next, Enabled;
    if step.Finish? {
      FinishNearsPoll(c);
    } else if step.RunTask? {
      RunNearsPoll(c, step.stopRequested);
    } else {
      OthersNearPoll(c, step);
    }
  }

  lemma FinishNearsPoll(c: Context)
    requires Inv(c) && Enabled(c, Step.Finish)
    ensures Nearer(Next(c, Step.Finish), c)
  {
    FinishesOne(c);
    hide Unfinished, Minus, Inv;
  }

  lemma RunNearsPoll(c: Context, stopRequested: bool)
    requires Enabled(c, RunTask(stopRequested))
    ensures Nearer(Next(c, RunTask(stopRequested)), c)
  {
    hide Unfinished;
  }

  lemma OthersNearPoll(c: Context, step: Step)
    requires Enabled(c, step) && !step.Finish? && !step.RunTask? && c.place != Polling
    ensures IsThreads(step) ==> Nearer(Next(c, step), c)
    ensures !IsThreads(step) ==> Next(c, step).place == c.place && Amount(Next(c, step)) == Amount(c)
  {
    OthersFinishNone(c, step);
    hide Unfinished, Minus;
  }

  lemma OthersFinishNone(c: Context, step: Step)
    requires Enabled(c, step) && !step.Finish? && !step.RunTask?
    ensures Unfinished(Next(c, step)) == Unfinished(c)
  {
  }

  lemma FinishesOne(c: Context)
    requires Inv(c) && c.place.Completing?
    ensures |Unfinished(Next(c, Step.Finish))| < |Unfinished(c)|
  {
    var w := c.place.wait;
    assert WaitOk(c, w);
    assert Unfinished(c) == Unfinished(Next(c, Step.Finish)) + {w} && w !in Unfinished(Next(c, Step.Finish));
  }

  lemma SomeWait(waits: set<WaitId>) returns (w: WaitId)
    requires waits != {}
    ensures w in waits
  {
    assert (forall v :: v !in waits) ==> waits == {};
    w :| w in waits;
  }

  /** It has a step to take just if, polling, it is woken or may be told of something, and elsewhere if it waits out no callback. */
  lemma ThreadGoesOn(c: Context)
    ensures (exists step :: IsThreads(step) && Enabled(c, step))
      <==> if c.place == Polling then c.woken || c.polled != {} else !(c.place.Disarming? && c.place.wait in c.callbacks)
  {
    if c.place == Polling {
      PollGoesOn(c);
    } else {
      var step := match c.place
        case Draining => Step.Drain
        case Running => if c.drained == [] then TasksDone else RunTask(false)
        case Adding(_) => Register(true)
        case Taking => Take
        case Stopping => if c.cancelled == [] then StopsDone else StopOne
        case Handling(ready) => if ready == [] then HandledAll else Handle(true, true)
        case Disarming(_, _) => Disarm
        case Sweeping(_, _) => Sweep
        case _ => Step.Finish;
      assert Enabled(c, step) || (c.place.Disarming? && c.place.wait in c.callbacks);
    }
  }

  lemma PollGoesOn(c: Context)
    requires c.place == Polling
    ensures (exists step :: IsThreads(step) && Enabled(c, step)) <==> c.woken || c.polled != {}
  {
    if step :| IsThreads(step) && Enabled(c, step) {
      assert step.Poll?;
      if step.ready != [] {
        var w: WaitId := step.ready[0];
        assert w in step.ready;
      }
    }
    if c.woken {
      assert Enabled(c, Poll([], true));
    } else if c.polled != {} {
      var w := SomeWait(c.polled);
      assert Enabled(c, Poll([w], false));
    }
  }

  // ---- Coming to rest --------------------------------------------------------------------------

  /** The steps that nobody has to decide on: all but handing over work, asking for a stop, and a handle getting ready. */
  predicate ComesByItself(step: Step) {
    !step.Submit? && !step.Fire? && (step.Poll? ==> step.ready == [])
  }

  /** The thread polls, and there is nothing it was to have done, or is to be woken for. */
  predicate AtRest(c: Context) {
    && c.place == Polling && !c.woken
    && c.tasks == [] && c.cancels == [] && c.taskWakers == 0 && c.callbacks == {}
  }

  /** It comes to rest only when there is nothing left of any step that comes by itself. */
  lemma RestsIffNothingComes(c: Context)
    requires Inv(c)
    ensures AtRest(c) <==> !exists step :: ComesByItself(step) && Enabled(c, step)
  {
    if c.callbacks != {} {
      var w := SomeWait(c.callbacks);
      assert Enabled(c, EndCallback(w));
    } else if c.place != Polling {
      ThreadGoesOn(c);
      var step :| IsThreads(step) && Enabled(c, step);
      assert ComesByItself(step);
    } else {
      assert c.woken ==> Enabled(c, Poll([], true));
      assert c.taskWakers > 0 ==> Enabled(c, WakeForTask);
      forall w ensures w !in c.cancelWakers {
        assert WaitOk(c, w);
      }
    }
  }

  /** How many are to wake the thread; whether one has; and how far it is from polling. */
  predicate NearerRest(d: Context, c: Context) {
    var m, n := d.taskWakers + |d.callbacks|, c.taskWakers + |c.callbacks|;
    var v, w := if d.woken then 1 else 0, if c.woken then 1 else 0;
    m < n || (m == n && v < w) || (m == n && v == w && Nearer(d, c))
  }

  /** Each step that comes by itself brings that nearer, so left alone it does come. */
  lemma ComesToRest(c: Context, step: Step)
    requires Inv(c) && Enabled(c, step) && ComesByItself(step)
    ensures NearerRest(Next(c, step), c)
  {
    if step.Poll? {
      assert NearerRest(Next(c, step), c);
    } else if step.EndCallback? {
      assert c.callbacks == Next(c, step).callbacks + {step.wait};
    } else if !step.WakeForTask? {
      SameWakers(c, step);
      ThreadNearsPoll(c, step);
    }
  }

  lemma SameWakers(c: Context, step: Step)
    requires Enabled(c, step) && IsThreads(step) && !step.Poll?
    ensures var d := Next(c, step);
      d.taskWakers == c.taskWakers && d.callbacks == c.callbacks && d.woken == c.woken
  {
  }

  /** And by then every task pushed has run, and every wait not completed can still be reported, and stopped. */
  lemma AtRestAllIsDone(states: seq<Context>, steps: seq<Step>, i: nat, w: WaitId)
    requires IsRun(states, steps) && i < |states| && !exists step :: ComesByItself(step) && Enabled(states[i], step)
    ensures var c := states[i];
      && c.executed == c.pushed
      && (w in c.started ==> c.completed[w] == 1 || (c.completed[w] == 0 && w in c.registered && w in c.polled && w in c.armed))
  {
    RunKeeps(states, steps, i);
    RestsIffNothingComes(states[i]);
    TasksRunInOrder(states, steps, i);
    WaitsCompleteOnce(states, steps, i, w);
    if w in states[i].started && states[i].completed[w] == 0 {
      PollsForEveryWait(states, steps, i, w);
    }
  }
}
