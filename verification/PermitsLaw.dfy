/** What each step comes to for one wait, and for one attempt, said without the coordinator's own functions. */
module PermitsLaw {
  import opened Wrappers
  import opened Graphs
  import opened CoordinatorModel
  import opened CoordinatorInvariants
  import opened Permits
  import opened PermitsInvariant
  import opened PermitsRuns
  import D = PermitsDoom
  import O = PermitsOpen
  import S = PermitsSteps

  // ---- Waits -----------------------------------------------------------------------------------

  /** The step ends whatever `r` has asked for: its command is over, or it is to stop. */
  predicate EndsRequests(step: Step, r: AttemptId) {
    step == Work(r) || step == OuterStop(r) || (step.OpenClosesCycle? && r in step.cycle)
  }

  /** A wait is answered once, with the result of its target, or, for one of these reasons, as canceled. */
  predicate WaitGoes(s: System, step: Step, d: State, w: WaitId)
    requires w in s.c.waits
  {
    && w in d.waits
    && var x, y := s.c.waits[w], d.waits[w];
       && y.target == x.target && y.requester == x.requester
       && if x.state == Done then y == x
          else if step == Cancel(w) || (x.requester.Some? && EndsRequests(step, x.requester.value)) then
            y.state == Done && y.result == Canceled
          else if x.state == Blocked && step.Finished? && step.a == x.target then
            && x.target in d.attempts && d.attempts[x.target].result == Some(y.result)
            && y.state == if x.requester.Some? then Ready else Done
          else if x.state == Ready && x.requester.Some? && step == Deliver(x.requester.value) then
            y.state == Done && y.result == x.result
          else y == x
  }

  lemma LiveWait(s: System, n: nat, w: WaitId)
    requires SystemInv(s, n) && w in s.c.waits && Live(s.c.waits[w])
    ensures s.c.waits[w].state == Ready ==> s.c.waits[w].requester.Some?
    ensures s.c.waits[w].requester.Some? ==>
      var r := s.c.waits[w].requester.value;
      && r in s.c.attempts && r in s.requests && Stoppable(s.c.attempts[r]) && s.requests[r] != Refused
      && (s.c.waits[w].state == Ready ==> IsTakeBack(s, r))
  {
    var x := s.c.waits[w];
    assert WaitOk(s.c, x);
    if x.requester.Some? {
      assert SlotOk(s, x.requester.value) && RequesterOk(x, s.c.attempts[x.requester.value]);
    }
  }

  lemma StepsWait(s: System, n: nat, step: Step, w: WaitId)
    requires SystemInv(s, n) && Enabled(s, step) && w in s.c.waits
    ensures WaitGoes(s, step, Next(s, step).c, w)
  {
    if Live(s.c.waits[w]) {
      LiveWait(s, n, w);
    }
    D.StateAfterIs(s, step);
    hide SystemInv, Next;
    StateWait(s, step, w);
  }

  lemma StateWait(s: System, step: Step, w: WaitId)
    requires Enabled(s, step) && w in s.c.waits && (s.c.waits[w].state == Ready ==> s.c.waits[w].requester.Some?)
    requires Live(s.c.waits[w]) && s.c.waits[w].requester.Some? ==>
      var r := s.c.waits[w].requester.value;
      r in s.c.attempts && Stoppable(s.c.attempts[r]) && s.requests[r] != Refused && (s.c.waits[w].state == Ready ==> IsTakeBack(s, r))
    ensures WaitGoes(s, step, D.StateAfter(s, step), w)
  {
    hide Complete, Finish, OnReacquired, CancelWait, Stop, Block, Doom, NewlyHurried, WaitGoes;
    if step.Open? || step.OpenClosesCycle? || step.Cancel? || step.OuterStop? {
      AskedWait(s, step, w);
    } else {
      MovedWait(s, step, w);
    }
  }

  lemma MovedWait(s: System, step: Step, w: WaitId)
    requires Enabled(s, step) && w in s.c.waits && (s.c.waits[w].state == Ready ==> s.c.waits[w].requester.Some?)
    requires !step.Open? && !step.OpenClosesCycle? && !step.Cancel? && !step.OuterStop?
    requires Live(s.c.waits[w]) && s.c.waits[w].requester.Some? ==>
      var r := s.c.waits[w].requester.value;
      r in s.c.attempts && Stoppable(s.c.attempts[r]) && s.requests[r] != Refused && (s.c.waits[w].state == Ready ==> IsTakeBack(s, r))
    ensures WaitGoes(s, step, D.StateAfter(s, step), w)
  {
    hide Complete, Finish, OnReacquired;
    match step
    case Deliver(a) => ReacquiredWait(s.c, a, true, w);
    case DeliverRefusal(a) => ReacquiredWait(s.c, a, false, w);
    case Work(a) => FinishWait(s.c, a, w);
    case Finished(a, work) => CompleteWait(s.c, a, ResultOf(s.c.attempts[a], work), w);
    case _ =>
  }

  lemma AskedWait(s: System, step: Step, w: WaitId)
    requires Enabled(s, step) && w in s.c.waits && (s.c.waits[w].state == Ready ==> s.c.waits[w].requester.Some?)
    requires step.Open? || step.OpenClosesCycle? || step.Cancel? || step.OuterStop?
    requires Live(s.c.waits[w]) && s.c.waits[w].requester.Some? ==>
      s.c.waits[w].requester.value in s.c.attempts && Stoppable(s.c.attempts[s.c.waits[w].requester.value])
    ensures WaitGoes(s, step, D.StateAfter(s, step), w)
  {
    hide CancelWait, Block, Doom, NewlyHurried, CoordinatorModel.OnOuterStop;
    match step
    case Open(v, target, requester, _) => BlockWait(s.c, v, target, requester, w);
    case OpenClosesCycle(_, _, cycle) => DoomWait(s.c, cycle, w);
    case Cancel(v) => CancelsWait(s.c, v, w);
    case OuterStop(a) => OuterStopWait(s.c, a, w);
  }

  lemma ReacquiredWait(c: State, a: AttemptId, granted: bool, w: WaitId)
    requires a in c.attempts && w in c.waits
    ensures var d := OnReacquired(c, a, granted).state;
      w in d.waits && d.waits[w] ==
        if c.waits[w].state == Ready && c.waits[w].requester == Some(a) then
          c.waits[w].(state := Done, result := if granted && !c.attempts[a].stopping then c.waits[w].result else Canceled)
        else c.waits[w]
  {
  }

  lemma FinishWait(c: State, a: AttemptId, w: WaitId)
    requires a in c.attempts && w in c.waits
    ensures var d := Finish(c, a).state;
      w in d.waits && d.waits[w] == if MadeBy(c.waits[w], a) then c.waits[w].(state := Done, result := Canceled) else c.waits[w]
  {
  }

  lemma CompleteWait(c: State, a: AttemptId, result: Code, w: WaitId)
    requires a in c.attempts && w in c.waits
    ensures var d := Complete(c, a, result).state;
      && a in d.attempts && d.attempts[a].result == Some(result)
      && w in d.waits && d.waits[w] ==
        if c.waits[w].state == Blocked && c.waits[w].target == a then
          c.waits[w].(state := if c.waits[w].requester.None? then Done else Ready, result := result)
        else c.waits[w]
  {
  }

  lemma BlockWait(c: State, v: WaitId, target: AttemptId, requester: Option<AttemptId>, w: WaitId)
    requires Blockable(c, v, target, requester) && w in c.waits
    ensures var d := Block(c, v, target, requester).state;
      w in d.waits && d.waits[w] == c.waits[w]
  {
  }

  lemma StopWait(c: State, stopped: set<AttemptId>, doom: bool, w: WaitId)
    requires stopped <= c.attempts.Keys && w in c.waits
    ensures var d := Stop(c, stopped, doom).state;
      && w in d.waits && d.waits[w] ==
        if Live(c.waits[w]) && c.waits[w].requester.Some? && c.waits[w].requester.value in stopped then
          c.waits[w].(state := Done, result := Canceled)
        else c.waits[w]
  {
  }

  lemma DoomWait(c: State, cycle: seq<AttemptId>, w: WaitId)
    requires w in c.waits
    ensures var d := Doom(c, Nodes(cycle)).state;
      && w in d.waits && d.waits[w] ==
        if Live(c.waits[w]) && c.waits[w].requester.Some? && c.waits[w].requester.value in cycle
           && c.waits[w].requester.value in c.attempts && Stoppable(c.attempts[c.waits[w].requester.value]) then
          c.waits[w].(state := Done, result := Canceled)
        else c.waits[w]
  {
    StopWait(c, set a | a in Nodes(cycle) && a in c.attempts && Stoppable(c.attempts[a]), true, w);
    hide Stop;
  }

  lemma OuterStopWait(c: State, a: AttemptId, w: WaitId)
    requires a in c.attempts && w in c.waits
    ensures var d := CoordinatorModel.OnOuterStop(c, a).state;
      && w in d.waits && d.waits[w] ==
        if MadeBy(c.waits[w], a) && Stoppable(c.attempts[a]) then c.waits[w].(state := Done, result := Canceled) else c.waits[w]
  {
    StopWait(c, {a}, false, w);
    hide Stop;
  }

  lemma CancelsWait(c: State, v: WaitId, w: WaitId)
    requires v in c.waits && w in c.waits && (c.waits[v].requester.Some? ==> c.waits[v].requester.value in c.attempts)
    ensures var d := CancelWait(c, v).state;
      w in d.waits && d.waits[w] == if w == v && Live(c.waits[w]) then c.waits[w].(state := Done, result := Canceled) else c.waits[w]
  {
  }

  /** What becomes of one wait whose target's result is known, by the state of its attempt's permit, whichever that is. */
  lemma ReadyIs(c: State, w: WaitId, result: Code)
    requires w in c.waits && c.waits[w].state == Blocked && (c.waits[w].requester.Some? ==> c.waits[w].requester.value in c.attempts)
    ensures var x, o := c.waits[w], ReadyOne(c, w, result);
      && w in o.state.waits && (forall v :: v in c.waits && v != w ==> v in o.state.waits && o.state.waits[v] == c.waits[v])
      && o.state.waits[w].target == x.target && o.state.waits[w].requester == x.requester
      && (w in o.effects.answered <==> o.state.waits[w].state == Done)
      && match x.requester
         case None => o.state.waits[w] == x.(state := Done, result := result) && o.state.attempts == c.attempts
         case Some(r) =>
           var a := c.attempts[r];
           && (a.stopping || a.permit == NoPermit ==> o.state.waits[w] == x.(state := Done, result := Canceled) && o.state.attempts == c.attempts)
           && (!a.stopping && a.permit == Held ==> o.state.waits[w] == x.(state := Done, result := result))
           && (!a.stopping && a.permit in {Released, Reacquiring} ==>
                 && o.state.waits[w] == x.(state := Ready, result := result) && r in o.state.attempts
                 && o.state.attempts[r].permit == Reacquiring && (r in o.effects.reacquires <==> a.permit == Released))
  {
    hide HasBlocked;
  }

  // ---- Attempts --------------------------------------------------------------------------------

  predicate OnCycle(step: Step, a: AttemptId) {
    step.OpenClosesCycle? && a in step.cycle
  }

  /** A wait's opener, or the attempt it asks for, is in a hurry, and `a` is what that waits on or behind. */
  ghost predicate HurriedBy(s: System, step: Step, d: State, a: AttemptId) {
    && step.Open? && Connected(WaitGraph(d), step.target, a)
    && (step.requester.Some? ==> step.requester.value in s.c.attempts && s.c.attempts[step.requester.value].hurried)
  }

  /** How an attempt's marks change: by whom it is stopped, doomed, hurried and completed, and when it starts and ends. */
  ghost predicate AttemptGoes(s: System, step: Step, d: State, a: AttemptId)
    requires a in s.c.attempts
  {
    && a in d.attempts
    && var x, y := s.c.attempts[a], d.attempts[a];
       && y.output == x.output
       && y.phase == (if step == Start(a) then Queued else if step == Deliver(a) && !IsTakeBack(s, a) then Running
                      else if step == Work(a) then Ended else x.phase)
       && (y.stopping <==> x.stopping || step == Work(a) || (x.phase == Running && (step == OuterStop(a) || OnCycle(step, a))))
       && (y.doomed <==> x.doomed || (Stoppable(x) && OnCycle(step, a)))
       && (y.hurried <==> x.hurried || HurriedBy(s, step, d, a))
       && y.result == (if step.Finished? && step.a == a then Some(if x.doomed then WouldDeadlock else step.work) else x.result)
  }

  lemma StepsAttempt(s: System, n: nat, step: Step, a: AttemptId)
    requires SystemInv(s, n) && Enabled(s, step) && a in s.c.attempts
    ensures AttemptGoes(s, step, Next(s, step).c, a)
  {
    D.StateAfterIs(s, step);
    if step == Deliver(a) && !IsTakeBack(s, a) {
      FirstIsQueued(s, n, a);
    }
    hide SystemInv, Next, Enabled, D.StateAfter, AttemptGoes, WaitGraph, Connected;
    if step.Open? || step.OpenClosesCycle? || step.Cancel? || step.OuterStop? {
      AskedAttempt(s, step, a);
    } else {
      MovedAttempt(s, step, a);
    }
  }

  lemma FirstIsQueued(s: System, n: nat, a: AttemptId)
    requires SystemInv(s, n) && Enabled(s, Deliver(a)) && !IsTakeBack(s, a)
    ensures s.c.attempts[a].phase == Queued
  {
    assert SlotOk(s, a);
  }

  lemma MovedAttempt(s: System, step: Step, a: AttemptId)
    requires Enabled(s, step) && a in s.c.attempts
    requires !step.Open? && !step.OpenClosesCycle? && !step.Cancel? && !step.OuterStop?
    ensures AttemptGoes(s, step, D.StateAfter(s, step), a)
  {
    hide Complete, Finish, OnReacquired, WaitGraph, Connected;
    match step
    case Deliver(b) => ReacquiredAttempt(s.c, b, true, a);
    case DeliverRefusal(b) => ReacquiredAttempt(s.c, b, false, a);
    case Work(b) => FinishAttempt(s.c, b, a);
    case Finished(b, work) => CompleteAttempt(s.c, b, ResultOf(s.c.attempts[b], work), a);
    case _ =>
  }

  lemma AskedAttempt(s: System, step: Step, a: AttemptId)
    requires Enabled(s, step) && a in s.c.attempts
    requires step.Open? || step.OpenClosesCycle? || step.Cancel? || step.OuterStop?
    ensures AttemptGoes(s, step, D.StateAfter(s, step), a)
  {
    hide CancelWait, Block, Doom, NewlyHurried, CoordinatorModel.OnOuterStop, WaitGraph, Connected;
    match step
    case Open(v, target, requester, _) => BlockAttempt(s.c, v, target, requester, a);
    case OpenClosesCycle(_, _, cycle) => DoomAttempt(s.c, cycle, a);
    case Cancel(v) => CancelsAttempt(s.c, v, a);
    case OuterStop(b) => OuterStopAttempt(s.c, b, a);
  }

  /** All of an attempt but its permit, and what is to drain it. */
  predicate SameMarks(x: Attempt, y: Attempt) {
    && y.output == x.output && y.phase == x.phase && y.stopping == x.stopping && y.doomed == x.doomed
    && y.hurried == x.hurried && y.result == x.result
  }

  lemma ReacquiredAttempt(c: State, b: AttemptId, granted: bool, a: AttemptId)
    requires a in c.attempts && b in c.attempts
    ensures var d := OnReacquired(c, b, granted).state;
      a in d.attempts && SameMarks(c.attempts[a], d.attempts[a])
  {
  }

  lemma FinishAttempt(c: State, b: AttemptId, a: AttemptId)
    requires a in c.attempts && b in c.attempts
    ensures var d := Finish(c, b).state;
      a in d.attempts && SameMarks(if a == b then c.attempts[a].(phase := Ended, stopping := true) else c.attempts[a], d.attempts[a])
  {
  }

  lemma CompleteAttempt(c: State, b: AttemptId, result: Code, a: AttemptId)
    requires a in c.attempts && b in c.attempts
    ensures var d := Complete(c, b, result).state;
      a in d.attempts && SameMarks(if a == b then c.attempts[a].(result := Some(result)) else c.attempts[a], d.attempts[a])
  {
  }

  lemma BlockAttempt(c: State, v: WaitId, target: AttemptId, requester: Option<AttemptId>, a: AttemptId)
    requires Blockable(c, v, target, requester) && a in c.attempts
    ensures var d := Block(c, v, target, requester).state;
      && a in d.attempts
      && SameMarks(c.attempts[a].(hurried := d.attempts[a].hurried), d.attempts[a])
      && (d.attempts[a].hurried
          <==> c.attempts[a].hurried || (Connected(WaitGraph(d), target, a) && (requester.Some? ==> c.attempts[requester.value].hurried)))
  {
    BlockAttempts(c, v, target, requester);
    BlockHurriesUpstream(c, v, target, requester, a);
    hide Block, WaitGraph, Connected, Upstream;
    SameGraph(WithWait(c, v, target, requester), Block(c, v, target, requester).state);
  }

  lemma BlockHurriesUpstream(c: State, v: WaitId, target: AttemptId, requester: Option<AttemptId>, a: AttemptId)
    requires Blockable(c, v, target, requester) && a in c.attempts
    ensures a in Block(c, v, target, requester).state.attempts
    ensures Block(c, v, target, requester).state.attempts[a].hurried
      <==> c.attempts[a].hurried
           || (Connected(WaitGraph(WithWait(c, v, target, requester)), target, a) && (requester.Some? ==> c.attempts[requester.value].hurried))
  {
    hide WaitGraph, Connected;
  }

  lemma StopAttempt(c: State, stopped: set<AttemptId>, doom: bool, a: AttemptId)
    requires stopped <= c.attempts.Keys && a in c.attempts
    ensures var d := Stop(c, stopped, doom).state;
      && a in d.attempts
      && SameMarks(if a in stopped then c.attempts[a].(stopping := true, doomed := c.attempts[a].doomed || doom) else c.attempts[a], d.attempts[a])
  {
  }

  lemma DoomAttempt(c: State, cycle: seq<AttemptId>, a: AttemptId)
    requires a in c.attempts
    ensures var d := Doom(c, Nodes(cycle)).state;
      && a in d.attempts
      && SameMarks(if a in cycle && Stoppable(c.attempts[a]) then c.attempts[a].(stopping := true, doomed := true) else c.attempts[a], d.attempts[a])
  {
    StopAttempt(c, set b | b in Nodes(cycle) && b in c.attempts && Stoppable(c.attempts[b]), true, a);
    hide Stop;
  }

  lemma OuterStopAttempt(c: State, b: AttemptId, a: AttemptId)
    requires a in c.attempts && b in c.attempts
    ensures var d := CoordinatorModel.OnOuterStop(c, b).state;
      && a in d.attempts
      && SameMarks(if a == b && Stoppable(c.attempts[a]) then c.attempts[a].(stopping := true) else c.attempts[a], d.attempts[a])
  {
    StopAttempt(c, {b}, false, a);
    hide Stop;
  }

  lemma CancelsAttempt(c: State, v: WaitId, a: AttemptId)
    requires v in c.waits && a in c.attempts && (c.waits[v].requester.Some? ==> c.waits[v].requester.value in c.attempts)
    ensures var d := CancelWait(c, v).state;
      a in d.attempts && SameMarks(c.attempts[a], d.attempts[a])
  {
  }

  // ---- Permits ---------------------------------------------------------------------------------

  /** A request of `a` has its answer now, or gives up as the last there is: `a` is to have its permit back. */
  ghost predicate BackFor(s: System, step: Step, a: AttemptId)
    requires a in s.c.attempts
  {
    || (step.Finished? && exists w :: w in s.c.waits && Blocks(s.c.waits[w], a, step.a))
    || (step.Cancel? && step.w in s.c.waits && MadeBy(s.c.waits[step.w], a) && !s.c.attempts[a].stopping
        && forall v :: v in s.c.waits && MadeBy(s.c.waits[v], a) ==> v == step.w)
  }

  /** A permit is held from when it arrives, given back while requests wait, and taken back for an answer or the last to give up. */
  ghost predicate PermitGoes(s: System, step: Step, d: State, a: AttemptId)
    requires a in s.c.attempts
  {
    && a in d.attempts
    && var x, y := s.c.attempts[a], d.attempts[a];
       && y.permit == (
            if step == Deliver(a) then (if IsTakeBack(s, a) && !x.stopping && HasBlocked(d, a) then Released else Held)
            else if step == DeliverRefusal(a) && IsTakeBack(s, a) then Released
            else if step.Open? && step.requester == Some(a) && x.permit == Held then Released
            else if x.permit == Released && BackFor(s, step, a) then Reacquiring
            else x.permit)
       && y.draining == (
            if step == Work(a) then x.permit == Reacquiring
            else if (step == Deliver(a) || step == DeliverRefusal(a)) && IsTakeBack(s, a) then false
            else x.draining)
  }

  lemma StepsPermit(s: System, step: Step, a: AttemptId)
    requires Enabled(s, step) && a in s.c.attempts
    ensures PermitGoes(s, step, Next(s, step).c, a)
  {
    D.StateAfterIs(s, step);
    hide Next, Enabled, D.StateAfter, PermitGoes, HasBlocked;
    if step.Open? || step.OpenClosesCycle? || step.Cancel? || step.OuterStop? {
      AskedPermit(s, step, a);
    } else {
      MovedPermit(s, step, a);
    }
  }

  predicate SamePermit(x: Attempt, y: Attempt) {
    y.permit == x.permit && y.draining == x.draining
  }

  lemma MovedPermit(s: System, step: Step, a: AttemptId)
    requires Enabled(s, step) && a in s.c.attempts
    requires !step.Open? && !step.OpenClosesCycle? && !step.Cancel? && !step.OuterStop?
    ensures PermitGoes(s, step, D.StateAfter(s, step), a)
  {
    hide Complete, Finish, OnReacquired, HasBlocked;
    match step
    case Deliver(b) => ReacquiredPermit(s.c, b, true, a);
    case DeliverRefusal(b) => ReacquiredPermit(s.c, b, false, a);
    case Work(b) => FinishPermit(s.c, b, a);
    case Finished(b, work) => CompletePermit(s.c, b, ResultOf(s.c.attempts[b], work), a);
    case _ =>
  }

  lemma AskedPermit(s: System, step: Step, a: AttemptId)
    requires Enabled(s, step) && a in s.c.attempts
    requires step.Open? || step.OpenClosesCycle? || step.Cancel? || step.OuterStop?
    ensures PermitGoes(s, step, D.StateAfter(s, step), a)
  {
    hide CancelWait, Block, Stop, NewlyHurried, HasBlocked;
    match step
    case Open(v, target, requester, _) => BlockAttempts(s.c, v, target, requester);
    case OpenClosesCycle(_, _, cycle) =>
      StopPermit(s.c, set b | b in Nodes(cycle) && b in s.c.attempts && Stoppable(s.c.attempts[b]), true, a);
    case Cancel(v) => CancelsPermit(s.c, v, a);
    case OuterStop(b) => StopPermit(s.c, {b}, false, a);
  }

  lemma ReacquiredPermit(c: State, b: AttemptId, granted: bool, a: AttemptId)
    requires a in c.attempts && b in c.attempts
    ensures var d := OnReacquired(c, b, granted).state;
      && a in d.attempts
      && (a != b ==> SamePermit(c.attempts[a], d.attempts[a]))
      && !(a == b && d.attempts[a].draining)
      && (a == b ==> d.attempts[a].permit == if granted && (c.attempts[a].stopping || !HasBlocked(d, a)) then Held else Released)
  {
    var d := OnReacquired(c, b, granted).state;
    var settled := c.(attempts := c.attempts[b := c.attempts[b].(permit := if granted then Held else Released, draining := false)], waits := d.waits);
    assert HasBlocked(settled, b) <==> HasBlocked(d, b);
  }

  lemma FinishPermit(c: State, b: AttemptId, a: AttemptId)
    requires a in c.attempts && b in c.attempts
    ensures var d := Finish(c, b).state;
      a in d.attempts && SamePermit(if a == b then c.attempts[a].(draining := c.attempts[a].permit == Reacquiring) else c.attempts[a], d.attempts[a])
  {
  }

  lemma CompletePermit(c: State, b: AttemptId, result: Code, a: AttemptId)
    requires a in c.attempts && b in c.attempts
    ensures var d := Complete(c, b, result).state;
      && a in d.attempts && d.attempts[a].draining == c.attempts[a].draining
      && d.attempts[a].permit ==
        if c.attempts[a].permit == Released && exists w :: w in c.waits && Blocks(c.waits[w], a, b) then Reacquiring else c.attempts[a].permit
  {
    var asked := BlockedOn(c, b);
    assert Asks(WithResult(c, b, result), asked, a) <==> exists w :: w in c.waits && Blocks(c.waits[w], a, b) by {
      if w :| w in c.waits && Blocks(c.waits[w], a, b) {
        assert w in asked;
      }
      if Asks(WithResult(c, b, result), asked, a) {
        var w :| w in asked && w in c.waits && c.waits[w].requester == Some(a);
        assert Blocks(c.waits[w], a, b);
      }
    }
    assert WithResult(c, b, result).attempts[a].permit == c.attempts[a].permit;
    assert BlockedOn(c, b) == asked;
    hide Asks, BlockedOn;
  }

  lemma StopPermit(c: State, stopped: set<AttemptId>, doom: bool, a: AttemptId)
    requires stopped <= c.attempts.Keys && a in c.attempts
    ensures var d := Stop(c, stopped, doom).state; a in d.attempts && SamePermit(c.attempts[a], d.attempts[a])
  {
  }

  lemma CancelsPermit(c: State, v: WaitId, a: AttemptId)
    requires v in c.waits && a in c.attempts && (c.waits[v].requester.Some? ==> c.waits[v].requester.value in c.attempts)
    ensures var d := CancelWait(c, v).state;
      && a in d.attempts && d.attempts[a].draining == c.attempts[a].draining
      && d.attempts[a].permit ==
        if c.attempts[a].permit == Released && !c.attempts[a].stopping && MadeBy(c.waits[v], a)
           && forall u :: u in c.waits && MadeBy(c.waits[u], a) ==> u == v
        then Reacquiring else c.attempts[a].permit
  {
    var answered := c.(waits := Answered(c.waits, {v}, Canceled));
    assert HasLive(answered, a) <==> exists u :: u in c.waits && MadeBy(c.waits[u], a) && u != v by {
      if u :| u in c.waits && MadeBy(c.waits[u], a) && u != v {
        assert MadeBy(answered.waits[u], a);
      }
      if HasLive(answered, a) {
        var u :| u in answered.waits && MadeBy(answered.waits[u], a);
        assert MadeBy(c.waits[u], a) && u != v;
      }
    }
    hide HasLive, Answered;
  }

  // ---- Over runs -------------------------------------------------------------------------------

  /** Why a wait is answered as it is: it, or all its attempt asks for, is given up, or its target's result is known. */
  predicate AnsweredBy(s: System, step: Step, w: WaitId)
    requires w in s.c.waits
  {
    var x := s.c.waits[w];
    || step == Cancel(w)
    || (x.requester.Some? && EndsRequests(step, x.requester.value))
    || (x.requester.None? && step.Finished? && step.a == x.target)
    || (x.requester.Some? && step == Deliver(x.requester.value) && x.state == Ready)
  }

  /** The move at `j` answered `w`, for a cause, with what that makes of it. */
  ghost predicate AnsweredAt(states: seq<System>, steps: seq<Step>, j: nat, w: WaitId, result: Code)
    requires j < |steps| < |states|
  {
    && w in states[j].c.waits && Live(states[j].c.waits[w]) && AnsweredBy(states[j], steps[j], w)
    && w in states[j + 1].c.waits && states[j + 1].c.waits[w].state == Done && states[j + 1].c.waits[w].result == result
    && if steps[j] == Cancel(w) || (states[j].c.waits[w].requester.Some? && EndsRequests(steps[j], states[j].c.waits[w].requester.value))
       then result == Canceled
       else states[j].c.waits[w].target in states[j + 1].c.attempts
            && states[j + 1].c.attempts[states[j].c.waits[w].target].result == Some(result)
  }

  /** New waits are not answered, and those answered stay as they are; each that is answered is so for a cause. */
  lemma StepAnswers(s: System, n: nat, step: Step, w: WaitId)
    requires SystemInv(s, n) && Enabled(s, step) && w in Next(s, step).c.waits && Next(s, step).c.waits[w].state == Done
    ensures w in s.c.waits
    ensures Live(s.c.waits[w]) ==> AnsweredBy(s, step, w)
    ensures !Live(s.c.waits[w]) ==> Next(s, step).c.waits[w] == s.c.waits[w]
  {
    OnlyOpenAdds(s, step, w);
    hide Next, Enabled, SystemInv;
    if w in s.c.waits {
      StepsWait(s, n, step, w);
    }
  }

  lemma OnlyOpenAdds(s: System, step: Step, w: WaitId)
    requires Enabled(s, step) && w in Next(s, step).c.waits
    ensures w in s.c.waits || Next(s, step).c.waits[w].state == Blocked
  {
    D.StateAfterIs(s, step);
    hide Next, Complete, Finish, OnReacquired, CancelWait, Stop, Block, Doom, CoordinatorModel.OnOuterStop, NewlyHurried;
    StateAdds(s, step, w);
  }

  lemma StateAdds(s: System, step: Step, w: WaitId)
    requires Enabled(s, step) && w in D.StateAfter(s, step).waits
    ensures w in s.c.waits || D.StateAfter(s, step).waits[w].state == Blocked
  {
    hide WaitGraph, Connected, Upstream, NewlyHurried;
    if step.Open? {
      BlockAttempts(s.c, step.w, step.target, step.requester);
      hide Block;
    }
  }

  /** What is ready to be answered has its target's result already. */
  lemma DeliversResult(s: System, n: nat, step: Step, w: WaitId)
    requires SystemInv(s, n) && Enabled(s, step) && w in s.c.waits && s.c.waits[w].requester.Some?
    ensures s.c.waits[w].state == Ready && step == Deliver(s.c.waits[w].requester.value) ==>
      var d := Next(s, step).c;
      s.c.waits[w].target in d.attempts && d.attempts[s.c.waits[w].target].result == Some(s.c.waits[w].result)
  {
    assert WaitOk(s.c, s.c.waits[w]);
    hide SystemInv, Next;
    StepsAttempt(s, n, step, s.c.waits[w].target);
  }

  /** Every answer has a cause. */
  lemma {:induction false} AnsweredForCause(states: seq<System>, steps: seq<Step>, n: nat, i: nat, w: WaitId) returns (j: nat)
    requires IsRun(states, steps, n) && i < |states| && w in states[i].c.waits && states[i].c.waits[w].state == Done
    ensures j < i && AnsweredAt(states, steps, j, w, states[i].c.waits[w].result)
    ensures states[j].c.waits[w].target == states[i].c.waits[w].target && states[j].c.waits[w].requester == states[i].c.waits[w].requester
  {
    hide SystemInv, Next, Enabled;
    assert i > 0;
    var s, step := states[i - 1], steps[i - 1];
    assert Enabled(s, step) && states[i - 1 + 1] == Next(s, step);
    RunKeeps(states, steps, n, i - 1);
    StepAnswers(s, n, step, w);
    if Live(s.c.waits[w]) {
      j := i - 1;
      StepsWait(s, n, step, w);
      if s.c.waits[w].requester.Some? {
        DeliversResult(s, n, step, w);
      }
    } else {
      j := AnsweredForCause(states, steps, n, i - 1, w);
    }
  }

  /** A request is canceled only if it gave up, its attempt ended or was stopped, or what it waited for came to that itself. */
  lemma CanceledForCause(states: seq<System>, steps: seq<Step>, n: nat, i: nat, w: WaitId) returns (j: nat)
    requires IsRun(states, steps, n) && i < |states| && w in states[i].c.waits
    requires states[i].c.waits[w].state == Done && states[i].c.waits[w].result == Canceled
    ensures j < i && w in states[j].c.waits && Live(states[j].c.waits[w])
    ensures var x := states[i].c.waits[w];
      || steps[j] == Cancel(w)
      || (x.requester.Some? && EndsRequests(steps[j], x.requester.value))
      || (x.target in states[j + 1].c.attempts && states[j + 1].c.attempts[x.target].result == Some(Canceled))
  {
    j := AnsweredForCause(states, steps, n, i, w);
  }

  /** What completes an attempt answers all that waits on it from outside any build, with its result, and has the rest ready. */
  lemma CompletionAnswersAll(s: System, n: nat, a: AttemptId, work: Code, w: WaitId)
    requires SystemInv(s, n) && Enabled(s, Finished(a, work)) && w in s.c.waits && s.c.waits[w].target == a && Live(s.c.waits[w])
    ensures var d := Next(s, Finished(a, work)).c;
      && w in d.waits && a in d.attempts && d.attempts[a].result == Some(d.waits[w].result)
      && d.attempts[a].result == Some(if s.c.attempts[a].doomed then WouldDeadlock else work)
      && d.waits[w].state == if s.c.waits[w].requester.Some? then Ready else Done
  {
    StepsWait(s, n, Finished(a, work), w);
    StepsAttempt(s, n, Finished(a, work), a);
    assert WaitOk(s.c, s.c.waits[w]);
    hide SystemInv, Next;
  }

  /** Whatever is doomed was running on a cycle that a request was about to close. */
  lemma {:induction false} DoomedForCause(states: seq<System>, steps: seq<Step>, n: nat, i: nat, a: AttemptId) returns (j: nat)
    requires IsRun(states, steps, n) && i < |states| && a in states[i].c.attempts && states[i].c.attempts[a].doomed
    ensures j < i && OnCycle(steps[j], a) && a in states[j].c.attempts && Stoppable(states[j].c.attempts[a])
    ensures PathBetween(WaitGraph(states[j].c), steps[j].cycle, steps[j].target, steps[j].asker)
  {
    hide SystemInv, Next, Enabled, WaitGraph, PathBetween;
    assert i > 0;
    var s, step := states[i - 1], steps[i - 1];
    assert Enabled(s, step) && states[i - 1 + 1] == Next(s, step);
    RunKeeps(states, steps, n, i - 1);
    NewIsUnmarked(s, step, a);
    StepsAttempt(s, n, step, a);
    if s.c.attempts[a].doomed {
      j := DoomedForCause(states, steps, n, i - 1, a);
    } else {
      j := i - 1;
      CycleIsPath(s, step);
    }
  }

  lemma CycleIsPath(s: System, step: Step)
    requires Enabled(s, step) && step.OpenClosesCycle?
    ensures PathBetween(WaitGraph(s.c), step.cycle, step.target, step.asker)
  {
  }

  /** A new attempt is neither stopped nor doomed, hurried nor completed. */
  lemma NewIsUnmarked(s: System, step: Step, a: AttemptId)
    requires Enabled(s, step) && a in Next(s, step).c.attempts
    ensures a in s.c.attempts || SameMarks(Next(s, step).c.attempts[a], Attempt(Next(s, step).c.attempts[a].output, Pending, NoPermit, false, false, false, false, None, None))
  {
    D.StateAfterIs(s, step);
    hide Next;
    if step.Open? {
      BlockAttempts(s.c, step.w, step.target, step.requester);
    }
    hide Block, NewlyHurried, WaitGraph, Connected;
  }

  /** Whatever is hurried is what an opener in a hurry waits on or behind: one from outside any build, or one hurried itself. */
  lemma {:induction false} HurriedForCause(states: seq<System>, steps: seq<Step>, n: nat, i: nat, a: AttemptId) returns (j: nat)
    requires IsRun(states, steps, n) && i < |states| && a in states[i].c.attempts && states[i].c.attempts[a].hurried
    ensures j < i && HurriedBy(states[j], steps[j], states[j + 1].c, a)
  {
    hide SystemInv, Next, Enabled, HurriedBy;
    assert i > 0;
    var s, step := states[i - 1], steps[i - 1];
    assert Enabled(s, step) && states[i - 1 + 1] == Next(s, step);
    RunKeeps(states, steps, n, i - 1);
    NewIsUnmarked(s, step, a);
    StepsAttempt(s, n, step, a);
    if s.c.attempts[a].hurried {
      j := HurriedForCause(states, steps, n, i - 1, a);
    } else {
      j := i - 1;
    }
  }

  /** An attempt has a result just since it was completed, and it is what its work came to unless it was doomed. */
  lemma {:induction false} ResultForCause(states: seq<System>, steps: seq<Step>, n: nat, i: nat, a: AttemptId) returns (j: nat)
    requires IsRun(states, steps, n) && i < |states| && a in states[i].c.attempts && states[i].c.attempts[a].result.Some?
    ensures j < i && steps[j].Finished? && steps[j].a == a && a in states[j].c.attempts
    ensures states[i].c.attempts[a].result == Some(if states[j].c.attempts[a].doomed then WouldDeadlock else steps[j].work)
  {
    hide SystemInv, Next, Enabled;
    assert i > 0;
    var s, step := states[i - 1], steps[i - 1];
    assert Enabled(s, step) && states[i - 1 + 1] == Next(s, step);
    RunKeeps(states, steps, n, i - 1);
    NewIsUnmarked(s, step, a);
    StepsAttempt(s, n, step, a);
    if s.c.attempts[a].result.Some? && !(step.Finished? && step.a == a) {
      j := ResultForCause(states, steps, n, i - 1, a);
    } else {
      j := i - 1;
    }
  }

  // ---- Stops -----------------------------------------------------------------------------------

  /** Whoever is marked as stopping while its command runs has that command asked to stop, once the lock is released. */
  lemma StopsAreAsked(c: State, cycle: seq<AttemptId>, a: AttemptId, b: AttemptId)
    requires b in c.attempts && Stoppable(c.attempts[b])
    ensures var o := Doom(c, Nodes(cycle));
      b in o.state.attempts && (b in o.effects.stopAttempts <==> o.state.attempts[b].stopping)
    ensures a in c.attempts ==> var o := CoordinatorModel.OnOuterStop(c, a);
      b in o.state.attempts && (b in o.effects.stopAttempts <==> o.state.attempts[b].stopping)
  {
  }

  /** The request of `a` was stopped before any slot was given to it: it is refused one, or was, or will find out as it starts. */
  predicate Quelled(s: System, a: AttemptId) {
    && a in s.c.attempts && a in s.requests
    && (s.requests[a] in {Refused, Abandoned} || (s.requests[a] == Starting && a in s.stopRequested))
  }

  lemma StopQuells(s: System, n: nat, step: Step, a: AttemptId)
    requires SystemInv(s, n) && Enabled(s, step) && step in {StopQueued(a), RequestStop(a)} && s.requests[a] in {Starting, InLine}
    ensures Quelled(Next(s, step), a)
  {
  }

  /** Neither what a change under the lock leaves to be done nor a slot passed on gives such a request one. */
  lemma AbsorbQuelled(s: System, o: Outcome, a: AttemptId)
    requires Quelled(s, a) && a !in o.effects.reacquires && a in o.state.attempts
    ensures Quelled(Absorb(s, o), a) && Absorb(s, o).lines == s.lines
  {
  }

  lemma PassOnQuelled(s: System, a: AttemptId)
    requires Quelled(s, a) && a !in s.lines.All()
    ensures Quelled(PassOn(s), a)
  {
    assert s.lines.Heir().Some? ==> s.lines.Heir().value in s.lines.All();
  }

  /** It has no permit that was given back, and is in no line. */
  lemma QuelledIs(s: System, n: nat, a: AttemptId)
    requires SystemInv(s, n) && Quelled(s, a)
    ensures s.c.attempts[a].phase != Running || IsTakeBack(s, a)
    ensures s.c.attempts[a].permit != Released && a !in s.lines.All() && s.requests.Keys == s.c.attempts.Keys
  {
    assert SlotOk(s, a) && PlaceOk(s, a) && AttemptOk(s.c.attempts[a]);
  }

  lemma TakesOnlyGivenBack(c: State, a: AttemptId, result: Code, w: WaitId, b: AttemptId)
    requires b in c.attempts && c.attempts[b].permit != Released
    ensures a in c.attempts ==> b !in Complete(c, a, result).effects.reacquires && b in Complete(c, a, result).state.attempts
    ensures a in c.attempts ==> b !in Finish(c, a).effects.reacquires && b in Finish(c, a).state.attempts
    ensures w in c.waits && (c.waits[w].requester.Some? ==> c.waits[w].requester.value in c.attempts) ==>
      b !in CancelWait(c, w).effects.reacquires && b in CancelWait(c, w).state.attempts
  {
  }

  lemma StopTakesNone(c: State, stopped: set<AttemptId>, doom: bool, b: AttemptId)
    requires b in c.attempts && stopped <= c.attempts.Keys
    ensures Stop(c, stopped, doom).effects.reacquires == {} && b in Stop(c, stopped, doom).state.attempts
  {
  }

  lemma OpenQuelled(s: System, w: WaitId, target: AttemptId, requester: Option<AttemptId>, order: seq<AttemptId>, a: AttemptId)
    requires Blockable(s.c, w, target, requester) && Quelled(s, a) && s.lines.Orderly() && a !in s.lines.All()
    requires s.requests.Keys == s.c.attempts.Keys
    ensures Quelled(AfterOpen(s, w, target, requester, order), a)
  {
    var o := Block(s.c, w, target, requester);
    O.PromoteAllMoves(s.lines, order);
    O.BlockOnlyHurries(s.c, w, target, requester);
    O.OpenIsOpened(s, w, target, requester, order);
    BlockAttempts(s.c, w, target, requester);
    assert o.effects.reacquires == {};
    hide Block, AfterOpen, PassOn, PromoteAll;
    assert Quelled(O.Opened(s, order, o), a);
    PassOnQuelled(O.Opened(s, order, o), a);
  }

  lemma ReacquiredQuelled(s: System, b: AttemptId, granted: bool, a: AttemptId)
    requires Quelled(s, a) && a != b && b in s.c.attempts && IsTakeBack(s, b) && b !in s.holders && a !in s.lines.All()
    ensures granted ==> Quelled(AfterTakeBack(s, b), a)
    ensures !granted ==> Quelled(AfterRefusal(s, b), a)
  {
    var o := OnReacquired(s.c, b, granted);
    S.OnReacquiredReacquires(s.c, b, granted);
    hide OnReacquired, PassOn, AfterTakeBack, AfterRefusal;
    var mid := S.Reacquired(s, b, granted, o);
    assert Quelled(mid, a) && mid.lines == s.lines;
    if granted {
      S.TakeBackIsReacquired(s, b);
      PassOnQuelled(mid, a);
    } else {
      S.RefusalIsReacquired(s, b);
    }
  }

  lemma DrainQuelled(s: System, b: AttemptId, a: AttemptId)
    requires Quelled(s, a) && a !in s.lines.All() && b in s.c.attempts
    ensures Quelled(AfterDrain(s, b), a)
  {
    var over := s.(toDrain := s.toDrain - {b}, drained := s.drained + {b});
    PassOnQuelled(over.(holders := over.holders - {b}), a);
  }

  /** Only word of the refusal ends that, for a take-back, and for a first request nothing does. */
  lemma StaysQuelled(s: System, n: nat, step: Step, a: AttemptId)
    requires SystemInv(s, n) && Enabled(s, step) && Quelled(s, a) && !(step == DeliverRefusal(a) && IsTakeBack(s, a))
    ensures Quelled(Next(s, step), a)
  {
    QuelledIs(s, n, a);
    assert s.lines.Orderly();
    if step.Deliver? || step.DeliverRefusal? {
      TellsWho(s, n, step);
      hide SystemInv, Enabled, Next, Quelled;
      DeliverQuelled(s, step, a);
    } else {
      hide SystemInv, Enabled, Next, Quelled;
      if step.Work? || step.Finished? || step.Cancel? || step.OpenClosesCycle? || step.OuterStop? {
        ChangeQuelled(s, step, a);
      } else {
        RestQuelled(s, step, a);
      }
    }
  }

  lemma RestQuelled(s: System, step: Step, a: AttemptId)
    requires Enabled(s, step) && Quelled(s, a) && s.lines.Orderly() && a !in s.lines.All() && s.requests.Keys == s.c.attempts.Keys
    requires !step.Deliver? && !step.DeliverRefusal?
    requires !step.Work? && !step.Finished? && !step.Cancel? && !step.OpenClosesCycle? && !step.OuterStop?
    ensures Quelled(Next(s, step), a)
  {
    hide Block, NewlyHurried, PassOn, AfterOpen, AfterDrain;
    match step
    case Open(w, target, requester, order) => OpenQuelled(s, w, target, requester, order, a);
    case Drain(b) => DrainQuelled(s, b, a);
    case _ =>
  }

  lemma TellsWho(s: System, n: nat, step: Step)
    requires SystemInv(s, n) && Enabled(s, step) && (step.Deliver? || step.DeliverRefusal?)
    ensures step.a in s.c.attempts && step.a !in s.holders
  {
    assert SlotOk(s, step.a) && AttemptOk(s.c.attempts[step.a]);
  }

  lemma DeliverQuelled(s: System, step: Step, a: AttemptId)
    requires Enabled(s, step) && Quelled(s, a) && !(step == DeliverRefusal(a) && IsTakeBack(s, a))
    requires (step.Deliver? || step.DeliverRefusal?) && step.a !in s.holders && a !in s.lines.All()
    ensures Quelled(Next(s, step), a)
  {
    hide OnReacquired, PassOn, AfterTakeBack;
    if IsTakeBack(s, step.a) {
      ReacquiredQuelled(s, step.a, step.Deliver?, a);
    }
  }

  lemma ChangeQuelled(s: System, step: Step, a: AttemptId)
    requires Enabled(s, step) && Quelled(s, a) && s.c.attempts[a].permit != Released
    requires step.Work? || step.Finished? || step.Cancel? || step.OpenClosesCycle? || step.OuterStop?
    ensures Quelled(Next(s, step), a)
  {
    hide Complete, Finish, CancelWait, Stop;
    match step
    case Work(b) => TakesOnlyGivenBack(s.c, b, Success, 0, a);
    case Finished(b, work) => TakesOnlyGivenBack(s.c, b, ResultOf(s.c.attempts[b], work), 0, a);
    case Cancel(w) => TakesOnlyGivenBack(s.c, a, Success, w, a);
    case OpenClosesCycle(_, _, cycle) =>
      StopTakesNone(s.c, set b | b in Nodes(cycle) && b in s.c.attempts && Stoppable(s.c.attempts[b]), true, a);
    case OuterStop(b) => StopTakesNone(s.c, if Stoppable(s.c.attempts[b]) then {b} else {}, false, a);
  }

  /** A build stopped before it was given a slot never runs. */
  lemma {:induction false} StoppedInTimeNeverRuns(states: seq<System>, steps: seq<Step>, n: nat, j: nat, i: nat, a: AttemptId)
    requires IsRun(states, steps, n) && j < i < |states| && steps[j] == StopQueued(a) && states[j].requests[a] in {Starting, InLine}
    ensures a in states[i].c.attempts && Quelled(states[i], a) && states[i].c.attempts[a].phase == Queued
  {
    hide SystemInv, Next, Enabled, Quelled;
    assert Enabled(states[i - 1], steps[i - 1]) && states[i - 1 + 1] == Next(states[i - 1], steps[i - 1]);
    RunKeeps(states, steps, n, i - 1);
    RunKeeps(states, steps, n, i);
    if i == j + 1 {
      StopQuells(states[j], n, steps[j], a);
      StoppedIsQueued(states[j], a);
    } else {
      StoppedInTimeNeverRuns(states, steps, n, j, i - 1, a);
      QueuedTakesNoneBack(states[i - 1], n, a);
      StaysQuelled(states[i - 1], n, steps[i - 1], a);
      StepsAttempt(states[i - 1], n, steps[i - 1], a);
      QuelledIsNotGiven(states[i - 1], steps[i - 1], a);
    }
  }

  lemma StoppedIsQueued(s: System, a: AttemptId)
    requires Enabled(s, StopQueued(a))
    ensures Next(s, StopQueued(a)).c == s.c && s.c.attempts[a].phase == Queued
  {
  }

  lemma QueuedTakesNoneBack(s: System, n: nat, a: AttemptId)
    requires SystemInv(s, n) && a in s.c.attempts && s.c.attempts[a].phase == Queued
    ensures !IsTakeBack(s, a)
  {
    assert AttemptOk(s.c.attempts[a]);
  }

  lemma QuelledIsNotGiven(s: System, step: Step, a: AttemptId)
    requires Enabled(s, step) && Quelled(s, a) && s.c.attempts[a].phase == Queued
    ensures step != Deliver(a) && step != Start(a) && step != Work(a)
  {
  }

  /** A take-back stopped before it was given a slot is given none: its attempt is next told that it was refused. */
  lemma {:induction false} StoppedTakeBackGetsNone(states: seq<System>, steps: seq<Step>, n: nat, j: nat, i: nat, a: AttemptId)
    requires IsRun(states, steps, n) && j < i < |states| && steps[j] == RequestStop(a) && a in states[j].requests
    requires states[j].requests[a] in {Starting, InLine}
    requires forall m :: j < m < i ==> steps[m] != DeliverRefusal(a)
    ensures Quelled(states[i], a) && (i < |steps| ==> steps[i] != Deliver(a))
  {
    hide SystemInv, Next, Enabled, Quelled;
    assert Enabled(states[i - 1], steps[i - 1]) && states[i - 1 + 1] == Next(states[i - 1], steps[i - 1]);
    RunKeeps(states, steps, n, i - 1);
    if i == j + 1 {
      StopQuells(states[j], n, steps[j], a);
    } else {
      StoppedTakeBackGetsNone(states, steps, n, j, i - 1, a);
      StaysQuelled(states[i - 1], n, steps[i - 1], a);
    }
    if i < |steps| {
      assert Enabled(states[i], steps[i]);
      QuelledGetsNone(states[i], steps[i], a);
    }
  }

  lemma QuelledGetsNone(s: System, step: Step, a: AttemptId)
    requires Enabled(s, step) && Quelled(s, a)
    ensures step != Deliver(a)
  {
  }
}
