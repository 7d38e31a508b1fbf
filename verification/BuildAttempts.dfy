/** The build tree and the coordinator together: which attempts the one makes, retires and completes of the other. */
module BuildAttempts {
  import opened Paths
  import opened Wrappers
  import opened Graphs
  import opened QueueLines
  import T = BuildTree
  import I = BuildTreeInvariant
  import C = CoordinatorModel
  import N = CoordinatorInvariants
  import P = Permits
  import V = PermitsInvariant
  import O = PermitsOpen
  import S = PermitsSteps
  import D = PermitsDoom

  type Tree = T.Tree
  type System = P.System
  type AttemptId = T.AttemptId

  /** Every attempt in a place is there for the output it was made for. */
  ghost predicate Owned(t: Tree) {
    && (forall a :: a in t.underWay ==> a in t.created && t.created[a] == t.underWay[a].output)
    && (forall o :: o in t.attempts && t.attempts[o].next.Some? ==>
          t.attempts[o].next.value in t.created && t.created[t.attempts[o].next.value] == o)
  }

  /** The attempt has come back, or never went: nothing of it runs, or will. */
  predicate Returned(s: System, a: AttemptId)
    requires a in s.c.attempts && a in s.requests
  {
    a in s.drained || s.requests[a] == P.Abandoned || Unstarted(s, a)
  }

  predicate Unstarted(s: System, a: AttemptId)
    requires a in s.c.attempts && a in s.requests
  {
    s.c.attempts[a].phase == C.Pending && s.requests[a] == P.Idle
  }

  predicate IsOver(s: System, a: AttemptId)
    requires a in s.requests
  {
    a in s.drained || s.requests[a] == P.Abandoned
  }

  predicate ComesAfter(s: System, a: AttemptId, b: AttemptId)
    requires a in s.c.attempts
  {
    a != b && b in s.c.attempts && s.c.attempts[b].output == s.c.attempts[a].output
  }

  /** What an attempt's place in the tree says of it in the coordinator. */
  ghost predicate AgreeOn(t: Tree, s: System, a: AttemptId)
    requires a in t.created && a in s.c.attempts && a in s.requests
  {
    && s.c.attempts[a].output == t.created[a]
    && (t.completions[a] > 0 <==> s.c.attempts[a].result.Some?)
    && (a in t.toComplete || t.completions[a] > 0 ==> IsOver(s, a))
    && (s.c.attempts[a].predecessor.Some? ==> ComesAfter(s, a, s.c.attempts[a].predecessor.value))
    && (I.IsNext(t, a) ==> Unstarted(s, a))
    && (a in t.underWay && t.underWay[a].stage != T.Launched ==> Returned(s, a))
  }

  ghost predicate Agree(t: Tree, s: System) {
    && t.created.Keys == s.c.attempts.Keys == s.requests.Keys
    && forall a :: a in t.created ==> AgreeOn(t, s, a)
  }

  // ---- The premise of a new attempt ------------------------------------------------------------

  /** Of an output being built or not, what is neither under way nor next is over, or about to be completed. */
  lemma RestIsOver(t: Tree, s: System, b: AttemptId)
    requires I.Waiters(t) && Agree(t, s) && b in t.created && b !in t.underWay && !I.IsNext(t, b)
    ensures P.Over(s, b) || b in s.drained
  {
    assert I.AttemptOk(t, b) && AgreeOn(t, s, b);
  }

  /** What the tree asks of the coordinator as it claims an idle output is what the coordinator needs of it. */
  lemma ClaimMayCreate(t: Tree, s: System, n: nat, output: Path, made: AttemptId)
    requires I.Waiters(t) && Owned(t) && Agree(t, s) && V.SystemInv(s, n)
    requires output !in t.inFlight && made !in t.created
    ensures P.Enabled(s, P.Create(made, output, None))
  {
    forall b | b in s.c.attempts && s.c.attempts[b].output == output ensures P.Over(s, b) {
      assert AgreeOn(t, s, b) && I.AttemptOk(t, b) && V.SlotOk(s, b);
      assert b !in t.underWay;
      if o :| o in t.attempts && t.attempts[o].next == Some(b) {
        assert I.NextOk(t, o);
      }
      RestIsOver(t, s, b);
    }
  }

  /** And so as it makes the next attempt of an output being built. */
  lemma NextMayCreate(t: Tree, s: System, n: nat, output: Path, made: AttemptId)
    requires I.Waiters(t) && Owned(t) && Agree(t, s) && V.SystemInv(s, n)
    requires output in t.inFlight && T.AttemptsAt(t, output).next.None? && made !in t.created
    ensures T.AttemptsAt(t, output).current.Some? && P.Enabled(s, P.Create(made, output, T.AttemptsAt(t, output).current))
  {
    assert I.FlightOk(t, output);
    var current := t.attempts[output].current.value;
    assert AgreeOn(t, s, current);
    forall b | b in s.c.attempts && s.c.attempts[b].output == output && b != current ensures P.Over(s, b) {
      assert AgreeOn(t, s, b) && I.AttemptOk(t, b) && V.SlotOk(s, b);
      assert b !in t.underWay;
      RestIsOver(t, s, b);
    }
  }

  // ---- What the coordinator does by itself -----------------------------------------------------

  /** Nothing that has come back, or never went, is touched, and nothing completes. */
  predicate LeavesAt(s: System, u: System, started: Option<AttemptId>, a: AttemptId)
    requires a in s.c.attempts && a in s.requests && a in u.c.attempts && a in u.requests
  {
    && u.c.attempts[a].output == s.c.attempts[a].output && u.c.attempts[a].result == s.c.attempts[a].result
    && (s.c.attempts[a].phase == C.Ended ==> u.c.attempts[a].phase == C.Ended)
    && (u.c.attempts[a].predecessor == s.c.attempts[a].predecessor || (started == Some(a) && u.c.attempts[a].predecessor.None?))
    && (IsOver(s, a) ==> IsOver(u, a))
    && (started != Some(a) && Unstarted(s, a) ==> Unstarted(u, a))
    && (started != Some(a) && Returned(s, a) ==> u.c.attempts[a].doomed == s.c.attempts[a].doomed)
  }

  ghost predicate Leaves(s: System, u: System, started: Option<AttemptId>) {
    && s.requests.Keys == s.c.attempts.Keys == u.c.attempts.Keys == u.requests.Keys
    && forall a :: a in s.c.attempts ==> LeavesAt(s, u, started, a)
  }

  function Started(step: P.Step): Option<AttemptId> {
    if step.Start? then Some(step.a) else None
  }

  /** The steps that are not the tree's to ask for. */
  predicate IsOwn(step: P.Step) {
    !step.Create? && !step.Retire? && !step.Finished?
  }

  predicate StateLeavesAt(c: C.State, d: C.State, started: Option<AttemptId>, a: AttemptId)
    requires a in c.attempts && a in d.attempts
  {
    var x, y := c.attempts[a], d.attempts[a];
    && y.output == x.output && y.result == x.result && (x.phase == C.Ended ==> y.phase == C.Ended)
    && (y.predecessor == x.predecessor || (started == Some(a) && y.predecessor.None?))
    && (x.phase == C.Pending && started != Some(a) ==> y.phase == C.Pending)
    && (x.phase != C.Running ==> y.doomed == x.doomed)
  }

  ghost predicate StateLeaves(c: C.State, d: C.State, started: Option<AttemptId>) {
    c.attempts.Keys == d.attempts.Keys && forall a :: a in c.attempts ==> StateLeavesAt(c, d, started, a)
  }

  lemma FinishLeaves(c: C.State, a: AttemptId)
    requires a in c.attempts && c.attempts[a].phase == C.Running
    ensures StateLeaves(c, C.Finish(c, a).state, None)
  {
  }

  lemma ReacquiredLeaves(c: C.State, a: AttemptId, granted: bool)
    requires a in c.attempts
    ensures StateLeaves(c, C.OnReacquired(c, a, granted).state, None)
  {
  }

  lemma CancelLeaves(c: C.State, w: C.WaitId)
    requires w in c.waits && (c.waits[w].requester.Some? ==> c.waits[w].requester.value in c.attempts)
    ensures StateLeaves(c, C.CancelWait(c, w).state, None)
  {
  }

  lemma RunsLeave(c: C.State, a: AttemptId)
    requires a in c.attempts
    ensures c.attempts[a].phase == C.Pending ==> StateLeaves(c, C.Run(c, a), Some(a))
    ensures c.attempts[a].phase == C.Queued ==> StateLeaves(c, C.OnPermit(c, a), None)
  {
  }

  lemma StopLeaves(c: C.State, stopped: set<AttemptId>, doom: bool)
    requires stopped <= c.attempts.Keys && forall a :: a in stopped ==> C.Stoppable(c.attempts[a])
    ensures StateLeaves(c, C.Stop(c, stopped, doom).state, None)
  {
  }

  lemma BlockLeaves(c: C.State, w: C.WaitId, target: AttemptId, requester: Option<AttemptId>)
    requires N.Blockable(c, w, target, requester)
    ensures StateLeaves(c, C.Block(c, w, target, requester).state, None)
  {
    N.BlockAttempts(c, w, target, requester);
    hide C.Block;
  }

  lemma OwnStepLeavesState(s: System, n: nat, step: P.Step)
    requires V.SystemInv(s, n) && P.Enabled(s, step) && IsOwn(step)
    ensures StateLeaves(s.c, D.StateAfter(s, step), Started(step))
  {
    hide V.SystemInv, StateLeaves, C.Complete, C.Finish, C.OnReacquired, C.CancelWait, C.Stop, C.Block, C.OnPermit, C.Run;
    SameLeaves(s.c);
    match step
    case Start(a) => RunsLeave(s.c, a);
    case Deliver(a) =>
      assert P.IsTakeBack(s, a) || s.c.attempts[a].phase == C.Queued by {
        GivenIsQueued(s, n, a);
      }
      ReacquiredLeaves(s.c, a, true);
      RunsLeave(s.c, a);
    case DeliverRefusal(a) => ReacquiredLeaves(s.c, a, false);
    case Work(a) => FinishLeaves(s.c, a);
    case Open(w, target, requester, _) => BlockLeaves(s.c, w, target, requester);
    case OpenClosesCycle(_, _, cycle) =>
      StopLeaves(s.c, set a | a in Nodes(cycle) && a in s.c.attempts && C.Stoppable(s.c.attempts[a]), true);
    case Cancel(w) => CancelLeaves(s.c, w);
    case OuterStop(a) => StopLeaves(s.c, if C.Stoppable(s.c.attempts[a]) then {a} else {}, false);
    case _ =>
  }

  lemma GivenIsQueued(s: System, n: nat, a: AttemptId)
    requires V.SystemInv(s, n) && a in s.c.attempts && s.requests[a] == P.Given
    ensures P.IsTakeBack(s, a) || s.c.attempts[a].phase == C.Queued
  {
    assert V.SlotOk(s, a);
  }

  lemma SameLeaves(c: C.State)
    ensures StateLeaves(c, c, None)
  {
  }

  /** Nor are requests made, or dropped, of what is over or has not started. */
  predicate RequestLeavesAt(s: System, u: System, started: Option<AttemptId>, a: AttemptId)
    requires a in s.c.attempts && a in s.requests && a in u.requests
  {
    && (s.requests[a] == P.Abandoned ==> u.requests[a] == P.Abandoned)
    && (Unstarted(s, a) && started != Some(a) ==> u.requests[a] == P.Idle)
  }

  ghost predicate RequestsLeave(s: System, u: System, started: Option<AttemptId>) {
    && s.c.attempts.Keys == s.requests.Keys == u.requests.Keys && s.drained <= u.drained
    && forall a :: a in s.c.attempts ==> RequestLeavesAt(s, u, started, a)
  }

  /** A change by the coordinator asks only for permits that were given back. */
  lemma AbsorbLeavesRequests(s: System, o: C.Outcome)
    requires P.Tracked(s) && forall a :: a in s.c.attempts ==> V.SlotOk(s, a) && C.AttemptOk(s.c.attempts[a])
    requires forall a :: a in o.effects.reacquires && a in s.c.attempts ==> s.c.attempts[a].permit == C.Released
    ensures RequestsLeave(s, P.Absorb(s, o), None)
  {
    forall a | a in s.c.attempts ensures RequestLeavesAt(s, P.Absorb(s, o), None, a) {
      assert V.SlotOk(s, a) && C.AttemptOk(s.c.attempts[a]);
    }
  }

  /** A slot passed on goes to someone in line. */
  lemma PassOnLeavesRequests(s: System, u: System)
    requires RequestsLeave(s, u, None) && V.LinesOk(s) && forall a :: a in u.lines.All() ==> a in s.lines.All()
    ensures RequestsLeave(s, P.PassOn(u), None)
  {
    if u.lines.Heir().Some? {
      var heir := u.lines.Heir().value;
      assert heir in u.lines.All();
      assert heir in s.c.attempts && V.PlaceOk(s, heir);
    }
  }

  lemma SetLeavesRequests(s: System, u: System, a: AttemptId, q: P.SlotRequest)
    requires P.Tracked(s) && a in s.c.attempts && u.requests == s.requests[a := q] && s.drained <= u.drained
    requires s.requests[a] != P.Abandoned && s.requests[a] != P.Idle
    ensures RequestsLeave(s, u, None)
  {
  }

  lemma Parts(s: System, n: nat)
    requires V.SystemInv(s, n)
    ensures P.Tracked(s) && V.Slots(s) && V.LinesOk(s) && s.lines.Orderly()
    ensures forall a :: a in s.c.attempts ==> V.SlotOk(s, a) && C.AttemptOk(s.c.attempts[a])
  {
    hide V.SlotOk, V.PlaceOk, C.AttemptOk, Distinct;
  }

  lemma OpenLeavesRequests(s: System, n: nat, w: C.WaitId, target: AttemptId, requester: Option<AttemptId>, order: seq<AttemptId>)
    requires V.SystemInv(s, n) && N.Blockable(s.c, w, target, requester)
    ensures RequestsLeave(s, P.AfterOpen(s, w, target, requester, order), None)
  {
    hide V.SystemInv, V.Slots, V.LinesOk, V.SlotOk, C.AttemptOk, Distinct, RequestsLeave, P.AfterOpen, C.Block, P.PassOn;
    Parts(s, n);
    var o := C.Block(s.c, w, target, requester);
    O.PromoteAllMoves(s.lines, order);
    O.BlockOnlyHurries(s.c, w, target, requester);
    O.OpenIsOpened(s, w, target, requester, order);
    AbsorbLeavesRequests(s, o);
    OpenedLeavesRequests(s, order, o);
    PassOnLeavesRequests(s, O.Opened(s, order, o));
  }

  lemma OpenedLeavesRequests(s: System, order: seq<AttemptId>, o: C.Outcome)
    requires RequestsLeave(s, P.Absorb(s, o), None)
    ensures RequestsLeave(s, O.Opened(s, order, o), None)
  {
  }

  lemma ReacquiredLeavesRequests(s: System, a: AttemptId, granted: bool, o: C.Outcome)
    requires P.Tracked(s) && a in s.c.attempts && S.Reacquires(s.c, a, granted, o)
    requires s.requests[a] != P.Abandoned && s.requests[a] != P.Idle
    ensures RequestsLeave(s, S.Reacquired(s, a, granted, o), None) && S.Reacquired(s, a, granted, o).lines == s.lines
  {
    assert S.Reacquired(s, a, granted, o).requests == s.requests[a := P.Idle];
  }

  lemma TakeBackLeavesRequests(s: System, n: nat, a: AttemptId)
    requires V.SystemInv(s, n) && a in s.c.attempts && s.requests[a] == P.Given && P.IsTakeBack(s, a)
    ensures RequestsLeave(s, P.AfterTakeBack(s, a), None)
  {
    Parts(s, n);
    assert V.SlotOk(s, a);
    hide V.SystemInv, V.Slots, V.LinesOk, V.SlotOk, C.AttemptOk, Distinct, RequestsLeave, P.AfterTakeBack, C.OnReacquired;
    hide S.Reacquires, S.Reacquired, P.PassOn;
    var o := C.OnReacquired(s.c, a, true);
    S.OnReacquiredReacquires(s.c, a, true);
    S.TakeBackIsReacquired(s, a);
    ReacquiredLeavesRequests(s, a, true, o);
    PassOnLeavesRequests(s, S.Reacquired(s, a, true, o));
  }

  lemma RefusalLeavesRequests(s: System, n: nat, a: AttemptId)
    requires V.SystemInv(s, n) && a in s.c.attempts && s.requests[a] == P.Refused
    ensures RequestsLeave(s, P.AfterRefusal(s, a), None)
  {
    Parts(s, n);
    hide V.SystemInv, V.Slots, V.LinesOk, V.SlotOk, C.AttemptOk, Distinct, RequestsLeave, C.OnReacquired, S.Reacquired, S.Reacquires;
    if P.IsTakeBack(s, a) {
      S.OnReacquiredReacquires(s.c, a, false);
      S.RefusalIsReacquired(s, a);
      ReacquiredLeavesRequests(s, a, false, C.OnReacquired(s.c, a, false));
    } else {
      SetLeavesRequests(s, P.AfterRefusal(s, a), a, P.Abandoned);
    }
  }

  lemma DrainLeavesRequests(s: System, n: nat, a: AttemptId)
    requires V.SystemInv(s, n) && P.Enabled(s, P.Drain(a))
    ensures RequestsLeave(s, P.AfterDrain(s, a), None)
  {
    var over := s.(toDrain := s.toDrain - {a}, drained := s.drained + {a});
    assert RequestsLeave(s, over, None);
    if a in s.holders {
      var v := over.(holders := over.holders - {a});
      assert RequestsLeave(s, v, None);
      PassOnLeavesRequests(s, v);
    }
  }

  /** What such a step changes under the coordinator's lock. */
  ghost function ChangeOf(s: System, step: P.Step): C.Outcome
    requires P.Enabled(s, step) && (step.Work? || step.OpenClosesCycle? || step.Cancel? || step.OuterStop?)
  {
    match step
    case Work(a) => C.Finish(s.c, a)
    case OpenClosesCycle(_, _, cycle) => C.Doom(s.c, Nodes(cycle))
    case Cancel(w) => C.CancelWait(s.c, w)
    case OuterStop(a) => C.OnOuterStop(s.c, a)
  }

  lemma ChangesAre(s: System, step: P.Step)
    requires P.Enabled(s, step) && (step.Work? || step.OpenClosesCycle? || step.Cancel? || step.OuterStop?)
    ensures P.Next(s, step) == P.Absorb(s, ChangeOf(s, step))
  {
    hide C.Finish, C.Doom, C.CancelWait, C.OnOuterStop, P.Absorb;
  }

  lemma OnlyGivenBackAreTaken(s: System, step: P.Step)
    requires P.Enabled(s, step) && (step.Work? || step.OpenClosesCycle? || step.Cancel? || step.OuterStop?)
    ensures forall a :: a in ChangeOf(s, step).effects.reacquires && a in s.c.attempts ==> s.c.attempts[a].permit == C.Released
  {
  }

  lemma ChangeLeavesRequests(s: System, n: nat, step: P.Step)
    requires V.SystemInv(s, n) && P.Enabled(s, step)
    requires step.Work? || step.OpenClosesCycle? || step.Cancel? || step.OuterStop?
    ensures RequestsLeave(s, P.Next(s, step), None)
  {
    hide ChangeOf, RequestsLeave, P.Absorb, P.Next, P.Enabled;
    ChangesAre(s, step);
    OnlyGivenBackAreTaken(s, step);
    AbsorbLeavesRequests(s, ChangeOf(s, step));
  }

  lemma OwnStepLeavesRequests(s: System, n: nat, step: P.Step)
    requires V.SystemInv(s, n) && P.Enabled(s, step) && IsOwn(step)
    ensures RequestsLeave(s, P.Next(s, step), Started(step))
  {
    match step
    case Start(a) => StartLeavesRequests(s, n, a);
    case Begin(a) => SetLeavesRequests(s, P.AfterBegin(s, a), a, P.AfterBegin(s, a).requests[a]);
    case Deliver(a) =>
      if P.IsTakeBack(s, a) {
        TakeBackLeavesRequests(s, n, a);
      } else {
        SetLeavesRequests(s, P.AfterFirst(s, a), a, P.Idle);
      }
    case DeliverRefusal(a) => RefusalLeavesRequests(s, n, a);
    case RequestStop(a) => StopLeavesRequests(s, a);
    case StopQueued(a) => StopLeavesRequests(s, a);
    case Drain(a) => DrainLeavesRequests(s, n, a);
    case Open(w, target, requester, order) => OpenLeavesRequests(s, n, w, target, requester, order);
    case _ => ChangeLeavesRequests(s, n, step);
  }

  lemma StartLeavesRequests(s: System, n: nat, a: AttemptId)
    requires V.SystemInv(s, n) && P.Enabled(s, P.Start(a))
    ensures RequestsLeave(s, P.Next(s, P.Start(a)), Some(a))
  {
  }

  lemma StopLeavesRequests(s: System, a: AttemptId)
    requires P.Tracked(s) && a in s.c.attempts
    ensures RequestsLeave(s, P.StopRequest(s, a), None)
  {
  }

  lemma OwnStepLeaves(s: System, n: nat, step: P.Step)
    requires V.SystemInv(s, n) && P.Enabled(s, step) && IsOwn(step)
    ensures Leaves(s, P.Next(s, step), Started(step))
  {
    D.StateAfterIs(s, step);
    OwnStepLeavesState(s, n, step);
    OwnStepLeavesRequests(s, n, step);
    hide P.Next, P.Enabled, D.StateAfter;
    var u := P.Next(s, step);
    forall a | a in s.c.attempts ensures LeavesAt(s, u, Started(step), a) {
      assert V.SlotOk(s, a);
      assert StateLeavesAt(s.c, u.c, Started(step), a) && RequestLeavesAt(s, u, Started(step), a);
    }
  }
}
