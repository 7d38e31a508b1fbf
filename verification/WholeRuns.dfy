/** Every run of the tree and the coordinator together. */
module WholeRuns {
  import opened Paths
  import opened Wrappers
  import opened Graphs
  import opened BuildAttempts
  import opened WholeBuild
  import T = BuildTree
  import I = BuildTreeInvariant
  import C = CoordinatorModel
  import P = Permits
  import V = PermitsInvariant
  import R = PermitsRuns

  ghost predicate IsInit(w: Whole, n: nat) {
    T.IsInit(w.t) && w.s == P.Init(n)
  }

  lemma InitInv(w: Whole, n: nat)
    requires IsInit(w, n)
    ensures WholeInv(w, n)
  {
    I.InitInv(w.t);
    V.InitInv(n);
    hide I.Inv, V.SystemInv;
  }

  /** Whatever step is taken, by either, what each keeps and what the two keep between them still holds. */
  lemma StepKeeps(w: Whole, v: Whole, n: nat, step: Step)
    requires WholeInv(w, n) && Enabled(w, step) && Goes(w, step, v)
    ensures WholeInv(v, n)
  {
    hide I.Waiters, I.Freshness, I.Cached, V.SystemInv, Joint, P.Enabled, P.Next, T.Next, MayTake, Taken, Asked;
    match step
    case Own(own) =>
      OwnKeeps(w.t, w.s, n, own);
      R.StepKeeps(w.s, n, own);
    case Trees(tree, work) =>
      AskedIsHad(w.t, w.s, n, tree, work);
      TakenKeeps(w.s, n, Asked(w, tree, work));
      I.StepKeeps(w.t, tree);
  }

  /** A run of the two, with `n` slots, from the start. */
  ghost predicate IsRun(states: seq<Whole>, steps: seq<Step>, n: nat) {
    && |states| == |steps| + 1 && IsInit(states[0], n)
    && forall i :: 0 <= i < |steps| ==> Enabled(states[i], steps[i]) && Goes(states[i], steps[i], states[i + 1])
  }

  lemma {:induction false} RunKeeps(states: seq<Whole>, steps: seq<Step>, n: nat, i: nat)
    requires IsRun(states, steps, n) && i < |states|
    ensures WholeInv(states[i], n)
  {
    hide WholeInv, Enabled, Goes, IsInit;
    if i == 0 {
      InitInv(states[0], n);
    } else {
      RunKeeps(states, steps, n, i - 1);
      assert Goes(states[i - 1], steps[i - 1], states[i - 1 + 1]);
      StepKeeps(states[i - 1], states[i], n, steps[i - 1]);
    }
  }

  /** In every run, whatever the tree asks of the coordinator - an attempt made, or completed - it may ask. */
  lemma AskedIsAlwaysHad(states: seq<Whole>, steps: seq<Step>, n: nat, i: nat, tree: T.Step, work: C.Code)
    requires IsRun(states, steps, n) && i < |states| && Enabled(states[i], Trees(tree, work))
    ensures MayTake(states[i].s, Asked(states[i], tree, work))
  {
    RunKeeps(states, steps, n, i);
    hide I.Inv, V.SystemInv, Joint, MayTake, Asked, IsRun, Enabled;
    AskedIsHad(states[i].t, states[i].s, n, tree, work);
  }

  // ---- Runs of the one in runs of both ---------------------------------------------------------

  /** A run of the coordinator's machine goes on with the steps asked for. */
  lemma {:induction false} RunGoesOn(systems: seq<System>, taken: seq<P.Step>, n: nat, more: seq<P.Step>)
      returns (all: seq<System>)
    requires R.IsRun(systems, taken, n) && MayTake(systems[|systems| - 1], more)
    ensures R.IsRun(all, taken + more, n) && all[|all| - 1] == Taken(systems[|systems| - 1], more)
    decreases |more|
  {
    hide P.Enabled, P.Next;
    if more == [] {
      assert taken + more == taken;
      all := systems;
    } else {
      var last := systems[|systems| - 1];
      assert (systems + [P.Next(last, more[0])])[|systems| - 1] == last;
      all := RunGoesOn(systems + [P.Next(last, more[0])], taken + [more[0]], n, more[1..]);
      assert taken + [more[0]] + more[1..] == taken + more;
    }
  }

  /** So whatever holds of every run of the coordinator's machine holds of its part in every run of the two. */
  lemma {:induction false} PartIsRun(states: seq<Whole>, steps: seq<Step>, n: nat, i: nat)
      returns (systems: seq<System>, taken: seq<P.Step>)
    requires IsRun(states, steps, n) && i < |states|
    ensures R.IsRun(systems, taken, n) && systems[|systems| - 1] == states[i].s
  {
    hide P.Enabled, P.Next, P.Init, T.IsInit, MayTake, Taken, Asked;
    if i == 0 {
      systems, taken := [states[0].s], [];
    } else {
      var before, already := PartIsRun(states, steps, n, i - 1);
      assert Goes(states[i - 1], steps[i - 1], states[i - 1 + 1]);
      match steps[i - 1]
      case Own(own) =>
        assert MayTake(states[i - 1].s, [own]) && Taken(states[i - 1].s, [own]) == states[i].s by {
          TakesOne(states[i - 1].s, own);
        }
        systems := RunGoesOn(before, already, n, [own]);
        taken := already + [own];
      case Trees(tree, work) =>
        systems := RunGoesOn(before, already, n, Asked(states[i - 1], tree, work));
        taken := already + Asked(states[i - 1], tree, work);
    }
  }

  /** And the tree's part is a run of the tree's machine, but for steps it has no part in. */
  lemma {:induction false} TreePartIsRun(states: seq<Whole>, steps: seq<Step>, n: nat, i: nat)
      returns (trees: seq<Tree>, taken: seq<T.Step>)
    requires IsRun(states, steps, n) && i < |states|
    ensures I.IsRun(trees, taken) && trees[|trees| - 1] == states[i].t
  {
    hide P.Enabled, P.Next, P.Init, T.IsInit, T.Enabled, T.Next, MayTake, Taken, Asked;
    if i == 0 {
      trees, taken := [states[0].t], [];
    } else {
      trees, taken := TreePartIsRun(states, steps, n, i - 1);
      assert Goes(states[i - 1], steps[i - 1], states[i - 1 + 1]);
      if steps[i - 1].Trees? {
        var last := trees[|trees| - 1];
        assert (trees + [states[i].t])[|trees| - 1] == last;
        trees, taken := trees + [states[i].t], taken + [steps[i - 1].step];
      }
    }
  }

  // ---- What that comes to ----------------------------------------------------------------------

  /** Nothing that an attempt on a cycle built is ever served. */
  lemma NothingDoomedIsServed(states: seq<Whole>, steps: seq<Step>, n: nat, i: nat, o: Path)
    requires IsRun(states, steps, n) && i < |states| && o in states[i].t.served && states[i].t.served[o].Built?
    ensures var a := states[i].t.served[o].attempt;
      a in states[i].s.c.attempts && !states[i].s.c.attempts[a].doomed
  {
    RunKeeps(states, steps, n, i);
    hide I.Inv, V.SystemInv, Agree, Owned, Follows;
    assert ServedOk(states[i].t, states[i].s, o);
  }

  /** A command runs only as the build its output is being built as. */
  lemma RunsOnlyInFlight(states: seq<Whole>, steps: seq<Step>, n: nat, i: nat, a: AttemptId)
    requires IsRun(states, steps, n) && i < |states|
    requires a in states[i].s.c.attempts && states[i].s.c.attempts[a].phase == C.Running
    ensures var t := states[i].t;
      && a in t.underWay && t.underWay[a] == T.Build(states[i].s.c.attempts[a].output, T.Launched)
      && t.underWay[a].output in t.inFlight && T.AttemptsAt(t, t.underWay[a].output).current == Some(a)
  {
    RunKeeps(states, steps, n, i);
    var t, s := states[i].t, states[i].s;
    assert I.AttemptOk(t, a) && AgreeOn(t, s, a) && V.SlotOk(s, a);
  }

  lemma BehindEachOther(c: C.State, a: AttemptId, b: AttemptId)
    requires C.WaitsOn(c, a, b) && C.WaitsOn(c, b, a)
    ensures Reaches(C.WaitGraph(c), a, a)
  {
    C.WaitGraphEdges(c);
    hide C.WaitsOn;
    EmptyPath(C.WaitGraph(c), a);
    Prepend(C.WaitGraph(c), b, a, a);
  }

  /** What an attempt launched was made to wait behind is over. */
  lemma BeforeIsOver(t: Tree, s: System, n: nat, a: AttemptId, b: AttemptId)
    requires I.Waiters(t) && Joint(t, s) && V.SystemInv(s, n) && a in t.underWay && a in s.c.attempts && a in s.requests
    requires s.c.attempts[a].phase == C.Pending && s.c.attempts[a].predecessor == Some(b)
    ensures b in s.c.attempts && b in s.requests && P.Over(s, b)
  {
    assert I.AttemptOk(t, a) && AgreeOn(t, s, a) && ComesAfter(s, a, b);
    assert AgreeOn(t, s, b) && I.AttemptOk(t, b) && V.SlotOk(s, b);
    if I.IsNext(t, b) {
      var o :| o in t.attempts && t.attempts[o].next == Some(b);
      assert t.created[b] == o == t.underWay[a].output;
      assert FollowsAt(t, s, o);
      BehindEachOther(s.c, a, b);
    }
  }

  /** What is launched may start, whatever it was made to wait behind. */
  lemma LaunchedMayStart(w: Whole, n: nat, a: AttemptId)
    requires WholeInv(w, n) && a in w.t.underWay && w.t.underWay[a].stage == T.Launched
    requires a in w.s.c.attempts && a in w.s.requests && Unstarted(w.s, a)
    ensures Enabled(w, Own(P.Start(a)))
  {
    Known(w.s, n);
    hide V.SystemInv, I.Waiters, I.Freshness, I.Cached, Joint;
    if w.s.c.attempts[a].predecessor.Some? {
      BeforeIsOver(w.t, w.s, n, a, w.s.c.attempts[a].predecessor.value);
    }
  }

  // ---- No run of the two comes to rest ---------------------------------------------------------

  /** Launched, and not yet queued for a slot. */
  predicate ToStart(w: Whole, a: AttemptId) {
    && a in w.s.c.attempts && a in w.s.requests && Unstarted(w.s, a)
    && a in w.t.underWay && w.t.underWay[a].stage == T.Launched
  }

  /** The attempt a step goes on with, if it does, rather than being a command's choice, a user's, or a launch given up. */
  function DueFor(w: Whole, step: Step): Option<AttemptId> {
    match step
    case Own(own) => R.DueFor(w.s, own)
    case Trees(tree, _) =>
      match tree
      case Write(a) => Some(a)
      case Settle(a, _, _, _, _) => if ToStart(w, a) then None else Some(a)
      case Release(a) => Some(a)
      case _ => None
  }

  ghost predicate GoesOn(w: Whole, a: AttemptId) {
    exists step :: DueFor(w, step) == Some(a) && Enabled(w, step)
  }

  /** The attempt goes on, or is in line for a slot of one that does. */
  ghost predicate GetsOn(w: Whole, a: AttemptId) {
    || GoesOn(w, a)
    || (a in w.s.requests && w.s.requests[a] == P.InLine && exists b :: (b in w.s.holders || b in V.InTransit(w.s)) && GoesOn(w, b))
  }

  /** Or it is to be built next, and what is being built gets on. */
  ghost predicate GetsOnInTurn(w: Whole, a: AttemptId) {
    || GetsOn(w, a)
    || exists o :: o in w.t.attempts && w.t.attempts[o].next == Some(a)
                   && w.t.attempts[o].current.Some? && GetsOn(w, w.t.attempts[o].current.value)
  }

  lemma GoesOnBy(w: Whole, step: Step, a: AttemptId)
    requires DueFor(w, step) == Some(a) && Enabled(w, step)
    ensures GoesOn(w, a)
  {
  }

  lemma {:induction false} UnusedId(used: set<AttemptId>) returns (a: AttemptId)
    ensures forall b :: b in used ==> b < a
    decreases |used|
  {
    if |used| == 0 {
      a := 0;
    } else {
      var b: AttemptId := Member(used);
      var c := UnusedId(used - {b});
      a := if b < c then c else b + 1;
      assert forall d :: d in used ==> d == b || d in used - {b};
    }
  }

  /** Where an attempt is that is neither completed nor to be built next. */
  lemma InPlace(t: Tree, s: System, a: AttemptId)
    requires I.Waiters(t) && Agree(t, s) && a in s.c.attempts && s.c.attempts[a].result.None? && !I.IsNext(t, a)
    ensures a in t.toComplete || a in t.underWay
    ensures a in t.underWay && t.underWay[a].stage == T.Recorded ==> t.layout == Some(a)
  {
    assert I.AttemptOk(t, a) && AgreeOn(t, s, a);
  }

  lemma LaunchedGoesOn(w: Whole, n: nat, a: AttemptId, made: AttemptId)
    requires WholeInv(w, n) && a in w.s.c.attempts && a in w.s.requests && Returned(w.s, a) && made !in w.t.created
    requires a in w.t.underWay && w.t.underWay[a].stage == T.Launched
    ensures GoesOn(w, a)
  {
    hide V.SystemInv, I.Inv, Joint, GoesOn, P.Enabled, Returned, Unstarted;
    if Unstarted(w.s, a) {
      LaunchedMayStart(w, n, a);
      GoesOnBy(w, Own(P.Start(a)), a);
    } else {
      GoesOnBy(w, Trees(T.Settle(a, false, false, [], made), C.Success), a);
    }
  }

  /** What has come back is settled, its bytes first if it has any to write, and then released. */
  lemma ReturnedGoesOn(w: Whole, n: nat, a: AttemptId)
    requires WholeInv(w, n) && a in w.s.c.attempts && a in w.s.requests && w.s.c.attempts[a].result.None?
    requires Returned(w.s, a) && !I.IsNext(w.t, a)
    ensures GoesOn(w, a)
  {
    var t, s := w.t, w.s;
    InPlace(t, s, a);
    hide V.SystemInv, I.Inv, I.IsNext, Joint, GoesOn, P.Enabled, Returned, Unstarted;
    var made := UnusedId(t.created.Keys);
    if a in t.toComplete {
      GoesOnBy(w, Trees(T.Release(a), if a in t.succeeded then C.Success else C.Failed(0)), a);
    } else {
      match t.underWay[a].stage
      case Launched => LaunchedGoesOn(w, n, a, made);
      case Recorded => GoesOnBy(w, Trees(T.Write(a), C.Success), a);
      case Written => GoesOnBy(w, Trees(T.Settle(a, true, false, [], made), C.Success), a);
    }
  }

  /** A build that came back with an output records its inputs, or waits for one that writes its bytes to let the layout go. */
  lemma SuccessGoesOn(w: Whole, n: nat, a: AttemptId, inputs: seq<Path>)
    requires WholeInv(w, n) && a in w.t.underWay && w.t.underWay[a].stage == T.Launched
    requires a in w.s.c.attempts && a in w.s.requests && Returned(w.s, a) && !w.s.c.attempts[a].doomed
    ensures Enabled(w, Trees(T.Step.Record(a, inputs), C.Success)) || (w.t.layout.Some? && GoesOn(w, w.t.layout.value))
  {
    var t := w.t;
    if t.layout.Some? {
      assert I.LayoutOk(t);
      hide WholeInv;
      GoesOnBy(w, Trees(T.Write(t.layout.value), C.Success), t.layout.value);
    }
  }

  /** What the coordinator could go on with goes on in both, as the tree sees to what it asks for. */
  lemma GoesOnInBoth(w: Whole, n: nat, a: AttemptId)
    requires WholeInv(w, n) && a in w.s.c.attempts && a in w.s.requests && w.s.c.attempts[a].result.None?
    requires R.GoesOn(w.s, a) && !I.IsNext(w.t, a)
    ensures GoesOn(w, a)
  {
    var step :| R.DueFor(w.s, step) == Some(a) && P.Enabled(w.s, step);
    hide WholeInv, GoesOn;
    if step.Start? || step.Finished? {
      assert Returned(w.s, a);
      ReturnedGoesOn(w, n, a);
    } else {
      GoesOnBy(w, Own(step), a);
    }
  }

  /** Whoever has a slot, or is being given one, has started, and is not completed. */
  lemma SlottedHaveStarted(w: Whole, n: nat, a: AttemptId)
    requires WholeInv(w, n) && (a in w.s.holders || a in V.InTransit(w.s))
    ensures a in w.s.c.attempts && a in w.s.requests && w.s.c.attempts[a].result.None? && !I.IsNext(w.t, a)
  {
    var t, s := w.t, w.s;
    assert V.SlotOk(s, a) && C.AttemptOk(s.c.attempts[a]);
    assert AgreeOn(t, s, a);
    hide V.SystemInv, I.Inv, Joint, I.IsNext;
  }

  lemma GetsOnInBoth(w: Whole, n: nat, a: AttemptId)
    requires WholeInv(w, n) && a in w.s.c.attempts && a in w.s.requests && w.s.c.attempts[a].result.None?
    requires R.GetsOn(w.s, a) && !I.IsNext(w.t, a)
    ensures GetsOn(w, a)
  {
    hide WholeInv, GoesOn, R.GoesOn, V.InTransit, I.IsNext;
    if R.GoesOn(w.s, a) {
      GoesOnInBoth(w, n, a);
    } else {
      var b :| (b in w.s.holders || b in V.InTransit(w.s)) && R.GoesOn(w.s, b);
      SlottedHaveStarted(w, n, b);
      GoesOnInBoth(w, n, b);
    }
  }

  /** A next attempt that waits on none is held up by the one being built alone, which has ended. */
  lemma NextGetsOn(w: Whole, n: nat, a: AttemptId)
    requires WholeInv(w, n) && n >= 1 && I.IsNext(w.t, a) && a in w.s.c.attempts
    requires forall b :: C.WaitsOn(w.s.c, a, b) ==> b in w.s.c.attempts && w.s.c.attempts[b].result.Some?
    ensures GetsOnInTurn(w, a)
  {
    var t, s := w.t, w.s;
    var o :| o in t.attempts && t.attempts[o].next == Some(a);
    assert FollowsAt(t, s, o) && I.NextOk(t, o) && I.FlightOk(t, o);
    var c: AttemptId := t.attempts[o].current.value;
    UnderWayIsNotNext(t, c);
    assert AgreeOn(t, s, a) && AgreeOn(t, s, c);
    assert s.c.attempts[a].predecessor == Some(c) ==> C.WaitsOn(s.c, a, c);
    assert s.c.attempts[c].phase == C.Ended && s.c.attempts[c].result.None?;
    hide WholeInv, GetsOn, AgreeOn, I.IsNext, I.NextOk, I.FlightOk, C.WaitsOn;
    EndedGetsOn(w, n, c);
  }

  lemma EndedGetsOn(w: Whole, n: nat, c: AttemptId)
    requires WholeInv(w, n) && n >= 1 && c in w.s.c.attempts && c in w.s.requests && !I.IsNext(w.t, c)
    requires w.s.c.attempts[c].phase == C.Ended && w.s.c.attempts[c].result.None?
    ensures GetsOn(w, c)
  {
    assert V.SlotOk(w.s, c);
    Known(w.s, n);
    hide V.SystemInv, I.Inv, Joint, I.IsNext;
    if c in w.s.drained {
      ReturnedGoesOn(w, n, c);
    } else if c in w.s.toDrain {
      R.GoesOnBy(w.s, P.Drain(c), c);
      GetsOnInBoth(w, n, c);
    } else {
      R.RequestGetsOn(w.s, n, c);
      GetsOnInBoth(w, n, c);
    }
  }

  /** Something that holds up an unanswered wait gets on. */
  lemma AlwaysGoesOn(w: Whole, n: nat, wait: C.WaitId)
    requires WholeInv(w, n) && n >= 1 && R.Unanswered(w.s, wait)
    ensures exists a :: R.HoldsUp(w.s.c, w.s.c.waits[wait], a) && GetsOnInTurn(w, a)
  {
    var s := w.s;
    var x := s.c.waits[wait];
    assert V.SystemInv(s, n) && C.WaitOk(s.c, x) && P.Tracked(s);
    R.InvOf(s, n);
    if x.state == C.Ready {
      var r := x.requester.value;
      ReadyGetsOn(w, n, wait);
      assert R.HoldsUp(s.c, x, r);
    } else {
      hide WholeInv, V.SystemInv, C.WaitsOn, GetsOn, C.Inv, R.GetsOn;
      var sink := R.FindSink(s.c, x.target);
      assert R.HoldsUp(s.c, x, sink);
      if I.IsNext(w.t, sink) {
        NextGetsOn(w, n, sink);
      } else {
        R.SinkGetsOn(s, n, sink);
        GetsOnInBoth(w, n, sink);
      }
    }
  }

  lemma ReadyGetsOn(w: Whole, n: nat, wait: C.WaitId)
    requires WholeInv(w, n) && n >= 1 && wait in w.s.c.waits && w.s.c.waits[wait].state == C.Ready
    ensures w.s.c.waits[wait].requester.Some? && GetsOn(w, w.s.c.waits[wait].requester.value)
  {
    var s := w.s;
    assert C.WaitOk(s.c, s.c.waits[wait]);
    var r := s.c.waits[wait].requester.value;
    assert V.SlotOk(s, r) && AgreeOn(w.t, s, r);
    hide WholeInv, GetsOn, I.IsNext, C.WaitOk;
    R.RequestGetsOn(s, n, r);
    GetsOnInBoth(w, n, r);
  }

  /** So no run of the tree and the coordinator together comes to rest with a wait unanswered. */
  lemma NoRunDeadlocks(states: seq<Whole>, steps: seq<Step>, n: nat, i: nat, wait: C.WaitId)
    requires IsRun(states, steps, n) && i < |states| && n >= 1 && R.Unanswered(states[i].s, wait)
    ensures exists a :: R.HoldsUp(states[i].s.c, states[i].s.c.waits[wait], a) && GetsOnInTurn(states[i], a)
  {
    RunKeeps(states, steps, n, i);
    AlwaysGoesOn(states[i], n, wait);
  }
}
