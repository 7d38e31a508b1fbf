/** The coordinator as it runs: its attempts, waits and books changed in place, each operation under one lock. */
module Coordinator {
  import opened Paths
  import opened Wrappers
  import opened Graphs
  import opened CoordinatorModel
  import opened CoordinatorInvariants
  import opened CoordinatorBooks
  import opened CoordinatorRounds
  import opened QueueLines

  /** Takes the first `value` out of `values`, if there. */
  method EraseOne(values: seq<WaitId>, value: WaitId) returns (rest: seq<WaitId>)
    ensures rest == Without(values, value)
  {
    var i := 0;
    while i < |values| && values[i] != value
      invariant i <= |values| && value !in values[..i]
    {
      i := i + 1;
    }
    if i == |values| {
      assert values[..i] == values;
      return values;
    }
    rest := values[..i] + values[i + 1..];
    assert values == values[..i] + [value] + values[i + 1..];
    WithoutSplits(values[..i], value, values[i + 1..]);
  }

  /** Giving a permit back answers nothing. */
  lemma GivesNoAnswer(s: State, a: AttemptId, e: Effects, w: WaitId)
    requires a in s.attempts
    ensures Both(Both(e, NoEffects.(answered := {w})), GiveBackIfWaiting(s, a).effects)
      == Both(e, GiveBackIfWaiting(s, a).effects.(answered := {w}))
  {
    hide HasBlocked;
    BothAssociates(e, NoEffects.(answered := {w}), GiveBackIfWaiting(s, a).effects);
    NothingAfter(GiveBackIfWaiting(s, a).effects);
    assert Both(NoEffects.(answered := {w}), GiveBackIfWaiting(s, a).effects) == GiveBackIfWaiting(s, a).effects.(answered := {w});
  }

  lemma LiveOfOne(s: State, a: AttemptId)
    ensures LiveOf(s, {a}) == MadeWaits(s, a)
  {
    forall w ensures w in LiveOf(s, {a}) <==> w in MadeWaits(s, a) {
    }
  }

  class Coordinator {
    var attempts: map<AttemptId, Attempt>
    var waits: map<WaitId, Wait>
    var running: map<Path, AttemptId>

    // The books: waits by requester and by target, edges counted, active waits, and take-backs under way.
    var waitsByMe: map<AttemptId, seq<WaitId>>
    var waitsOnMe: map<AttemptId, seq<WaitId>>
    var edgesOut: map<AttemptId, map<AttemptId, nat>>
    var live: seq<WaitId>
    var outstanding: set<AttemptId>

    ghost function Abs(): State
      reads this
    {
      State(attempts, waits, running)
    }

    ghost function TheBooks(): Books
      reads this
    {
      Books(waitsByMe, waitsOnMe, edgesOut, live, outstanding)
    }

    /** The books agree with the attempts and waits. */
    ghost predicate Booked()
      reads this
    {
      Bookkept(Abs(), TheBooks())
    }

    ghost predicate Valid()
      reads this
    {
      Booked() && Inv(Abs())
    }

    constructor ()
      ensures Valid() && Abs() == CoordinatorModel.Initial
    {
      attempts, waits, running := map[], map[], map[];
      waitsByMe, waitsOnMe, edgesOut, live, outstanding := map[], map[], map[], [], {};
      new;
      InitialInv();
      assert LiveWaits(Abs()) == {};
    }

    // ---- Under the lock --------------------------------------------------------------------------

    method RemoveEdge(from: AttemptId, to: AttemptId)
      requires from in edgesOut
      modifies `edgesOut
      ensures edgesOut == old(edgesOut)[from := Decremented(old(edgesOut)[from], to)]
    {
      var edges := edgesOut[from];
      if to in edges {
        if edges[to] <= 1 {
          edges := edges - {to};
        } else {
          edges := edges[to := edges[to] - 1];
        }
      }
      edgesOut := edgesOut[from := edges];
    }

    method Unlink(w: WaitId)
      requires w in waits && waits[w].target in waitsOnMe
      requires waits[w].requester.Some? ==> waits[w].requester.value in waitsByMe
      modifies `waitsByMe, `waitsOnMe, `live
      ensures TheBooks() == Unlinked(old(TheBooks()), w, waits[w])
    {
      var wait := waits[w];
      if wait.requester.Some? {
        var made := EraseOne(waitsByMe[wait.requester.value], w);
        waitsByMe := waitsByMe[wait.requester.value := made];
      }
      var on := EraseOne(waitsOnMe[wait.target], w);
      waitsOnMe := waitsOnMe[wait.target := on];
      live := EraseOne(live, w);
    }

    /** Answers a wait, which leaves every list. */
    method Answer(w: WaitId, result: Code, e: Effects) returns (f: Effects)
      requires Booked() && w in waits && Live(waits[w])
      modifies this
      ensures Booked() && Abs() == old(Abs()).(waits := Answered(old(waits), {w}, result))
      ensures f == Both(e, NoEffects.(answered := {w}))
    {
      hide Bookkept, Decremented, Without;
      var wait := waits[w];
      WaitEnds(Abs(), TheBooks(), w);
      AnswerBooked(Abs(), TheBooks(), w, result);
      if wait.state == Blocked && wait.requester.Some? {
        RemoveEdge(wait.requester.value, wait.target);
      }
      Unlink(w);
      waits := waits[w := wait.(result := result, state := Done)];
      assert waits == Answered(old(waits), {w}, result);
      f := Both(e, NoEffects.(answered := {w}));
    }

    /** Gives the permit of `a` back; that its lease passes the slot on is noted in the effects. */
    method GiveBackPermit(a: AttemptId, e: Effects) returns (f: Effects)
      requires Booked() && a in attempts && attempts[a].permit == Held
      modifies `attempts
      ensures Booked() && Abs() == GiveBack(old(Abs()), a).state && f == Both(e, GiveBack(old(Abs()), a).effects)
    {
      hide Bookkept;
      Account(Abs(), TheBooks(), a);
      PermitBooked(Abs(), TheBooks(), a, Released);
      attempts := attempts[a := attempts[a].(permit := Released)];
      assert outstanding - {a} == outstanding;
      f := Both(e, NoEffects.(released := {a}));
    }

    /** Whether a request of `a` still waits. */
    method AnyBlocked(a: AttemptId) returns (any: bool)
      requires Booked() && a in attempts
      ensures any <==> HasBlocked(Abs(), a)
    {
      hide Bookkept;
      MadeListed(Abs(), TheBooks(), a);
      var made := waitsByMe[a];
      any := false;
      var i := 0;
      while i < |made| && !any
        invariant i <= |made|
        invariant any ==> HasBlocked(Abs(), a)
        invariant forall k :: 0 <= k < |made| ==> made[k] in waits && MadeBy(waits[made[k]], a)
        invariant !any ==> forall k :: 0 <= k < i ==> waits[made[k]].state != Blocked
      {
        var w := made[i];
        any := waits[w].state == Blocked;
        assert any ==> w in Abs().waits && Abs().waits[w].state == Blocked && Abs().waits[w].requester == Some(a);
        i := i + 1;
      }
      forall w | w in waits && waits[w].state == Blocked && waits[w].requester == Some(a) ensures any {
        assert w in MadeWaits(Abs(), a) && w in made;
      }
    }

    method GiveBackPermitIfWaiting(a: AttemptId, e: Effects) returns (f: Effects)
      requires Booked() && a in attempts
      modifies `attempts
      ensures Booked() && Abs() == GiveBackIfWaiting(old(Abs()), a).state
      ensures f == Both(e, GiveBackIfWaiting(old(Abs()), a).effects)
      ensures a in attempts && attempts[a].draining == old(attempts)[a].draining
    {
      hide Bookkept, HasBlocked;
      f := e;
      NothingAfter(e);
      if attempts[a].permit == Held && !attempts[a].stopping {
        var any := AnyBlocked(a);
        if any {
          f := GiveBackPermit(a, e);
        }
      }
    }

    /** Starts taking a permit back. */
    method Reacquire(a: AttemptId, e: Effects) returns (f: Effects)
      requires Booked() && a in attempts
      modifies `attempts, `outstanding
      ensures Booked() && Abs() == old(Abs()).(attempts := old(attempts)[a := old(attempts)[a].(permit := Reacquiring)])
      ensures f == Both(e, NoEffects.(reacquires := {a}))
    {
      hide Bookkept;
      PermitBooked(Abs(), TheBooks(), a, Reacquiring);
      attempts := attempts[a := attempts[a].(permit := Reacquiring)];
      outstanding := outstanding + {a};
      f := Both(e, NoEffects.(reacquires := {a}));
    }

    /** The wait stops blocking, but is still its requester's. */
    method Unblock(w: WaitId, result: Code)
      requires Booked() && w in waits && HasEdge(waits[w])
      modifies `waits, `edgesOut, `waitsOnMe
      ensures Booked() && Abs() == WithWaitAs(old(Abs()), w, old(waits)[w].(state := CoordinatorModel.Ready, result := result))
    {
      hide Bookkept, Decremented, Without;
      WaitEnds(Abs(), TheBooks(), w);
      var wait := waits[w];
      ReadyBooked(Abs(), TheBooks(), w, result);
      RemoveEdge(wait.requester.value, wait.target);
      var on := EraseOne(waitsOnMe[wait.target], w);
      waitsOnMe := waitsOnMe[wait.target := on];
      waits := waits[w := wait.(result := result, state := CoordinatorModel.Ready)];
    }

    /** The answer to a wait is known. */
    method Ready(w: WaitId, result: Code, e: Effects) returns (f: Effects)
      requires Booked() && w in waits && waits[w].state == Blocked
      requires waits[w].requester.Some? ==> waits[w].requester.value in attempts
      modifies this
      ensures Booked() && Abs() == ReadyOne(old(Abs()), w, result).state
      ensures f == Both(e, ReadyOne(old(Abs()), w, result).effects)
    {
      hide Bookkept, GiveBackIfWaiting, Answered;
      var wait := waits[w];
      if wait.requester.None? {
        f := Answer(w, result, e);
        return;
      }
      var r := wait.requester.value;
      if attempts[r].stopping || attempts[r].permit == NoPermit {
        f := Answer(w, Canceled, e);
        return;
      }
      if attempts[r].permit == Held {
        f := Answer(w, result, e);
        GivesNoAnswer(Abs(), r, e, w);
        f := GiveBackPermitIfWaiting(r, f);
        return;
      }
      f := e;
      NothingAfter(e);
      if attempts[r].permit == Released {
        f := Reacquire(r, e);
      }
      assert attempts == old(attempts)[r := old(attempts)[r].(permit := Reacquiring)];
      Unblock(w, result);
    }

    /** Ends every wait of `a`. */
    method CancelWaitsOf(a: AttemptId, e: Effects) returns (f: Effects)
      requires Booked() && a in attempts
      modifies this
      ensures Booked() && Abs() == old(Abs()).(waits := Answered(old(waits), LiveOf(old(Abs()), {a}), Canceled))
      ensures f == Both(e, NoEffects.(answered := LiveOf(old(Abs()), {a})))
    {
      hide Bookkept;
      ghost var s := Abs();
      MadeListed(s, TheBooks(), a);
      var made := waitsByMe[a];
      var i := 0;
      ghost var done: set<WaitId> := {};
      f := e;
      NothingAfter(e);
      assert Answered(waits, {}, Canceled) == waits;
      while i < |made|
        invariant i <= |made| && Booked() && forall w :: w in done <==> w in made[..i]
        invariant Abs() == s.(waits := Answered(s.waits, done, Canceled))
        invariant f == Both(e, NoEffects.(answered := done))
      {
        var w := made[i];
        TakeOne(made, i);
        AnsweredOneMore(s.waits, done, w, Canceled);
        assert f.answered + {w} == e.answered + (done + {w});
        f := Answer(w, Canceled, f);
        done := done + {w};
        i := i + 1;
      }
      LiveOfOne(s, a);
      AllTaken(made, MadeWaits(s, a), done);
    }

    /** What is asked of an attempt that is to stop, at once or once the lock is let go. */
    method StopAttempt(a: AttemptId, e: Effects) returns (f: Effects)
      requires Booked() && a in attempts
      modifies this
      ensures Booked() && Abs() == Stop(old(Abs()), {a}, false).state && f == Both(e, Stop(old(Abs()), {a}, false).effects)
    {
      hide Bookkept;
      ghost var s := Abs();
      SetStopping(a);
      f := CancelWaitsOf(a, e);
      OutstandingBooked(Abs(), TheBooks(), a);
      if a in outstanding {
        f := Both(f, NoEffects.(stopReacquires := {a}));
      }
      f := Both(f, NoEffects.(stopAttempts := {a}));
      StopsOne(s, a, e);
    }

    method SetStopping(a: AttemptId)
      requires Booked() && a in attempts
      modifies `attempts
      ensures Booked() && attempts == old(attempts)[a := old(attempts)[a].(stopping := true)]
    {
      hide Bookkept;
      ghost var s := Abs();
      attempts := attempts[a := attempts[a].(stopping := true)];
      StoppingBooked(s, TheBooks(), a);
    }

    method OnOuterStop(a: AttemptId) returns (f: Effects)
      requires Valid() && a in attempts
      modifies this
      ensures Valid() && Outcome(Abs(), f) == CoordinatorModel.OnOuterStop(old(Abs()), a)
    {
      hide Bookkept, Inv, Stop;
      OnOuterStopKeepsInv(Abs(), a);
      if attempts[a].phase == Running && !attempts[a].stopping {
        f := StopAttempt(a, NoEffects);
        NothingAfter(f);
        NothingAfter(Stop(old(Abs()), {a}, false).effects);
      } else {
        f := NoEffects.(stopAttempts := {a});
      }
    }

    /** A take-back is answered, and with it all that is ready. */
    method OnReacquired(a: AttemptId, granted: bool) returns (f: Effects)
      requires Valid() && a in attempts && attempts[a].permit == Reacquiring
      modifies this
      ensures Booked() && (Inv(Abs()) <==> Reacquirable(old(Abs()), a, granted))
      ensures Outcome(Abs(), f) == CoordinatorModel.OnReacquired(old(Abs()), a, granted)
    {
      hide Bookkept, Inv, HasBlocked, GiveBackIfWaiting, Reacquirable, CoordinatorModel.OnReacquired;
      ghost var s := Abs();
      PermitBooked(s, TheBooks(), a, if granted then Held else Released);
      outstanding := outstanding - {a};
      attempts := attempts[a := attempts[a].(permit := if granted then Held else Released)];
      f := AnswerReady(a, granted);
      f := GiveBackPermitIfWaiting(a, f);
      f := LetDrain(a, f);
      ReacquiredAsOne(s, a, granted);
      OnReacquiredKeepsInv(s, a, granted);
    }

    /** What was to drain once its take-back is over may. */
    method LetDrain(a: AttemptId, e: Effects) returns (f: Effects)
      requires Booked() && a in attempts
      modifies `attempts
      ensures Booked() && Abs() == if old(attempts)[a].draining then Undrained(old(Abs()), a) else old(Abs())
      ensures f == if old(attempts)[a].draining then Both(e, NoEffects.(drains := {a})) else e
    {
      hide Bookkept;
      f := e;
      if attempts[a].draining {
        DrainBooked(Abs(), TheBooks(), a);
        attempts := attempts[a := attempts[a].(draining := false)];
        f := Both(f, NoEffects.(drains := {a}));
      }
    }

    /** Answers all of `a` that is ready, as its permit comes back or is refused. */
    method AnswerReady(a: AttemptId, granted: bool) returns (f: Effects)
      requires Booked() && a in attempts
      modifies this
      ensures Booked() && Abs() == old(Abs()).(waits := Settled(old(Abs()), a, granted, ReadyOf(old(Abs()), a)))
      ensures f == NoEffects.(answered := ReadyOf(old(Abs()), a))
    {
      hide Bookkept;
      ghost var s := Abs();
      MadeListed(s, TheBooks(), a);
      var made := waitsByMe[a];
      var i := 0;
      ghost var done: set<WaitId> := {};
      f := NoEffects;
      assert Settled(s, a, granted, {}) == s.waits;
      while i < |made|
        invariant i <= |made| && Booked() && forall w :: w in done <==> w in made[..i]
        invariant Abs() == s.(waits := Settled(s, a, granted, done))
        invariant f == NoEffects.(answered := done * ReadyOf(s, a))
      {
        var w := made[i];
        TakeOne(made, i);
        SettledOneMore(s, a, granted, done, w);
        assert (done + {w}) * ReadyOf(s, a) == done * ReadyOf(s, a) + if w in ReadyOf(s, a) then {w} else {};
        if waits[w].state == CoordinatorModel.Ready {
          f := Answer(w, if granted && !attempts[a].stopping then waits[w].result else Canceled, f);
        }
        done := done + {w};
        i := i + 1;
      }
      AllTaken(made, MadeWaits(s, a), done);
      SettledAll(s, a, granted, done);
    }

    /** A request gives up waiting. */
    method CancelWait(w: WaitId) returns (f: Effects)
      requires Valid() && w in waits
      modifies this
      ensures Valid() && Outcome(Abs(), f) == CoordinatorModel.CancelWait(old(Abs()), w)
    {
      hide Bookkept, Inv, HasLive, Answered;
      ghost var s := Abs();
      CancelWaitKeepsInv(s, w);
      f := NoEffects;
      var requester := waits[w].requester;
      if waits[w].state != Done {
        NothingAfter(NoEffects.(answered := {w}));
        f := Answer(w, Canceled, f);
        if requester.Some? {
          var r := requester.value;
          NoneMade(Abs(), TheBooks(), r);
          if !attempts[r].stopping && waitsByMe[r] == [] && attempts[r].permit == Released {
            assert Both(NoEffects.(answered := {w}), NoEffects.(reacquires := {r})) == NoEffects.(answered := {w}, reacquires := {r});
            f := Reacquire(r, f);
          }
        }
      }
    }

    /** Hands the result of `a` to everything waiting on it. */
    method Complete(a: AttemptId, result: Code) returns (f: Effects)
      requires Valid() && a in attempts && attempts[a].result.None?
      modifies this
      ensures Valid() && Outcome(Abs(), f) == CoordinatorModel.Complete(old(Abs()), a, result)
    {
      hide Bookkept, Inv, ReadyAll, ReadyOne;
      CompleteKeepsInv(Abs(), a, result);
      ghost var s := WithResult(Abs(), a, result);
      ResultKnown(Abs(), a, result);
      ChangeBooked(Abs(), s, TheBooks(), a);
      attempts := attempts[a := attempts[a].(result := Some(result), predecessor := None)];
      OnListed(s, TheBooks(), a);
      var on := waitsOnMe[a];
      var i := 0;
      ghost var ready: set<WaitId> := {};
      f := NoEffects;
      ReadyNone(s, result);
      while i < |on|
        invariant i <= |on| && Booked() && forall w :: w in ready <==> w in on[..i]
        invariant Outcome(Abs(), f) == ReadyAll(s, ready, result)
      {
        var w := on[i];
        TakeOne(on, i);
        ListedAt(on, BlockedOn(s, a), i);
        assert w in BlockedOn(old(Abs()), a);
        BlockedIsTakeable(old(Abs()), a, w);
        ReadyOneMore(s, ready, w, result);
        f := Ready(w, result, f);
        ready := ready + {w};
        i := i + 1;
      }
      AllTaken(on, BlockedOn(s, a), ready);
      assert BlockedOn(s, a) == BlockedOn(old(Abs()), a);
    }

    /** An attempt has its first permit, and runs. */
    method OnPermit(a: AttemptId)
      requires Valid() && a in attempts && attempts[a].phase == Queued && attempts[a].output !in running
      modifies this
      ensures Valid() && Abs() == CoordinatorModel.OnPermit(old(Abs()), a)
    {
      hide Bookkept, Inv;
      ghost var s := Abs();
      OnPermitKeepsInv(s, a);
      KnownOf(CoordinatorModel.OnPermit(s, a));
      QueuedHasNone(s, a);
      ChangeBooked(s, CoordinatorModel.OnPermit(s, a), TheBooks(), a);
      attempts := attempts[a := attempts[a].(phase := Running, permit := Held)];
      running := running[attempts[a].output := a];
    }

    /** The work of `a` is over. */
    method Finish(a: AttemptId) returns (f: Effects)
      requires Valid() && a in attempts && attempts[a].phase == Running
      modifies this
      ensures Valid() && Outcome(Abs(), f) == CoordinatorModel.Finish(old(Abs()), a)
    {
      hide Bookkept, Inv, Answered, LiveOf;
      ghost var s := Abs();
      FinishKeepsInv(s, a);
      FinishAsOne(s, a);
      OutstandingBooked(s, TheBooks(), a);
      EndedKnown(s, a, a in outstanding);
      attempts := attempts[a := attempts[a].(phase := Ended, stopping := true, draining := a in outstanding)];
      running := running - {attempts[a].output};
      ChangeBooked(s, Abs(), TheBooks(), a);
      ghost var ended := Abs();
      f := CancelWaitsOf(a, NoEffects);
      NothingAfter(NoEffects.(answered := LiveOf(ended, {a})));
      OutstandingBooked(Abs(), TheBooks(), a);
      if a in outstanding {
        f := Both(f, NoEffects.(stopReacquires := {a}));
      } else {
        f := Both(f, NoEffects.(drains := {a}));
      }
    }

    method CreateAttempt(a: AttemptId, output: Path, predecessor: Option<AttemptId>)
      requires Valid() && a !in attempts && (predecessor.Some? ==> predecessor.value in attempts)
      modifies this
      ensures Valid() && Abs() == CoordinatorModel.CreateAttempt(old(Abs()), a, output, predecessor)
    {
      hide Bookkept, Inv;
      ghost var s, b := Abs(), TheBooks();
      CreateKeepsInv(s, a, output, predecessor);
      KnownOf(CoordinatorModel.CreateAttempt(s, a, output, predecessor));
      CreateBooked(s, CoordinatorModel.CreateAttempt(s, a, output, predecessor), b, a);
      // There is nothing to wait behind once it has ended.
      var before := predecessor;
      if predecessor.Some? && attempts[predecessor.value].phase == Ended {
        before := None;
      }
      attempts := attempts[a := Attempt(output, Pending, NoPermit, false, false, false, false, None, before)];
      waitsByMe, waitsOnMe, edgesOut := waitsByMe[a := []], waitsOnMe[a := []], edgesOut[a := map[]];
    }

    method Run(a: AttemptId)
      requires Valid() && a in attempts && attempts[a].phase == Pending
      modifies this
      ensures Valid() && Abs() == CoordinatorModel.Run(old(Abs()), a)
    {
      hide Bookkept, Inv;
      ghost var s := Abs();
      RunKeepsInv(s, a);
      KnownOf(CoordinatorModel.Run(s, a));
      ChangeBooked(s, CoordinatorModel.Run(s, a), TheBooks(), a);
      attempts := attempts[a := attempts[a].(phase := Queued, predecessor := None)];
    }

    /** How many requests of `from` wait on `to`. */
    method CountEdges(from: AttemptId, to: AttemptId) returns (count: nat)
      requires Valid() && from in attempts
      ensures count == |BlockedBetween(Abs(), from, to)|
    {
      EdgesListed(Abs(), TheBooks(), from, to);
      count := if to in edgesOut[from] then edgesOut[from][to] else 0;
    }

    // ---- Searching the wait graph ----------------------------------------------------------------

    /** Where the wait graph goes on from `a`: what it waits on, and, not yet started, what it waits behind. */
    method Next(a: AttemptId) returns (nexts: set<AttemptId>)
      requires Booked() && a in attempts
      ensures forall x :: Edge(WaitGraph(Abs()), a, x) <==> x in nexts
      ensures nexts <= attempts.Keys
    {
      hide WaitGraph, Bookkept;
      GraphBooked(Abs(), TheBooks(), a);
      nexts := edgesOut[a].Keys;
      if attempts[a].phase == Pending && attempts[a].predecessor.Some? {
        nexts := nexts + {attempts[a].predecessor.value};
      }
    }

    /** Depth-first for a path from one attempt to another; what is found is listed from its end. */
    method PathTo(from: AttemptId, to: AttemptId) returns (path: seq<AttemptId>)
      requires Booked() && from in attempts && to in attempts
      ensures path == [] <==> !Connected(WaitGraph(Abs()), from, to)
      ensures path != [] ==> PathBetween(WaitGraph(Abs()), Backwards(path), from, to)
    {
      hide WaitGraph, Bookkept, Trails, Searched, PathBetween, Connected, Edge;
      ghost var g := WaitGraph(Abs());
      var parent: map<AttemptId, Option<AttemptId>> := map[from := None];
      var stack := [from];
      ghost var trails: map<AttemptId, seq<AttemptId>> := map[from := [from]];
      SearchBegins(g, from, to);
      assert parent.Keys == {from};
      while stack != []
        invariant from in parent && parent.Keys <= attempts.Keys
        invariant Trails(g, parent, trails, from)
        invariant forall x :: x in stack ==> x in parent
        invariant Searched(g, parent.Keys, stack, to)
        decreases |attempts.Keys - parent.Keys|, |stack|
      {
        var node := stack[|stack| - 1];
        ghost var whole := stack;
        stack := stack[..|stack| - 1];
        assert whole == stack + [node];
        if node == to {
          path := Unwind(parent, trails, node, g, from);
          return;
        }
        var nexts := Next(node);
        ghost var before := parent.Keys;
        parent, trails, stack := Visit(parent, trails, stack, node, nexts, g, from);
        SearchedOn(g, before, whole, parent.Keys, stack, node, nexts, to);
        FewerLeft(attempts.Keys, before, parent.Keys);
      }
      SearchedAll(g, parent.Keys, from, to);
      path := [];
    }

    /** Hurries all that `target` waits on, stopping at what is hurried already; each newly hurried is promoted. */
    method Hurry(target: AttemptId) returns (promoted: seq<AttemptId>)
      requires Booked() && target in attempts && ClosedBelow(Abs(), target)
      modifies `attempts
      ensures Booked() && Abs() == CoordinatorModel.Hurry(old(Abs()), Upstream(old(Abs()), target))
      ensures Distinct(promoted)
      ensures forall a :: a in promoted <==> a in Upstream(old(Abs()), target) && !old(attempts)[a].hurried
    {
      hide WaitGraph, Bookkept, Hurrying, ClosedBelow, Upstream, Edge, CoordinatorModel.Hurry, Distinct;
      ghost var s, b := Abs(), TheBooks();
      ghost var newly: set<AttemptId> := {};
      HurryBegins(s, target);
      DistinctNone();
      var stack := [target];
      promoted := [];
      while stack != []
        invariant Abs() == CoordinatorModel.Hurry(s, newly) && TheBooks() == b && newly <= s.attempts.Keys
        invariant Hurrying(s, target, newly, stack)
        invariant Distinct(promoted) && forall a :: a in promoted <==> a in newly
        decreases |s.attempts.Keys - newly|, |stack|
      {
        var node := stack[|stack| - 1];
        assert stack == stack[..|stack| - 1] + [node];
        InStack(s, target, newly, stack[..|stack| - 1], node);
        stack := stack[..|stack| - 1];
        HurryOneMore(s, newly, node);
        if attempts[node].hurried {
          HurryPasses(s, target, newly, stack, node);
        } else {
          HurriedBooked(s, b, newly);
          HurryGraph(s, newly);
          var nexts := Next(node);
          var more := PushAll(stack, nexts);
          HurryGoesOn(s, target, newly, stack, node, nexts, more);
          FewerLeft(s.attempts.Keys, newly, newly + {node});
          attempts := attempts[node := attempts[node].(hurried := true)];
          DistinctPush(promoted, node);
          promoted := promoted + [node];
          newly := newly + {node};
          stack := more;
        }
      }
      KnownBooked(s, b);
      HurriedBooked(s, b, newly);
      HurryEnds(s, target, newly);
    }

    /** Dooms and stops all that is running on a cycle. */
    method DoomCycle(cycle: seq<AttemptId>) returns (f: Effects)
      requires Booked() && forall a :: a in cycle ==> a in attempts
      modifies this
      ensures Booked() && Outcome(Abs(), f) == Doom(old(Abs()), Nodes(cycle))
    {
      hide Bookkept, Doom, Stop;
      ghost var s := Abs();
      ghost var done: set<AttemptId> := {};
      DoomNone(s);
      f := NoEffects;
      var i := 0;
      while i < |cycle|
        invariant i <= |cycle| && Booked() && forall a :: a in done <==> a in cycle[..i]
        invariant Outcome(Abs(), f) == Doom(s, done)
      {
        var a := cycle[i];
        assert cycle[..i + 1] == cycle[..i] + [a];
        DoomOneMore(s, done, a);
        // Of an attempt that does not run there is nothing to stop.
        if attempts[a].phase == Running && !attempts[a].stopping {
          DoomsOne(Abs(), a);
          DoomedBooked(Abs(), TheBooks(), a);
          attempts := attempts[a := attempts[a].(doomed := true)];
          f := StopAttempt(a, f);
        }
        done := done + {a};
        i := i + 1;
      }
      assert cycle[..|cycle|] == cycle;
      NodesAre(cycle, done);
    }

    /** Adds a wait that closes no cycle. */
    method Link(w: WaitId, target: AttemptId, requester: Option<AttemptId>)
      requires Booked() && w !in waits && EndsExist(Abs(), CoordinatorModel.Wait(target, requester, Blocked, Success))
      modifies this
      ensures Booked() && Abs() == WithWait(old(Abs()), w, target, requester)
    {
      hide Bookkept;
      LinkBooked(Abs(), TheBooks(), w, target, requester);
      live := live + [w];
      waitsOnMe := waitsOnMe[target := waitsOnMe[target] + [w]];
      if requester.Some? {
        var r := requester.value;
        waitsByMe := waitsByMe[r := waitsByMe[r] + [w]];
        var edges := edgesOut[r];
        edgesOut := edgesOut[r := edges[target := if target in edges then edges[target] + 1 else 1]];
      }
      waits := waits[w := CoordinatorModel.Wait(target, requester, Blocked, Success)];
    }

    /** A request, made by whatever builds `asker`, asks to wait for `target`. */
    method Wait(w: WaitId, target: AttemptId, asker: Option<Path>, stopped: bool)
      returns (answer: Option<Code>, e: Effects, promoted: seq<AttemptId>)
      requires Valid() && target in attempts && w !in waits
      modifies this
      ensures Valid() && WaitDone(old(Abs()), w, target, AskedBy(old(Abs()), asker), stopped, answer, Outcome(Abs(), e), promoted)
    {
      hide Bookkept, Inv, WaitGraph, Doom, Block, CoordinatorModel.Hurry, Upstream, Connected, PathBetween, ClosedBelow, Distinct;
      ghost var s := Abs();
      e, promoted := NoEffects, [];
      if stopped {
        return Some(Canceled), e, promoted;
      }
      if attempts[target].result.Some? {
        return attempts[target].result, e, promoted;
      }
      var requester := None;
      if asker.Some? && asker.value in running {
        requester := Some(running[asker.value]);
        RunningKnown(s, asker.value);
        if attempts[requester.value].stopping {
          return Some(Canceled), e, promoted;
        }
        var cycle := PathTo(target, requester.value);
        if cycle != [] {
          PathKnown(s, Backwards(cycle), target, requester.value);
          BackwardsMembers(cycle);
          NodesAre(cycle, Nodes(Backwards(cycle)));
          DoomKeepsInv(s, Nodes(cycle));
          e := DoomCycle(cycle);
          answer := Some(WouldDeadlock);
          return;
        }
      }
      assert Blockable(s, w, target, requester);
      BlockKeepsInv(s, w, target, requester);
      NewWaitClosedBelow(s, w, target, requester);
      BlockUnfolds(s, w, target, requester);
      UpstreamKnown(WithWait(s, w, target, requester), target);
      answer := None;
      DistinctNone();
      Link(w, target, requester);
      if requester.None? || attempts[requester.value].hurried {
        promoted := Hurry(target);
      }
      ghost var hurried := Abs();
      NothingAfter(NoEffects.(released := if requester.Some? then {requester.value} else {}));
      if requester.Some? && attempts[requester.value].permit == Held {
        e := GiveBackPermit(requester.value, e);
      }
    }
  }

  function AskedBy(s: State, asker: Option<Path>): Option<AttemptId> {
    if asker.Some? && asker.value in s.running then Some(s.running[asker.value]) else None
  }

  /** What a wait comes to: an answer at once, a cycle's attempts doomed, or a wait that blocks. */
  ghost predicate WaitDone(s: State, w: WaitId, target: AttemptId, requester: Option<AttemptId>, stopped: bool,
                           answer: Option<Code>, o: Outcome, promoted: seq<AttemptId>)
    requires target in s.attempts
    requires Known(s) && (requester.Some? ==> requester.value in s.attempts)
  {
    if stopped then answer == Some(Canceled) && o == Outcome(s, NoEffects)
    else if s.attempts[target].result.Some? then answer == s.attempts[target].result && o == Outcome(s, NoEffects)
    else if requester.Some? && s.attempts[requester.value].stopping then answer == Some(Canceled) && o == Outcome(s, NoEffects)
    else if requester.Some? && Connected(WaitGraph(s), target, requester.value) then
      && answer == Some(WouldDeadlock)
      && exists cycle :: PathBetween(WaitGraph(s), cycle, target, requester.value) && o == Doom(s, Nodes(cycle))
    else
      && answer == None && Blockable(s, w, target, requester) && o == Block(s, w, target, requester)
      && Distinct(promoted) && forall a :: a in promoted <==> a in s.attempts && !s.attempts[a].hurried && o.state.attempts[a].hurried
  }

  lemma RunningKnown(s: State, o: Path)
    requires Inv(s) && o in s.running
    ensures s.running[o] in s.attempts && s.attempts[s.running[o]].phase == Running
  {
  }

  lemma PathKnown(s: State, p: seq<AttemptId>, a: AttemptId, b: AttemptId)
    requires Inv(s) && a in s.attempts && PathBetween(WaitGraph(s), p, a, b)
    ensures forall x :: x in p ==> x in s.attempts
  {
    WaitGraphEdges(s);
    forall i | 0 <= i < |p| ensures p[i] in s.attempts {
      if i > 0 {
        assert Edge(WaitGraph(s), p[i - 1], p[i - 1 + 1]);
        assert WaitsOn(s, p[i - 1], p[i]);
      }
    }
  }

  lemma BackwardsMembers(p: seq<AttemptId>)
    ensures forall a :: a in Backwards(p) <==> a in p
  {
    forall a | a in p ensures a in Backwards(p) {
      var i :| 0 <= i < |p| && p[i] == a;
      assert Backwards(p)[|p| - 1 - i] == a;
    }
  }

  lemma DistinctNone()
    ensures Distinct<AttemptId>([])
  {
  }

  lemma DistinctPush(l: seq<AttemptId>, a: AttemptId)
    requires Distinct(l) && a !in l
    ensures Distinct(l + [a])
  {
  }

  lemma KnownBooked(s: State, b: Books)
    requires Bookkept(s, b)
    ensures Known(s)
  {
  }

  lemma InStack(s: State, target: AttemptId, newly: set<AttemptId>, stack: seq<AttemptId>, node: AttemptId)
    requires Hurrying(s, target, newly, stack + [node])
    ensures node in s.attempts && (node in newly ==> !s.attempts[node].hurried)
  {
    assert node in stack + [node];
  }

  /** Each attempt found has a trail from where the search began, by way of its parent. */
  ghost predicate Trails(g: Graph, parent: map<AttemptId, Option<AttemptId>>, trails: map<AttemptId, seq<AttemptId>>,
                         from: AttemptId)
  {
    && trails.Keys == parent.Keys
    && forall n :: n in parent ==>
         && PathBetween(g, trails[n], from, n)
         && match parent[n]
            case None => trails[n] == [n]
            case Some(p) => p in trails && trails[n] == trails[p] + [n]
  }

  lemma TrailGrows(g: Graph, parent: map<AttemptId, Option<AttemptId>>, trails: map<AttemptId, seq<AttemptId>>,
                   from: AttemptId, node: AttemptId, next: AttemptId)
    requires Trails(g, parent, trails, from) && node in parent && next !in parent && Edge(g, node, next)
    ensures node in trails
    ensures Trails(g, parent[next := Some(node)], trails[next := trails[node] + [next]], from)
  {
    Append(g, trails[node], next);
  }

  lemma SearchBegins(g: Graph, from: AttemptId, to: AttemptId)
    ensures Trails(g, map[from := None], map[from := [from]], from) && Searched(g, {from}, [from], to)
  {
    assert PathBetween(g, [from], from, from);
  }

  /** Goes on to whatever of `nexts` was not found before. */
  method Visit(found: map<AttemptId, Option<AttemptId>>, ghost known: map<AttemptId, seq<AttemptId>>, waiting: seq<AttemptId>,
               node: AttemptId, nexts: set<AttemptId>, ghost g: Graph, ghost from: AttemptId)
    returns (parent: map<AttemptId, Option<AttemptId>>, ghost trails: map<AttemptId, seq<AttemptId>>, stack: seq<AttemptId>)
    requires Trails(g, found, known, from) && node in found && forall x :: x in nexts ==> Edge(g, node, x)
    ensures Trails(g, parent, trails, from) && parent.Keys == found.Keys + nexts
    ensures parent.Keys == found.Keys ==> stack == waiting
    ensures forall x :: x in stack <==> x in waiting || (x in parent && x !in found)
  {
    hide Trails;
    parent, trails, stack := found, known, waiting;
    var rest := nexts;
    while rest != {}
      invariant rest <= nexts && parent.Keys == found.Keys + (nexts - rest)
      invariant Trails(g, parent, trails, from)
      invariant parent.Keys == found.Keys ==> stack == waiting
      invariant forall x :: x in stack <==> x in waiting || (x in parent && x !in found)
      decreases rest
    {
      assert (forall x :: x !in rest) ==> rest == {};
      var next :| next in rest;
      rest := rest - {next};
      if next !in parent {
        TrailGrows(g, parent, trails, from, node, next);
        parent := parent[next := Some(node)];
        trails := trails[next := trails[node] + [next]];
        stack := stack + [next];
      }
    }
  }

  /** What was found and is not waiting to be looked at is not what is sought, and all it leads to was found. */
  ghost predicate Searched(g: Graph, found: set<AttemptId>, stack: seq<AttemptId>, to: AttemptId) {
    forall n :: n in found && n !in stack ==> n != to && forall x :: Edge(g, n, x) ==> x in found
  }

  lemma SearchedOn(g: Graph, before: set<AttemptId>, whole: seq<AttemptId>, found: set<AttemptId>, stack: seq<AttemptId>,
                   node: AttemptId, nexts: set<AttemptId>, to: AttemptId)
    requires Searched(g, before, whole, to) && node != to && found == before + nexts
    requires forall x :: Edge(g, node, x) <==> x in nexts
    requires forall x :: x in whole && x != node ==> x in stack
    requires forall x :: x in found && x !in before ==> x in stack
    ensures Searched(g, found, stack, to)
  {
    forall n | n in found && n !in stack ensures n != to && forall x :: Edge(g, n, x) ==> x in found {
      assert n in before && (n == node || n !in whole);
    }
  }

  lemma SearchedAll(g: Graph, found: set<AttemptId>, from: AttemptId, to: AttemptId)
    requires Searched(g, found, [], to) && from in found
    ensures !Connected(g, from, to)
  {
    assert to !in found;
    if p :| PathBetween(g, p, from, to) {
      ClosedHoldsPath(g, found, p, from, to);
    }
  }

  lemma FewerLeft(all: set<AttemptId>, before: set<AttemptId>, found: set<AttemptId>)
    requires before <= found <= all
    ensures found == before || |all - found| < |all - before|
  {
    if found != before {
      var more := found - before;
      assert all - before == (all - found) + more;
      assert more != {};
    }
  }

  /** From where a search ended back to where it began. */
  method Unwind(parent: map<AttemptId, Option<AttemptId>>, ghost trails: map<AttemptId, seq<AttemptId>>, end: AttemptId,
                ghost g: Graph, ghost from: AttemptId) returns (path: seq<AttemptId>)
    requires Trails(g, parent, trails, from) && end in parent
    ensures path != [] && PathBetween(g, Backwards(path), from, end) && Connected(g, from, end)
  {
    path := [];
    var it := Some(end);
    while it.Some?
      invariant it.Some? ==> it.value in parent && Backwards(trails[end]) == path + Backwards(trails[it.value])
      invariant it.None? ==> path == Backwards(trails[end])
      decreases if it.Some? then |trails[it.value]| else 0
    {
      var node := it.value;
      path := path + [node];
      it := parent[node];
      if it.Some? {
        BackwardsAppend(trails[it.value], node);
      }
    }
    BackwardsTwice(trails[end]);
  }

  lemma ResultKnown(s: State, a: AttemptId, result: Code)
    requires Inv(s) && a in s.attempts
    ensures Known(WithResult(s, a, result))
  {
  }

  lemma EndedKnown(s: State, a: AttemptId, draining: bool)
    requires Inv(s) && a in s.attempts && s.attempts[a].phase == Running
    ensures Known(State(s.attempts[a := s.attempts[a].(phase := Ended, stopping := true, draining := draining)], s.waits,
                        s.running - {s.attempts[a].output}))
  {
  }

  lemma QueuedHasNone(s: State, a: AttemptId)
    requires Inv(s) && a in s.attempts && s.attempts[a].phase == Queued
    ensures s.attempts[a].permit == NoPermit
  {
    assert AttemptOk(s.attempts[a]);
  }
}
