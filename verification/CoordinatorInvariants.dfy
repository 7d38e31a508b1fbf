/** Every change under the coordinator's lock keeps its invariant. */
module CoordinatorInvariants {
  import opened Paths
  import opened Wrappers
  import opened Graphs
  import opened CoordinatorModel

  /** `t` has no attempt or blocked wait that `s` has not, and hurries none that `s` does not. */
  ghost predicate FewerWaits(s: State, t: State) {
    && (forall w :: w in t.waits && t.waits[w].state == Blocked ==> w in s.waits && s.waits[w] == t.waits[w])
    && (forall a :: a in t.attempts ==> a in s.attempts && t.attempts[a].hurried == s.attempts[a].hurried)
    && (forall a :: a in t.attempts && t.attempts[a].phase == Pending && t.attempts[a].predecessor.Some? ==>
          s.attempts[a].phase == Pending && t.attempts[a].predecessor == s.attempts[a].predecessor)
  }

  lemma FewerWaitsWaitOn(s: State, t: State)
    requires FewerWaits(s, t)
    ensures forall a, b :: WaitsOn(t, a, b) ==> WaitsOn(s, a, b)
  {
    forall a, b | WaitsOn(t, a, b) ensures WaitsOn(s, a, b) {
      if w :| w in t.waits && Blocks(t.waits[w], a, b) {
        assert w in s.waits && Blocks(s.waits[w], a, b);
      }
    }
  }

  /** With fewer waits nothing new can be closed, or left unhurried. */
  lemma FewerWaitsKeepGraph(s: State, t: State)
    requires Inv(s) && FewerWaits(s, t)
    ensures WaitGraph(t) <= WaitGraph(s) && Acyclic(WaitGraph(t)) && HurryClosed(t)
  {
    FewerWaitsWaitOn(s, t);
    WaitGraphEdges(s);
    WaitGraphEdges(t);
    forall e | e in WaitGraph(t) ensures e in WaitGraph(s) {
      assert Edge(WaitGraph(t), e.0, e.1);
      assert Edge(WaitGraph(s), e.0, e.1);
    }
    FewerEdgesStayAcyclic(WaitGraph(t), WaitGraph(s));
  }

  lemma RunKeepsInv(s: State, a: AttemptId)
    requires Inv(s) && a in s.attempts && s.attempts[a].phase == Pending
    ensures Inv(Run(s, a))
  {
    hide Local, HurryClosed, Acyclic, WaitGraph;
    FewerWaitsKeepGraph(s, Run(s, a));
    RunKeepsLocal(s, a);
  }

  lemma RunKeepsLocal(s: State, a: AttemptId)
    requires Local(s) && a in s.attempts && s.attempts[a].phase == Pending
    ensures Local(Run(s, a))
  {
    StillWaiting(s, Run(s, a));
  }

  /** Attempts whose blocked waits are untouched still have them. */
  lemma StillWaiting(s: State, t: State)
    requires forall w :: w in s.waits && s.waits[w].state == Blocked ==> w in t.waits && t.waits[w] == s.waits[w]
    ensures forall a :: HasBlocked(s, a) ==> HasBlocked(t, a)
  {
    forall a | HasBlocked(s, a) ensures HasBlocked(t, a) {
      var w :| w in s.waits && s.waits[w].state == Blocked && s.waits[w].requester == Some(a);
      assert w in t.waits && t.waits[w].state == Blocked;
    }
  }

  lemma OnPermitKeepsInv(s: State, a: AttemptId)
    requires Inv(s) && a in s.attempts && s.attempts[a].phase == Queued && s.attempts[a].output !in s.running
    ensures Inv(OnPermit(s, a))
  {
    hide Local, HurryClosed, Acyclic, WaitGraph;
    FewerWaitsKeepGraph(s, OnPermit(s, a));
    OnPermitKeepsLocal(s, a);
  }

  lemma OnPermitKeepsLocal(s: State, a: AttemptId)
    requires Local(s) && a in s.attempts && s.attempts[a].phase == Queued && s.attempts[a].output !in s.running
    ensures Local(OnPermit(s, a))
  {
    hide Known, PermitsOk, OnPermit;
    OnPermitKeepsKnown(s, a);
    OnPermitKeepsPermits(s, a);
  }

  lemma OnPermitKeepsKnown(s: State, a: AttemptId)
    requires Known(s) && a in s.attempts && s.attempts[a].phase == Queued && s.attempts[a].output !in s.running
    ensures Known(OnPermit(s, a))
  {
  }

  lemma OnPermitKeepsPermits(s: State, a: AttemptId)
    requires PermitsOk(s) && a in s.attempts && s.attempts[a].phase == Queued
    ensures PermitsOk(OnPermit(s, a))
  {
    var t := OnPermit(s, a);
    StillWaiting(s, t);
    forall w | w in t.waits ensures WaitOk(t, t.waits[w]) {
      assert WaitOk(s, s.waits[w]);
    }
  }

  lemma CreateKeepsInv(s: State, a: AttemptId, output: Path, predecessor: Option<AttemptId>)
    requires Inv(s) && a !in s.attempts && (predecessor.Some? ==> predecessor.value in s.attempts)
    ensures Inv(CreateAttempt(s, a, output, predecessor))
  {
    CreateKeepsHurry(s, a, output, predecessor);
    CreateKeepsAcyclic(s, a, output, predecessor);
    hide Known, PermitsOk, Acyclic, HurryClosed, CreateAttempt;
    CreateKeepsKnown(s, a, output, predecessor);
    CreateKeepsPermits(s, a, output, predecessor);
  }

  lemma CreateKeepsKnown(s: State, a: AttemptId, output: Path, predecessor: Option<AttemptId>)
    requires Known(s) && a !in s.attempts && (predecessor.Some? ==> predecessor.value in s.attempts)
    ensures Known(CreateAttempt(s, a, output, predecessor))
  {
  }

  lemma CreateKeepsPermits(s: State, a: AttemptId, output: Path, predecessor: Option<AttemptId>)
    requires PermitsOk(s) && a !in s.attempts && (predecessor.Some? ==> predecessor.value in s.attempts)
    ensures PermitsOk(CreateAttempt(s, a, output, predecessor))
  {
    var t := CreateAttempt(s, a, output, predecessor);
    StillWaiting(s, t);
    forall w | w in t.waits ensures WaitOk(t, t.waits[w]) {
      assert WaitOk(s, s.waits[w]);
    }
  }

  lemma CreateKeepsAcyclic(s: State, a: AttemptId, output: Path, predecessor: Option<AttemptId>)
    requires Inv(s) && a !in s.attempts && (predecessor.Some? ==> predecessor.value in s.attempts)
    ensures Acyclic(WaitGraph(CreateAttempt(s, a, output, predecessor)))
  {
    var t := CreateAttempt(s, a, output, predecessor);
    CreatedGraph(s, a, output, predecessor);
    var before := t.attempts[a].predecessor;
    if before.None? {
      FewerEdgesStayAcyclic(WaitGraph(t), WaitGraph(s));
    } else {
      NewNodeUnreached(s, a, before.value);
      AddEdgeStaysAcyclic(WaitGraph(s), a, before.value);
      FewerEdgesStayAcyclic(WaitGraph(t), WaitGraph(s) + {(a, before.value)});
    }
  }

  /** A new attempt adds no edge but the one to what it waits behind. */
  lemma CreatedGraph(s: State, a: AttemptId, output: Path, predecessor: Option<AttemptId>)
    requires Known(s) && a !in s.attempts && (predecessor.Some? ==> predecessor.value in s.attempts)
    ensures var t := CreateAttempt(s, a, output, predecessor);
      var before := t.attempts[a].predecessor;
      WaitGraph(t) <= WaitGraph(s) + if before.Some? then {(a, before.value)} else {}
  {
    var t := CreateAttempt(s, a, output, predecessor);
    WaitGraphEdges(s);
    WaitGraphEdges(t);
    forall e | e in WaitGraph(t)
      ensures e in WaitGraph(s) || (t.attempts[a].predecessor.Some? && e == (a, t.attempts[a].predecessor.value))
    {
      assert Edge(WaitGraph(t), e.0, e.1);
      if w :| w in t.waits && Blocks(t.waits[w], e.0, e.1) {
        assert WaitsOn(s, e.0, e.1);
      }
      assert WaitsOn(s, e.0, e.1) ==> Edge(WaitGraph(s), e.0, e.1);
    }
  }

  lemma CreateKeepsHurry(s: State, a: AttemptId, output: Path, predecessor: Option<AttemptId>)
    requires Inv(s) && a !in s.attempts && (predecessor.Some? ==> predecessor.value in s.attempts)
    ensures HurryClosed(CreateAttempt(s, a, output, predecessor))
  {
    var t := CreateAttempt(s, a, output, predecessor);
    forall x, y | WaitsOn(t, x, y) && x in t.attempts && y in t.attempts && t.attempts[x].hurried
      ensures t.attempts[y].hurried
    {
      if w :| w in t.waits && Blocks(t.waits[w], x, y) {
        assert WaitsOn(s, x, y);
      }
      assert WaitsOn(s, x, y) && x in s.attempts && y in s.attempts;
    }
  }

  /** Nothing reaches an attempt that does not exist yet. */
  lemma NewNodeUnreached(s: State, a: AttemptId, b: AttemptId)
    requires Inv(s) && a !in s.attempts && b in s.attempts
    ensures !Connected(WaitGraph(s), b, a)
  {
    WaitGraphEdges(s);
    var g := WaitGraph(s);
    forall x, y | x in s.attempts && Edge(g, x, y) ensures y in s.attempts {
      assert WaitsOn(s, x, y);
    }
    if p :| PathBetween(g, p, b, a) {
      ClosedHoldsPath(g, s.attempts.Keys, p, b, a);
    }
  }

  lemma StopKeepsInv(s: State, stopped: set<AttemptId>, doom: bool)
    requires Inv(s) && stopped <= s.attempts.Keys
    requires forall a :: a in stopped ==> Stoppable(s.attempts[a])
    ensures Inv(Stop(s, stopped, doom).state)
  {
    hide Local, HurryClosed, Acyclic, WaitGraph;
    FewerWaitsKeepGraph(s, Stop(s, stopped, doom).state);
    StopKeepsLocal(s, stopped, doom);
  }

  lemma StopKeepsLocal(s: State, stopped: set<AttemptId>, doom: bool)
    requires Local(s) && stopped <= s.attempts.Keys
    requires forall a :: a in stopped ==> Stoppable(s.attempts[a])
    ensures Local(Stop(s, stopped, doom).state)
  {
    var t := Stop(s, stopped, doom).state;
    forall w | w in t.waits ensures WaitOk(t, t.waits[w]) {
      assert WaitOk(s, s.waits[w]);
    }
    forall a | a in t.attempts && GaveBack(t.attempts[a]) ensures HasBlocked(t, a) {
      UntouchedWait(s, t, a);
    }
  }

  /** An attempt none of whose blocked waits changes still has one. */
  lemma UntouchedWait(s: State, t: State, a: AttemptId)
    requires HasBlocked(s, a)
    requires forall w :: w in s.waits && s.waits[w].state == Blocked && s.waits[w].requester == Some(a) ==>
      w in t.waits && t.waits[w] == s.waits[w]
    ensures HasBlocked(t, a)
  {
    var w :| w in s.waits && s.waits[w].state == Blocked && s.waits[w].requester == Some(a);
    assert t.waits[w].state == Blocked;
  }

  lemma DoomKeepsInv(s: State, cycle: set<AttemptId>)
    requires Inv(s)
    ensures Inv(Doom(s, cycle).state)
  {
    StopKeepsInv(s, set a | a in cycle && a in s.attempts && Stoppable(s.attempts[a]), true);
  }

  lemma OnOuterStopKeepsInv(s: State, a: AttemptId)
    requires Inv(s) && a in s.attempts
    ensures Inv(OnOuterStop(s, a).state)
  {
    if Stoppable(s.attempts[a]) {
      StopKeepsInv(s, {a}, false);
    }
  }

  /** Under the invariant two of the ways to be ready, and a third, are never taken. */
  lemma OnlyTwoWaysToBeReady(s: State, w: WaitId)
    requires Inv(s) && w in s.waits && s.waits[w].state == Blocked && s.waits[w].requester.Some?
    ensures s.waits[w].requester.value in s.attempts
    ensures var r := s.attempts[s.waits[w].requester.value]; !r.stopping && r.permit in {Released, Reacquiring}
  {
    assert WaitOk(s, s.waits[w]);
  }

  lemma CompleteKeepsInv(s: State, a: AttemptId, result: Code)
    requires Inv(s) && a in s.attempts && s.attempts[a].result.None?
    ensures Inv(Complete(s, a, result).state)
    ensures BlockedOn(Complete(s, a, result).state, a) == {}
  {
    hide Local, HurryClosed, Acyclic, WaitGraph;
    FewerWaitsKeepGraph(s, Complete(s, a, result).state);
    CompleteKeepsLocal(s, a, result);
  }

  lemma CompleteKeepsLocal(s: State, a: AttemptId, result: Code)
    requires Local(s) && a in s.attempts && s.attempts[a].result.None?
    ensures Local(Complete(s, a, result).state)
  {
    var t := Complete(s, a, result).state;
    CompleteKeepsKnown(s, a, result);
    forall w | w in t.waits ensures WaitOk(t, t.waits[w]) {
      CompleteKeepsWait(s, a, result, w);
    }
    forall r | r in t.attempts && GaveBack(t.attempts[r]) ensures HasBlocked(t, r) {
      CompleteKeepsWaiting(s, a, result, r);
    }
  }

  lemma CompleteKeepsKnown(s: State, a: AttemptId, result: Code)
    requires Known(s) && a in s.attempts
    ensures Known(Complete(s, a, result).state)
  {
  }

  lemma CompleteKeepsWaiting(s: State, a: AttemptId, result: Code, r: AttemptId)
    requires PermitsOk(s) && a in s.attempts && r in s.attempts && GaveBack(Complete(s, a, result).state.attempts[r])
    ensures HasBlocked(Complete(s, a, result).state, r)
  {
    var t := Complete(s, a, result).state;
    assert forall w :: w in BlockedOn(s, a) && s.waits[w].requester == Some(r) ==>
      Asks(WithResult(s, a, result), BlockedOn(s, a), r);
    UntouchedWait(s, t, r);
  }

  lemma CompleteKeepsWait(s: State, a: AttemptId, result: Code, w: WaitId)
    requires a in s.attempts && s.attempts[a].result.None? && w in s.waits && WaitOk(s, s.waits[w])
    ensures WaitOk(Complete(s, a, result).state, Complete(s, a, result).state.waits[w])
  {
    if w in BlockedOn(s, a) && s.waits[w].requester.Some? {
      assert Asks(WithResult(s, a, result), BlockedOn(s, a), s.waits[w].requester.value);
    }
  }

  /** A take-back is granted, or refused to an attempt being stopped, or one with a request that still waits. */
  ghost predicate Reacquirable(s: State, a: AttemptId, granted: bool) {
    && a in s.attempts && s.attempts[a].permit == Reacquiring
    && (granted || s.attempts[a].stopping || HasBlocked(s, a))
  }

  /** A take-back answered, by whatever answer, keeps the invariant but when an attempt is to go on without a permit for nothing. */
  lemma OnReacquiredKeepsInv(s: State, a: AttemptId, granted: bool)
    requires Inv(s) && a in s.attempts && s.attempts[a].permit == Reacquiring
    ensures Inv(OnReacquired(s, a, granted).state) <==> Reacquirable(s, a, granted)
  {
    if Reacquirable(s, a, granted) {
      hide Local, HurryClosed, Acyclic, WaitGraph;
      FewerWaitsKeepGraph(s, OnReacquired(s, a, granted).state);
      OnReacquiredKeepsLocal(s, a, granted);
    } else {
      RefusedForNothing(s, a);
    }
  }

  lemma RefusedForNothing(s: State, a: AttemptId)
    requires Local(s) && a in s.attempts && s.attempts[a].permit == Reacquiring
    requires !s.attempts[a].stopping && !HasBlocked(s, a)
    ensures !Local(OnReacquired(s, a, false).state)
  {
    var t := OnReacquired(s, a, false).state;
    assert AttemptOk(s.attempts[a]);
    assert GaveBack(t.attempts[a]) && !HasBlocked(t, a);
  }

  lemma OnReacquiredKeepsLocal(s: State, a: AttemptId, granted: bool)
    requires Local(s) && Reacquirable(s, a, granted)
    ensures Local(OnReacquired(s, a, granted).state)
  {
    var t := OnReacquired(s, a, granted).state;
    OnReacquiredKeepsKnown(s, a, granted);
    OnReacquiredAttempts(s, a, granted);
    hide OnReacquired, Reacquirable, WaitOk, AttemptOk, HasBlocked, Known;
    forall w | w in t.waits ensures WaitOk(t, t.waits[w]) {
      OnReacquiredKeepsWait(s, a, granted, w);
    }
    forall r | r in t.attempts && GaveBack(t.attempts[r]) ensures HasBlocked(t, r) {
      OnReacquiredKeepsWaiting(s, a, granted, r);
    }
  }

  lemma OnReacquiredKeepsKnown(s: State, a: AttemptId, granted: bool)
    requires Local(s) && Reacquirable(s, a, granted)
    ensures Known(OnReacquired(s, a, granted).state)
  {
  }

  lemma OnReacquiredAttempts(s: State, a: AttemptId, granted: bool)
    requires Local(s) && Reacquirable(s, a, granted)
    ensures var t := OnReacquired(s, a, granted).state;
      && t.waits.Keys == s.waits.Keys && t.attempts.Keys == s.attempts.Keys
      && forall r :: r in t.attempts ==> AttemptOk(t.attempts[r])
  {
    assert AttemptOk(s.attempts[a]);
  }

  lemma OnReacquiredKeepsWaiting(s: State, a: AttemptId, granted: bool, r: AttemptId)
    requires Local(s) && Reacquirable(s, a, granted) && r in s.attempts
    requires r in OnReacquired(s, a, granted).state.attempts && GaveBack(OnReacquired(s, a, granted).state.attempts[r])
    ensures HasBlocked(OnReacquired(s, a, granted).state, r)
  {
    var t := OnReacquired(s, a, granted).state;
    if r == a && granted {
      var w :| w in t.waits && t.waits[w].state == Blocked && t.waits[w].requester == Some(a);
    } else if r == a {
      var w :| w in s.waits && s.waits[w].state == Blocked && s.waits[w].requester == Some(a);
      assert t.waits[w] == s.waits[w];
    } else {
      StillWaiting(s, t);
    }
  }

  lemma OnReacquiredKeepsWait(s: State, a: AttemptId, granted: bool, w: WaitId)
    requires Local(s) && Reacquirable(s, a, granted) && w in s.waits
    ensures WaitOk(OnReacquired(s, a, granted).state, OnReacquired(s, a, granted).state.waits[w])
  {
    var t := OnReacquired(s, a, granted).state;
    assert WaitOk(s, s.waits[w]);
    if t.waits[w].state == Blocked && t.waits[w].requester == Some(a) {
      assert s.waits[w] == t.waits[w];
      assert granted ==> t.attempts[a].permit == Released;
    }
  }

  lemma CancelWaitKeepsInv(s: State, w: WaitId)
    requires Inv(s) && w in s.waits
    ensures s.waits[w].requester.Some? ==> s.waits[w].requester.value in s.attempts
    ensures Inv(CancelWait(s, w).state)
  {
    assert s.waits[w].requester.Some? ==> s.waits[w].requester.value in s.attempts;
    hide Local, HurryClosed, Acyclic, WaitGraph;
    FewerWaitsKeepGraph(s, CancelWait(s, w).state);
    if Live(s.waits[w]) {
      CancelWaitKeepsLocal(s, w);
    }
  }

  lemma CancelWaitKeepsLocal(s: State, w: WaitId)
    requires Local(s) && w in s.waits && Live(s.waits[w])
    ensures Local(CancelWait(s, w).state)
  {
    var t := CancelWait(s, w).state;
    forall v | v in t.waits ensures WaitOk(t, t.waits[v]) {
      assert WaitOk(s, s.waits[v]);
    }
    forall r | r in t.attempts && GaveBack(t.attempts[r]) ensures HasBlocked(t, r) {
      if s.waits[w].requester == Some(r) {
        LeftWaiting(s, w, r);
      } else {
        UntouchedWait(s, t, r);
      }
    }
  }

  /** A wait that leaves an attempt without a permit leaves another behind, or starts a take-back. */
  lemma LeftWaiting(s: State, w: WaitId, r: AttemptId)
    requires Local(s) && w in s.waits && Live(s.waits[w]) && s.waits[w].requester == Some(r)
    requires r in s.attempts && GaveBack(CancelWait(s, w).state.attempts[r])
    ensures HasBlocked(CancelWait(s, w).state, r)
  {
    var t := CancelWait(s, w).state;
    var answered := s.(waits := Answered(s.waits, {w}, Canceled));
    assert t.attempts[r] == s.attempts[r];
    assert HasLive(answered, r);
    var u :| u in answered.waits && MadeBy(answered.waits[u], r);
    assert WaitOk(s, s.waits[u]);
    assert t.waits[u] == s.waits[u];
  }

  lemma FinishKeepsInv(s: State, a: AttemptId)
    requires Inv(s) && a in s.attempts && s.attempts[a].phase == Running
    ensures Inv(Finish(s, a).state)
  {
    hide Local, HurryClosed, Acyclic, WaitGraph;
    FewerWaitsKeepGraph(s, Finish(s, a).state);
    FinishKeepsLocal(s, a);
  }

  lemma FinishKeepsLocal(s: State, a: AttemptId)
    requires Local(s) && a in s.attempts && s.attempts[a].phase == Running
    ensures Local(Finish(s, a).state)
  {
    var t := Finish(s, a).state;
    assert AttemptOk(s.attempts[a]);
    forall w | w in t.waits ensures WaitOk(t, t.waits[w]) {
      assert WaitOk(s, s.waits[w]);
    }
    forall r | r in t.attempts && GaveBack(t.attempts[r]) ensures HasBlocked(t, r) {
      UntouchedWait(s, t, r);
    }
  }

  // ---- A new wait ------------------------------------------------------------------------------

  /** What `wait` has checked before it adds a wait: nothing to answer with yet, and no cycle to close. */
  ghost predicate Blockable(s: State, w: WaitId, target: AttemptId, requester: Option<AttemptId>) {
    && w !in s.waits
    && target in s.attempts && s.attempts[target].result.None?
    && (requester.Some? ==>
          && requester.value in s.attempts && Stoppable(s.attempts[requester.value])
          && !Connected(WaitGraph(s), target, requester.value))
  }

  lemma AddedWaitEdges(s: State, w: WaitId, target: AttemptId, requester: Option<AttemptId>)
    requires w !in s.waits
    ensures forall a, b :: WaitsOn(WithWait(s, w, target, requester), a, b) <==>
      WaitsOn(s, a, b) || (requester == Some(a) && target == b)
  {
    var t := WithWait(s, w, target, requester);
    forall a, b ensures WaitsOn(t, a, b) <==> WaitsOn(s, a, b) || (requester == Some(a) && target == b) {
      if v :| v in s.waits && Blocks(s.waits[v], a, b) {
        assert v in t.waits && Blocks(t.waits[v], a, b);
      }
      if requester == Some(a) && target == b {
        assert w in t.waits && Blocks(t.waits[w], a, b);
      }
      if v :| v in t.waits && Blocks(t.waits[v], a, b) {
        assert v != w ==> v in s.waits && Blocks(s.waits[v], a, b);
      }
    }
  }

  lemma AddedWaitGraph(s: State, w: WaitId, target: AttemptId, requester: Option<AttemptId>)
    requires w !in s.waits
    ensures WaitGraph(WithWait(s, w, target, requester))
      == WaitGraph(s) + if requester.Some? then {(requester.value, target)} else {}
  {
    var t := WithWait(s, w, target, requester);
    AddedWaitEdges(s, w, target, requester);
    WaitGraphEdges(s);
    WaitGraphEdges(t);
    var g := WaitGraph(s) + if requester.Some? then {(requester.value, target)} else {};
    forall e ensures e in WaitGraph(t) <==> e in g {
      assert Edge(WaitGraph(t), e.0, e.1) <==> WaitsOn(t, e.0, e.1);
      assert Edge(WaitGraph(s), e.0, e.1) <==> WaitsOn(s, e.0, e.1);
    }
  }

  lemma BlockKeepsAcyclic(s: State, w: WaitId, target: AttemptId, requester: Option<AttemptId>)
    requires Inv(s) && Blockable(s, w, target, requester)
    ensures Acyclic(WaitGraph(WithWait(s, w, target, requester)))
  {
    AddedWaitGraph(s, w, target, requester);
    if requester.Some? {
      AddEdgeStaysAcyclic(WaitGraph(s), requester.value, target);
    } else {
      assert WaitGraph(s) + {} == WaitGraph(s);
    }
  }

  /** Changes to attempts that leave phases and predecessors alone leave the graph alone. */
  lemma SameGraph(s: State, t: State)
    requires t.waits == s.waits && t.attempts.Keys == s.attempts.Keys
    requires forall a :: a in s.attempts ==>
      t.attempts[a].phase == s.attempts[a].phase && t.attempts[a].predecessor == s.attempts[a].predecessor
    ensures WaitGraph(t) == WaitGraph(s)
    ensures forall a, b :: WaitsOn(t, a, b) <==> WaitsOn(s, a, b)
  {
    WaitGraphEdges(s);
    WaitGraphEdges(t);
    assert forall a, b :: WaitsOn(t, a, b) <==> WaitsOn(s, a, b);
    forall e ensures e in WaitGraph(t) <==> e in WaitGraph(s) {
      assert Edge(WaitGraph(t), e.0, e.1) <==> Edge(WaitGraph(s), e.0, e.1);
    }
  }

  /** Hurrying all that a target waits on closes the hurried set again, the new wait included. */
  lemma BlockKeepsHurry(s: State, w: WaitId, target: AttemptId, requester: Option<AttemptId>)
    requires Inv(s) && Blockable(s, w, target, requester)
    ensures HurryClosed(Block(s, w, target, requester).state)
  {
    var t := Block(s, w, target, requester).state;
    BlockWaitsOn(s, w, target, requester);
    hide Local, Acyclic, WaitGraph, Block, WaitsOn, Blockable;
    forall a, b | WaitsOn(t, a, b) && a in t.attempts && b in t.attempts && t.attempts[a].hurried
      ensures t.attempts[b].hurried
    {
      BlockHurries(s, w, target, requester, a, b);
    }
  }

  lemma BlockWaitsOn(s: State, w: WaitId, target: AttemptId, requester: Option<AttemptId>)
    requires Blockable(s, w, target, requester)
    ensures var t := Block(s, w, target, requester).state;
      && t.attempts.Keys == s.attempts.Keys
      && forall a, b :: WaitsOn(t, a, b) ==> WaitsOn(s, a, b) || (requester == Some(a) && target == b)
  {
    BlockAttempts(s, w, target, requester);
    hide WaitsOn, WaitGraph, Block;
    AddedWaitEdges(s, w, target, requester);
    SameGraph(WithWait(s, w, target, requester), Block(s, w, target, requester).state);
  }

  /** What a new wait leaves of an attempt. */
  predicate LeftBy(x: Attempt, y: Attempt, asks: bool) {
    && y == x.(hurried := y.hurried, permit := y.permit)
    && y.permit == if asks && x.permit == Held then Released else x.permit
  }

  lemma BlockAttempts(s: State, w: WaitId, target: AttemptId, requester: Option<AttemptId>)
    requires Blockable(s, w, target, requester)
    ensures var t := Block(s, w, target, requester).state;
      && t.attempts.Keys == s.attempts.Keys && t.waits == WithWait(s, w, target, requester).waits
      && forall a :: a in s.attempts ==> LeftBy(s.attempts[a], t.attempts[a], requester == Some(a))
  {
    hide WaitGraph, Connected, Upstream;
  }

  lemma BlockHurries(s: State, w: WaitId, target: AttemptId, requester: Option<AttemptId>, a: AttemptId, b: AttemptId)
    requires HurryClosed(s) && Blockable(s, w, target, requester) && a in s.attempts && b in s.attempts
    requires WaitsOn(s, a, b) || (requester == Some(a) && target == b)
    requires Block(s, w, target, requester).state.attempts[a].hurried
    ensures Block(s, w, target, requester).state.attempts[b].hurried
  {
    var added := WithWait(s, w, target, requester);
    AddedWaitEdges(s, w, target, requester);
    WaitGraphEdges(added);
    var g := WaitGraph(added);
    var upstream := Upstream(added, target);
    assert Edge(g, a, b);
    EmptyPath(g, target);
    EmptyPath(g, b);
    Prepend(g, a, b, b);
    if a in upstream && !s.attempts[a].hurried {
      Join(g, target, a, b);
      assert b in upstream;
    } else if requester == Some(a) && target == b {
      assert b in upstream;
    }
  }

  lemma BlockKeepsLocal(s: State, w: WaitId, target: AttemptId, requester: Option<AttemptId>)
    requires Local(s) && Blockable(s, w, target, requester)
    ensures Local(Block(s, w, target, requester).state)
  {
    var t := Block(s, w, target, requester).state;
    BlockAttempts(s, w, target, requester);
    BlockKeepsKnown(s, w, target, requester);
    hide Connected, WaitGraph, WaitOk, Block, Known;
    forall a | a in t.attempts ensures AttemptOk(t.attempts[a]) {
      assert AttemptOk(s.attempts[a]) && LeftBy(s.attempts[a], t.attempts[a], requester == Some(a));
    }
    forall v | v in t.waits ensures WaitOk(t, t.waits[v]) {
      BlockKeepsWait(s, w, target, requester, v);
    }
    forall r | r in t.attempts && GaveBack(t.attempts[r]) ensures HasBlocked(t, r) {
      assert LeftBy(s.attempts[r], t.attempts[r], requester == Some(r));
      BlockKeepsWaiting(s, w, target, requester, r, t);
    }
  }

  lemma BlockKeepsWaiting(s: State, w: WaitId, target: AttemptId, requester: Option<AttemptId>, r: AttemptId, t: State)
    requires w !in s.waits && t.waits == WithWait(s, w, target, requester).waits
    requires requester == Some(r) || HasBlocked(s, r)
    ensures HasBlocked(t, r)
  {
    if requester == Some(r) {
      assert t.waits[w].state == Blocked;
    } else {
      UntouchedWait(s, t, r);
    }
  }

  lemma BlockKeepsKnown(s: State, w: WaitId, target: AttemptId, requester: Option<AttemptId>)
    requires Known(s) && Blockable(s, w, target, requester)
    ensures Known(Block(s, w, target, requester).state)
  {
    hide WaitGraph, Connected, Upstream;
  }

  lemma BlockKeepsWait(s: State, w: WaitId, target: AttemptId, requester: Option<AttemptId>, v: WaitId)
    requires Blockable(s, w, target, requester) && (v in s.waits ==> WaitOk(s, s.waits[v])) && (v == w || v in s.waits)
    requires requester.Some? ==> AttemptOk(s.attempts[requester.value])
    ensures WaitOk(Block(s, w, target, requester).state, Block(s, w, target, requester).state.waits[v])
  {
    hide WaitGraph, Connected, Upstream;
  }

  lemma BlockKeepsInv(s: State, w: WaitId, target: AttemptId, requester: Option<AttemptId>)
    requires Inv(s) && Blockable(s, w, target, requester)
    ensures Inv(Block(s, w, target, requester).state)
  {
    hide Local, HurryClosed, Acyclic, WaitGraph, Upstream;
    BlockKeepsAcyclic(s, w, target, requester);
    SameGraph(WithWait(s, w, target, requester), Block(s, w, target, requester).state);
    BlockKeepsHurry(s, w, target, requester);
    BlockKeepsLocal(s, w, target, requester);
  }
}
