/** Taking waits and attempts one at a time, as the coordinator's loops do, comes to the same as taking them at once. */
module CoordinatorRounds {
  import opened Wrappers
  import opened Graphs
  import opened CoordinatorModel
  import opened CoordinatorInvariants

  /** What two changes, one after the other, leave to be done. */
  function Both(e: Effects, f: Effects): Effects {
    Effects(e.stopReacquires + f.stopReacquires, e.stopAttempts + f.stopAttempts, e.reacquires + f.reacquires,
            e.drains + f.drains, e.answered + f.answered, e.released + f.released)
  }

  lemma BothAssociates(e: Effects, f: Effects, g: Effects)
    ensures Both(Both(e, f), g) == Both(e, Both(f, g))
  {
    assert (e.stopReacquires + f.stopReacquires) + g.stopReacquires == e.stopReacquires + (f.stopReacquires + g.stopReacquires);
    assert (e.stopAttempts + f.stopAttempts) + g.stopAttempts == e.stopAttempts + (f.stopAttempts + g.stopAttempts);
    assert (e.reacquires + f.reacquires) + g.reacquires == e.reacquires + (f.reacquires + g.reacquires);
    assert (e.drains + f.drains) + g.drains == e.drains + (f.drains + g.drains);
    assert (e.answered + f.answered) + g.answered == e.answered + (f.answered + g.answered);
    assert (e.released + f.released) + g.released == e.released + (f.released + g.released);
  }

  lemma NothingAfter(e: Effects)
    ensures Both(e, NoEffects) == e && Both(NoEffects, e) == e
  {
    assert forall x: set<int> :: x + {} == x && {} + x == x;
  }

  lemma AnsweredOneMore(waits: map<WaitId, Wait>, done: set<WaitId>, w: WaitId, result: Code)
    ensures Answered(Answered(waits, done, result), {w}, result) == Answered(waits, done + {w}, result)
  {
  }

  /** Of the ready waits of `a`, those of `done` answered as its permit comes back, or does not. */
  function Settled(s: State, a: AttemptId, granted: bool, done: set<WaitId>): map<WaitId, Wait>
    requires a in s.attempts
  {
    map w | w in s.waits ::
      if w in done && w in ReadyOf(s, a) then
        s.waits[w].(state := Done, result := if granted && !s.attempts[a].stopping then s.waits[w].result else Canceled)
      else s.waits[w]
  }

  lemma SettledOneMore(s: State, a: AttemptId, granted: bool, done: set<WaitId>, w: WaitId)
    requires a in s.attempts && w in s.waits && w !in done
    ensures w !in ReadyOf(s, a) ==> Settled(s, a, granted, done + {w}) == Settled(s, a, granted, done)
    ensures w in ReadyOf(s, a) ==>
      var result := if granted && !s.attempts[a].stopping then s.waits[w].result else Canceled;
      Settled(s, a, granted, done + {w}) == Answered(Settled(s, a, granted, done), {w}, result)
  {
  }

  /** The result of `a` is set; its waits are ready one by one. */
  lemma ReadyOneMore(s: State, ready: set<WaitId>, w: WaitId, result: Code)
    requires w in s.waits && w !in ready && s.waits[w].state == Blocked
    requires s.waits[w].requester.Some? ==>
      var r := s.waits[w].requester.value;
      r in s.attempts && !s.attempts[r].stopping && s.attempts[r].permit in {Released, Reacquiring}
    ensures var o, all := ReadyAll(s, ready, result), ReadyAll(s, ready + {w}, result);
      var one := ReadyOne(o.state, w, result);
      one.state == all.state && Both(o.effects, one.effects) == all.effects
    ensures var t := ReadyAll(s, ready, result).state;
      && w in t.waits && t.waits[w] == s.waits[w]
      && (s.waits[w].requester.Some? ==> s.waits[w].requester.value in t.attempts)
  {
    var o, all := ReadyAll(s, ready, result), ReadyAll(s, ready + {w}, result);
    var one := ReadyOne(o.state, w, result);
    assert o.state.waits[w] == s.waits[w];
    ReadyOneMoreAsks(s, ready, w);
    hide Asks;
    ReadyOneMoreWaits(s, ready, w, result);
    assert one.state.attempts == all.state.attempts;
    assert o.effects.reacquires + one.effects.reacquires == all.effects.reacquires;
    assert o.effects.answered + one.effects.answered == all.effects.answered;
  }

  lemma ReadyOneMoreWaits(s: State, ready: set<WaitId>, w: WaitId, result: Code)
    requires w in s.waits && w !in ready && s.waits[w].state == Blocked
    requires s.waits[w].requester.Some? ==>
      var r := s.waits[w].requester.value;
      r in s.attempts && !s.attempts[r].stopping && s.attempts[r].permit in {Released, Reacquiring}
    ensures ReadyOne(ReadyAll(s, ready, result).state, w, result).state.waits == ReadyAll(s, ready + {w}, result).state.waits
  {
    hide Asks;
    assert ReadyAll(s, ready, result).state.waits[w] == s.waits[w];
  }

  lemma ReadyOneMoreAsks(s: State, ready: set<WaitId>, w: WaitId)
    requires w in s.waits
    ensures forall r :: Asks(s, ready + {w}, r) <==> Asks(s, ready, r) || s.waits[w].requester == Some(r)
  {
    forall r ensures Asks(s, ready + {w}, r) <==> Asks(s, ready, r) || s.waits[w].requester == Some(r) {
      assert w in ready + {w};
      if v :| v in ready && v in s.waits && s.waits[v].requester == Some(r) {
        assert v in ready + {w};
      }
    }
  }

  lemma ReadyNone(s: State, result: Code)
    ensures ReadyAll(s, {}, result) == Outcome(s, NoEffects)
  {
    assert ReadyAll(s, {}, result).state.waits == s.waits;
    assert ReadyAll(s, {}, result).state.attempts == s.attempts;
  }

  /** Stopping one more attempt, once others are stopped. */
  lemma StopOneMore(s: State, stopped: set<AttemptId>, a: AttemptId, doom: bool)
    requires stopped <= s.attempts.Keys && a in s.attempts && a !in stopped
    ensures var o, all := Stop(s, stopped, doom), Stop(s, stopped + {a}, doom);
      var one := Stop(o.state, {a}, doom);
      one.state == all.state && Both(o.effects, one.effects) == all.effects
  {
    var o, all := Stop(s, stopped, doom), Stop(s, stopped + {a}, doom);
    var one := Stop(o.state, {a}, doom);
    assert one.state.waits == all.state.waits;
    assert one.state.attempts == all.state.attempts;
    assert o.effects.stopReacquires + one.effects.stopReacquires == all.effects.stopReacquires;
    assert o.effects.answered + one.effects.answered == all.effects.answered;
  }

  lemma StopNone(s: State, doom: bool)
    ensures Stop(s, {}, doom) == Outcome(s, NoEffects)
  {
    var o := Stop(s, {}, doom);
    assert o.state.waits == s.waits;
    assert o.state.attempts == s.attempts;
    assert LiveOf(s, {}) == {};
    assert o.effects.stopReacquires == {};
  }

  /** An attempt marked as stopping, its waits then ended, is stopped. */
  lemma StopsOne(s: State, a: AttemptId, e: Effects)
    requires a in s.attempts
    ensures var marked := s.(attempts := s.attempts[a := s.attempts[a].(stopping := true)]);
      var answered := Both(e, NoEffects.(answered := LiveOf(marked, {a})));
      var stopped := if s.attempts[a].permit == Reacquiring then Both(answered, NoEffects.(stopReacquires := {a})) else answered;
      && marked.(waits := Answered(marked.waits, LiveOf(marked, {a}), Canceled)) == Stop(s, {a}, false).state
      && Both(stopped, NoEffects.(stopAttempts := {a})) == Both(e, Stop(s, {a}, false).effects)
  {
    var marked := s.(attempts := s.attempts[a := s.attempts[a].(stopping := true)]);
    assert LiveOf(marked, {a}) == LiveOf(s, {a});
    assert marked.attempts == Stop(s, {a}, false).state.attempts;
    assert Stop(s, {a}, false).effects.stopReacquires == if s.attempts[a].permit == Reacquiring then {a} else {};
    assert forall x: set<int> :: x + {} == x;
  }

  lemma SettledAll(s: State, a: AttemptId, granted: bool, made: set<WaitId>)
    requires a in s.attempts && forall w :: w in s.waits && MadeBy(s.waits[w], a) ==> w in made
    ensures Settled(s, a, granted, made) == Settled(s, a, granted, ReadyOf(s, a))
    ensures made * ReadyOf(s, a) == ReadyOf(s, a)
  {
    forall w ensures w in made * ReadyOf(s, a) <==> w in ReadyOf(s, a) {
      assert w in ReadyOf(s, a) ==> MadeBy(s.waits[w], a);
    }
  }

  lemma SameWaitsSameBlocked(s: State, t: State, a: AttemptId)
    requires s.waits == t.waits
    ensures HasBlocked(s, a) == HasBlocked(t, a)
  {
  }

  function Undrained(s: State, a: AttemptId): State
    requires a in s.attempts
  {
    s.(attempts := s.attempts[a := s.attempts[a].(draining := false)])
  }

  lemma GiveBackUndrained(s: State, a: AttemptId)
    requires a in s.attempts
    ensures a in GiveBackIfWaiting(s, a).state.attempts
    ensures GiveBackIfWaiting(Undrained(s, a), a)
      == Outcome(Undrained(GiveBackIfWaiting(s, a).state, a), GiveBackIfWaiting(s, a).effects)
    ensures s.attempts[a].permit != Held ==> GiveBackIfWaiting(s, a) == Outcome(s, NoEffects)
    ensures GiveBackIfWaiting(s, a).state.attempts[a].draining == s.attempts[a].draining
    ensures GiveBackIfWaiting(s, a).effects.drains == GiveBackIfWaiting(s, a).effects.answered == {}
  {
    SameWaitsSameBlocked(s, Undrained(s, a), a);
    hide HasBlocked;
  }

  lemma WithDrains(answered: set<WaitId>, e: Effects, drains: set<AttemptId>)
    requires e.drains == e.answered == {}
    ensures Both(Both(NoEffects.(answered := answered), e), NoEffects.(drains := drains))
      == e.(answered := answered, drains := drains)
    ensures Both(NoEffects.(answered := answered), e) == e.(answered := answered, drains := {})
  {
    assert forall x: set<int> :: x + {} == x && {} + x == x;
  }

  /** As the permit comes back, or does not, before and after what is ready is answered. */
  function Back(s: State, a: AttemptId, granted: bool): State
    requires a in s.attempts
  {
    s.(attempts := s.attempts[a := s.attempts[a].(permit := if granted then Held else Released)])
  }

  function BackAndSettled(s: State, a: AttemptId, granted: bool): State
    requires a in s.attempts
  {
    var back := Back(s, a, granted);
    back.(waits := Settled(back, a, granted, ReadyOf(back, a)))
  }

  /** A take-back's answer in the order the coordinator gives it: permit, waits, permit back, drain. */
  lemma ReacquiredAsOne(s: State, a: AttemptId, granted: bool)
    requires a in s.attempts
    ensures var given := GiveBackIfWaiting(BackAndSettled(s, a, granted), a);
      var f := Both(NoEffects.(answered := ReadyOf(Back(s, a, granted), a)), given.effects);
      && a in given.state.attempts && given.state.attempts[a].draining == s.attempts[a].draining
      && OnReacquired(s, a, granted) ==
         if s.attempts[a].draining then Outcome(Undrained(given.state, a), Both(f, NoEffects.(drains := {a})))
         else Outcome(given.state, f)
  {
    var s2 := BackAndSettled(s, a, granted);
    var given := GiveBackIfWaiting(s2, a);
    SettledWaits(s, a, granted);
    GiveBackUndrained(s2, a);
    WithDrains(ReadyOf(s, a), given.effects, {a});
    hide GiveBackIfWaiting, ReadyOf, Settled;
    if !s.attempts[a].draining {
      assert Undrained(s2, a) == s2;
    }
  }

  lemma SettledWaits(s: State, a: AttemptId, granted: bool)
    requires a in s.attempts
    ensures ReadyOf(Back(s, a, granted), a) == ReadyOf(s, a)
    ensures BackAndSettled(s, a, granted).waits == map w | w in s.waits ::
      if w in ReadyOf(s, a) then
        s.waits[w].(state := Done, result := if granted && !s.attempts[a].stopping then s.waits[w].result else Canceled)
      else s.waits[w]
  {
    assert ReadyOf(Back(s, a, granted), a) == ReadyOf(s, a);
  }

  /** What a wait blocked on an attempt is sure of: its requester can take its permit back. */
  lemma BlockedIsTakeable(s: State, a: AttemptId, w: WaitId)
    requires Inv(s) && a in s.attempts && w in BlockedOn(s, a)
    ensures s.waits[w].requester.Some? ==>
      var r := s.waits[w].requester.value;
      r in s.attempts && !s.attempts[r].stopping && s.attempts[r].permit in {Released, Reacquiring}
  {
    assert WaitOk(s, s.waits[w]);
  }

  /** Marking an attempt ended, its waits then ended, is all that finishing is. */
  lemma FinishAsOne(s: State, a: AttemptId)
    requires a in s.attempts
    ensures var outstanding := s.attempts[a].permit == Reacquiring;
      var ended := s.(attempts := s.attempts[a := s.attempts[a].(phase := Ended, stopping := true, draining := outstanding)],
                      running := s.running - {s.attempts[a].output});
      var f := NoEffects.(answered := LiveOf(ended, {a}));
      && ended.(waits := Answered(ended.waits, LiveOf(ended, {a}), Canceled)) == Finish(s, a).state
      && (if outstanding then Both(f, NoEffects.(stopReacquires := {a})) else Both(f, NoEffects.(drains := {a})))
         == Finish(s, a).effects
  {
    var ended := s.(attempts := s.attempts[a := s.attempts[a].(phase := Ended, stopping := true,
      draining := s.attempts[a].permit == Reacquiring)], running := s.running - {s.attempts[a].output});
    assert LiveOf(ended, {a}) == LiveOf(s, {a});
    assert forall x: set<int> :: x + {} == x && {} + x == x;
  }

  /** Marking an attempt doomed and then stopping it is dooming it. */
  lemma DoomsOne(s: State, a: AttemptId)
    requires a in s.attempts
    ensures Stop(s.(attempts := s.attempts[a := s.attempts[a].(doomed := true)]), {a}, false) == Stop(s, {a}, true)
  {
    var marked := s.(attempts := s.attempts[a := s.attempts[a].(doomed := true)]);
    assert LiveOf(marked, {a}) == LiveOf(s, {a});
    assert Stop(marked, {a}, false).state.attempts == Stop(s, {a}, true).state.attempts;
    assert Stop(marked, {a}, false).effects.stopReacquires == Stop(s, {a}, true).effects.stopReacquires;
  }

  /** Dooming what is running on a path, one attempt at a time. */
  lemma DoomOneMore(s: State, cycle: set<AttemptId>, a: AttemptId)
    requires a in s.attempts
    ensures var o, all := Doom(s, cycle), Doom(s, cycle + {a});
      && a in o.state.attempts
      && if Stoppable(o.state.attempts[a]) then
           var one := Stop(o.state, {a}, true);
           one.state == all.state && Both(o.effects, one.effects) == all.effects
         else all == o
  {
    var stopped := set b | b in cycle && b in s.attempts && Stoppable(s.attempts[b]);
    var more := set b | b in cycle + {a} && b in s.attempts && Stoppable(s.attempts[b]);
    if Stoppable(s.attempts[a]) && a !in stopped {
      assert more == stopped + {a};
      StopOneMore(s, stopped, a, true);
    } else {
      assert more == stopped;
    }
  }

  lemma DoomNone(s: State)
    ensures Doom(s, {}) == Outcome(s, NoEffects)
  {
    StopNone(s, true);
  }

  // ---- Hurrying --------------------------------------------------------------------------------

  /** From `target` on, all that something hurried waits on is hurried. */
  ghost predicate ClosedBelow(s: State, target: AttemptId) {
    forall a, b :: a in Upstream(s, target) && Edge(WaitGraph(s), a, b) && b in s.attempts && s.attempts[a].hurried ==>
      s.attempts[b].hurried
  }

  ghost predicate Marked(s: State, newly: set<AttemptId>, a: AttemptId) {
    a in s.attempts && (s.attempts[a].hurried || a in newly)
  }

  /** How far a search that stops at what is hurried has got. */
  ghost predicate Hurrying(s: State, target: AttemptId, newly: set<AttemptId>, stack: seq<AttemptId>) {
    && (forall a :: a in newly ==> a in Upstream(s, target) && !s.attempts[a].hurried)
    && (forall a :: a in stack ==> a in Upstream(s, target))
    && (Marked(s, newly, target) || target in stack)
    && forall a, b :: a in newly && Edge(WaitGraph(s), a, b) ==> Marked(s, newly, b) || b in stack
  }

  lemma HurryGraph(s: State, newly: set<AttemptId>)
    ensures WaitGraph(CoordinatorModel.Hurry(s, newly)) == WaitGraph(s)
  {
    SameGraph(s, CoordinatorModel.Hurry(s, newly));
  }

  lemma HurryBegins(s: State, target: AttemptId)
    requires target in s.attempts
    ensures Hurrying(s, target, {}, [target]) && CoordinatorModel.Hurry(s, {}) == s
  {
    EmptyPath(WaitGraph(s), target);
    assert CoordinatorModel.Hurry(s, {}).attempts == s.attempts;
  }

  lemma HurryOneMore(s: State, newly: set<AttemptId>, node: AttemptId)
    requires node in s.attempts
    ensures var t := CoordinatorModel.Hurry(s, newly);
      && t.attempts.Keys == s.attempts.Keys
      && (t.attempts[node].hurried <==> Marked(s, newly, node))
      && t.(attempts := t.attempts[node := t.attempts[node].(hurried := true)]) == CoordinatorModel.Hurry(s, newly + {node})
  {
    var t := CoordinatorModel.Hurry(s, newly);
    assert t.attempts[node := t.attempts[node].(hurried := true)] == CoordinatorModel.Hurry(s, newly + {node}).attempts;
  }

  /** What is hurried already needs no second look. */
  lemma HurryPasses(s: State, target: AttemptId, newly: set<AttemptId>, stack: seq<AttemptId>, node: AttemptId)
    requires Hurrying(s, target, newly, stack + [node]) && Marked(s, newly, node)
    ensures Hurrying(s, target, newly, stack)
  {
    hide WaitGraph, Upstream;
    assert forall a :: a in stack ==> a in stack + [node];
    assert forall a :: a in stack + [node] ==> a in stack || a == node;
  }

  lemma HurryGoesOn(s: State, target: AttemptId, newly: set<AttemptId>, stack: seq<AttemptId>, node: AttemptId,
                    nexts: set<AttemptId>, more: seq<AttemptId>)
    requires Hurrying(s, target, newly, stack + [node]) && node in s.attempts && !Marked(s, newly, node)
    requires nexts <= s.attempts.Keys && forall x :: Edge(WaitGraph(s), node, x) <==> x in nexts
    requires forall x :: x in more <==> x in stack || x in nexts
    ensures Hurrying(s, target, newly + {node}, more)
  {
    hide WaitGraph;
    var whole := stack + [node];
    assert forall a :: a in stack ==> a in whole;
    assert node in whole;
    assert forall a :: a in whole ==> a in stack || a == node;
    forall x | x in nexts ensures x in Upstream(s, target) {
      EmptyPath(WaitGraph(s), x);
      Prepend(WaitGraph(s), node, x, x);
      Join(WaitGraph(s), target, node, x);
    }
  }

  /** Nothing left to look at: all that the target waits on is hurried, and no other was. */
  lemma HurryEnds(s: State, target: AttemptId, newly: set<AttemptId>)
    requires Known(s) && Hurrying(s, target, newly, []) && ClosedBelow(s, target)
    ensures CoordinatorModel.Hurry(s, newly) == CoordinatorModel.Hurry(s, Upstream(s, target))
    ensures forall a :: a in newly <==> a in Upstream(s, target) && !s.attempts[a].hurried
  {
    forall a | a in Upstream(s, target) ensures Marked(s, newly, a) {
      HurryReaches(s, target, newly, a);
    }
    hide WaitGraph, Upstream;
    assert CoordinatorModel.Hurry(s, newly).attempts == CoordinatorModel.Hurry(s, Upstream(s, target)).attempts;
  }

  lemma HurryReaches(s: State, target: AttemptId, newly: set<AttemptId>, a: AttemptId)
    requires Known(s) && Hurrying(s, target, newly, []) && ClosedBelow(s, target) && a in Upstream(s, target)
    ensures Marked(s, newly, a)
  {
    var g := WaitGraph(s);
    var all := set x | x in Upstream(s, target) && Marked(s, newly, x);
    EmptyPath(g, target);
    WaitGraphEdges(s);
    forall x, y | x in all && Edge(g, x, y) ensures y in all {
      assert WaitsOn(s, x, y);
      EmptyPath(g, y);
      Prepend(g, x, y, y);
      Join(g, target, x, y);
    }
    var p :| PathBetween(g, p, target, a);
    ClosedHoldsPath(g, all, p, target, a);
  }

  /** A new wait that closes no cycle leaves what its target waits on as closed as it was. */
  lemma NewWaitClosedBelow(s: State, w: WaitId, target: AttemptId, requester: Option<AttemptId>)
    requires Inv(s) && Blockable(s, w, target, requester)
    ensures ClosedBelow(WithWait(s, w, target, requester), target)
  {
    var added := WithWait(s, w, target, requester);
    AddedWaitGraph(s, w, target, requester);
    WaitGraphEdges(s);
    forall a, b | a in Upstream(added, target) && Edge(WaitGraph(added), a, b) && b in added.attempts && added.attempts[a].hurried
      ensures added.attempts[b].hurried
    {
      if requester == Some(a) && !Edge(WaitGraph(s), a, b) {
        BehindRequester(s, added, target, a);
      }
      assert WaitsOn(s, a, b);
    }
  }

  /** Where there was no way from target to requester, their edge makes none. */
  lemma BehindRequester(s: State, added: State, target: AttemptId, requester: AttemptId)
    requires WaitGraph(added) == WaitGraph(s) + {(requester, target)} && !Connected(WaitGraph(s), target, requester)
    ensures requester !in Upstream(added, target)
  {
    var g := WaitGraph(s);
    forall p ensures !PathBetween(WaitGraph(added), p, target, requester) {
      if PathBetween(WaitGraph(added), p, target, requester) {
        PathWithEdge(g, requester, target, p, target, requester);
      }
    }
  }

  lemma UpstreamKnown(s: State, target: AttemptId)
    ensures forall a :: a in Upstream(s, target) ==> a in s.attempts
  {
    hide WaitGraph, Connected;
  }

  predicate HurriesFor(s: State, requester: Option<AttemptId>)
    requires requester.Some? ==> requester.value in s.attempts
  {
    requester.None? || s.attempts[requester.value].hurried
  }

  /** A new wait as the coordinator brings it about: linked, then hurried, then its requester's permit given back. */
  lemma BlockUnfolds(s: State, w: WaitId, target: AttemptId, requester: Option<AttemptId>)
    requires Inv(s) && Blockable(s, w, target, requester)
    ensures EndsAt(s, target, requester)
    ensures var added := WithWait(s, w, target, requester);
      var hurried := if HurriesFor(s, requester) then CoordinatorModel.Hurry(added, Upstream(added, target)) else added;
      && hurried.attempts.Keys == s.attempts.Keys
      && (requester.Some? ==> hurried.attempts[requester.value].permit == s.attempts[requester.value].permit)
      && Block(s, w, target, requester) ==
         if requester.Some? then GiveBack(hurried, requester.value) else Outcome(hurried, NoEffects)
    ensures forall a :: a in s.attempts ==>
      a in Block(s, w, target, requester).state.attempts
      && (!s.attempts[a].hurried && Block(s, w, target, requester).state.attempts[a].hurried <==>
          HurriesFor(s, requester) && a in Upstream(WithWait(s, w, target, requester), target) && !s.attempts[a].hurried)
  {
    hide WaitGraph, Connected, Upstream, Inv;
  }

  predicate EndsAt(s: State, target: AttemptId, requester: Option<AttemptId>) {
    target in s.attempts && (requester.Some? ==> requester.value in s.attempts)
  }
}
