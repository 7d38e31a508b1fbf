/** A new wait keeps the composed machine's invariant, as it hurries others and gives a permit back. */
module PermitsOpen {
  import opened Wrappers
  import opened Graphs
  import opened CoordinatorModel
  import opened CoordinatorInvariants
  import opened QueueLines
  import opened Permits
  import opened PermitsInvariant
  import opened PermitsSteps

  /** What a new wait does to attempts: some are hurried, and its requester may give its permit back. */
  ghost predicate OnlyHurries(c: State, o: Outcome, newly: set<AttemptId>) {
    && o.state.attempts.Keys == c.attempts.Keys
    && o.effects == NoEffects.(released := o.effects.released)
    && (forall a :: a in c.attempts ==> HurriedFor(c, o, newly, a))
    && (forall a :: a in o.effects.released ==> a in c.attempts)
  }

  predicate HurriedFor(c: State, o: Outcome, newly: set<AttemptId>, a: AttemptId)
    requires a in c.attempts && a in o.state.attempts
  {
    var x := c.attempts[a];
    && o.state.attempts[a] == x.(hurried := x.hurried || a in newly, permit := if a in o.effects.released then Released else x.permit)
    && (a in newly ==> !x.hurried)
    && (a in o.effects.released ==> x.permit == Held && Stoppable(x))
  }

  lemma BlockOnlyHurries(c: State, w: WaitId, target: AttemptId, requester: Option<AttemptId>)
    requires Blockable(c, w, target, requester)
    ensures OnlyHurries(c, Block(c, w, target, requester), NewlyHurried(c, w, target, requester))
    ensures Block(c, w, target, requester).effects.released <= if requester.Some? then {requester.value} else {}
  {
    hide WaitGraph, Connected, Upstream;
  }

  lemma BlockAnswersNone(c: State, w: WaitId, target: AttemptId, requester: Option<AttemptId>)
    requires Blockable(c, w, target, requester)
    ensures AnswersExactly(c, Block(c, w, target, requester))
  {
    hide WaitGraph, Connected, Upstream;
  }

  /** `order` moves from the waiting to the promoted, and nothing else changes place. */
  ghost predicate Moved(l: Lines<AttemptId>, order: seq<AttemptId>, m: Lines<AttemptId>) {
    && m.free == l.free && m.reacquiring == l.reacquiring
    && (forall v :: v in m.All() <==> v in l.All())
    && (forall v :: v in m.waiting <==> v in l.waiting && v !in order)
    && (forall v :: v in m.promoted <==> v in l.promoted || (v in l.waiting && v in order))
  }

  lemma {:induction false} PromoteAllMoves(l: Lines<AttemptId>, order: seq<AttemptId>)
    requires l.Orderly()
    ensures PromoteAll(l, order).Orderly() && Moved(l, order, PromoteAll(l, order))
  {
    if order != [] {
      var rest, last := order[..|order| - 1], order[|order| - 1];
      assert order == rest + [last];
      PromoteAllMoves(l, rest);
      PromoteOrderly(PromoteAll(l, rest), last);
    }
  }

  /** As it stands once the wait is opened, but before a permit given back for it is passed on. */
  function Opened(s: System, order: seq<AttemptId>, o: Outcome): System {
    Absorb(s, o).(lines := PromoteAll(s.lines, order),
                  holders := s.holders - o.effects.released,
                  releases := s.releases + multiset(o.effects.released))
  }

  lemma OpenedKeepsPlace(s: System, order: seq<AttemptId>, o: Outcome, newly: set<AttemptId>, a: AttemptId)
    requires Slots(s) && LinesOk(s) && a in s.c.attempts && a in o.state.attempts
    requires HurriedFor(s.c, o, newly, a) && o.effects == NoEffects.(released := o.effects.released)
    requires Moved(s.lines, order, PromoteAll(s.lines, order)) && (a in order <==> a in newly)
    ensures SlotOk(Opened(s, order, o), a) && PlaceOk(Opened(s, order, o), a)
    ensures a in o.effects.released ==> a in s.holders
  {
    hide Distinct, PromoteAll;
    assert SlotOk(s, a) && PlaceOk(s, a);
  }

  lemma OpenedKeepsSlots(s: System, n: nat, order: seq<AttemptId>, o: Outcome, newly: set<AttemptId>)
    requires Accounts(s, n) && OnlyHurries(s.c, o, newly) && forall a :: a in order <==> a in newly
    requires |o.effects.released| <= 1
    ensures Slots(Opened(s, order, o)) && LinesOk(Opened(s, order, o))
    ensures Slotted(Opened(s, order, o)) + |o.effects.released| == n
  {
    var t := Opened(s, order, o);
    PromoteAllMoves(s.lines, order);
    hide PromoteAll, Distinct;
    forall a | a in t.c.attempts
      ensures SlotOk(t, a) && PlaceOk(t, a) && (a in o.effects.released ==> a in s.holders)
    {
      OpenedKeepsPlace(s, order, o, newly, a);
    }
    forall a | a in o.effects.released ensures a in s.holders {
      assert a in t.c.attempts;
    }
    hide SlotOk, PlaceOk, OnlyHurries;
    SameInTransit(s, t);
    HoldersLess(s.holders, o.effects.released);
  }

  lemma HoldersLess(holders: set<AttemptId>, released: set<AttemptId>)
    requires released <= holders
    ensures |holders - released| + |released| == |holders|
  {
  }

  lemma OpenedKeepsRest(s: System, order: seq<AttemptId>, o: Outcome, newly: set<AttemptId>)
    requires Slots(s) && Behind(s) && Woken(s) && Counted(s)
    requires OnlyHurries(s.c, o, newly) && AnswersExactly(s.c, o)
    ensures var t := Opened(s, order, o); Tracked(t) && Behind(t) && Woken(t) && Counted(t)
  {
    var t := Opened(s, order, o);
    hide PromoteAll;
    forall x, y | Rivals(t, x, y) ensures WaitsBehind(t.c.attempts[x], y) || WaitsBehind(t.c.attempts[y], x) {
      assert HurriedFor(s.c, o, newly, x) && HurriedFor(s.c, o, newly, y);
      assert Rivals(s, x, y);
    }
    forall x | x in t.c.attempts ensures CountOk(t, x) {
      assert CountOk(s, x) && HurriedFor(s.c, o, newly, x);
      assert multiset(o.effects.released)[x] == if x in o.effects.released then 1 else 0;
    }
    WokenOnce(s, o, t);
  }

  lemma OpenIsOpened(s: System, w: WaitId, target: AttemptId, requester: Option<AttemptId>, order: seq<AttemptId>)
    requires Blockable(s.c, w, target, requester)
    requires Block(s.c, w, target, requester).effects.released <= if requester.Some? then {requester.value} else {}
    ensures var o := Block(s.c, w, target, requester);
      AfterOpen(s, w, target, requester, order) ==
        if o.effects.released != {} then PassOn(Opened(s, order, o)) else Opened(s, order, o)
  {
    hide Block, PromoteAll;
    var o := Block(s.c, w, target, requester);
    assert o.effects.released == {} || o.effects.released == {requester.value};
    assert s.releases + multiset{} == s.releases && s.holders - {} == s.holders;
    if o.effects.released != {} {
      assert multiset(o.effects.released) == multiset{requester.value};
    }
  }

  lemma OpenKeeps(s: System, n: nat, w: WaitId, target: AttemptId, requester: Option<AttemptId>, order: seq<AttemptId>)
    requires SystemInv(s, n) && Blockable(s.c, w, target, requester)
    requires forall a :: a in order <==> a in NewlyHurried(s.c, w, target, requester)
    ensures SystemInv(AfterOpen(s, w, target, requester, order), n)
  {
    var o := Block(s.c, w, target, requester);
    var newly := NewlyHurried(s.c, w, target, requester);
    hide Inv, Accounts, Behind, Woken, Counted, AfterOpen, Block, OnlyHurries, AnswersExactly, NewlyHurried, PassOn, Opened;
    BlockKeepsInv(s.c, w, target, requester);
    BlockOnlyHurries(s.c, w, target, requester);
    BlockAnswersNone(s.c, w, target, requester);
    OpenIsOpened(s, w, target, requester, order);
    AtMostOne(o.effects.released, requester);
    hide Blockable;
    OpenedInv(s, n, order, o, newly);
  }

  lemma OpenedInv(s: System, n: nat, order: seq<AttemptId>, o: Outcome, newly: set<AttemptId>)
    requires SystemInv(s, n) && Inv(o.state)
    requires OnlyHurries(s.c, o, newly) && AnswersExactly(s.c, o) && forall a :: a in order <==> a in newly
    requires |o.effects.released| <= 1 && (o.effects.released != {} ==> |o.effects.released| == 1)
    ensures SystemInv(if o.effects.released != {} then PassOn(Opened(s, order, o)) else Opened(s, order, o), n)
  {
    hide Inv, Slots, LinesOk, Behind, Woken, Counted, Slotted, PassOn, OnlyHurries, AnswersExactly;
    OpenedKeepsSlots(s, n, order, o, newly);
    OpenedKeepsRest(s, order, o, newly);
    if o.effects.released != {} {
      PassOnInv(Opened(s, order, o), n);
    } else {
      LinesAndSlots(Opened(s, order, o), n);
    }
  }

  lemma AtMostOne(released: set<AttemptId>, requester: Option<AttemptId>)
    requires released <= if requester.Some? then {requester.value} else {}
    ensures |released| <= 1 && (released != {} ==> |released| == 1)
  {
    assert released == {} || released == {requester.value};
  }
}
