/** Each step of the composed machine keeps its invariant, so every run does. */
module PermitsSteps {
  import opened Paths
  import opened Wrappers
  import opened Graphs
  import opened CoordinatorModel
  import opened CoordinatorInvariants
  import opened QueueLines
  import opened Permits
  import opened PermitsInvariant

  // ---- Slots -----------------------------------------------------------------------------------

  lemma MoreInTransit(s: System, t: System, a: AttemptId)
    requires a in t.requests && t.requests[a] == Given && !(a in s.requests && s.requests[a] == Given)
    requires forall b :: b != a ==> (b in s.requests && s.requests[b] == Given <==> b in t.requests && t.requests[b] == Given)
    ensures |InTransit(t)| == |InTransit(s)| + 1
  {
    forall b ensures b in InTransit(t) <==> b in InTransit(s) + {a} {
    }
    assert InTransit(t) == InTransit(s) + {a};
  }

  /** A slot that nobody holds any more is passed on, and none is lost. */
  lemma PassOnKeeps(s: System, n: nat)
    requires Slots(s) && LinesOk(s) && Slotted(s) + 1 == n
    ensures Accounts(PassOn(s), n)
    ensures PassOn(s).c == s.c && PassOn(s).wakes == s.wakes && PassOn(s).releases == s.releases && PassOn(s).grants == s.grants
  {
    var t := PassOn(s);
    ReleaseOrderly(s.lines);
    if s.lines.Heir().Some? {
      var heir := s.lines.Heir().value;
      assert heir in s.c.attempts && PlaceOk(s, heir);
      forall a | a in t.c.attempts ensures SlotOk(t, a) && PlaceOk(t, a) {
        PassOnKeepsPlace(s, heir, a);
      }
      MoreInTransit(s, t, heir);
    } else {
      forall a | a in t.c.attempts ensures SlotOk(t, a) && PlaceOk(t, a) {
        assert SlotOk(s, a) && PlaceOk(s, a);
      }
      SameInTransit(s, t);
    }
  }

  lemma PassOnKeepsPlace(s: System, heir: AttemptId, a: AttemptId)
    requires Slots(s) && LinesOk(s) && s.lines.Heir() == Some(heir) && heir in s.c.attempts && a in s.c.attempts
    ensures SlotOk(PassOn(s), a) && PlaceOk(PassOn(s), a)
  {
    ReleaseOrderly(s.lines);
    assert SlotOk(s, a) && PlaceOk(s, a) && PlaceOk(s, heir);
  }

  lemma LinesAndSlots(s: System, n: nat)
    requires Slots(s) && LinesOk(s) && Slotted(s) == n
    ensures Accounts(s, n)
  {
  }

  // ---- Starting a request ----------------------------------------------------------------------

  lemma BeginKeepsAccounts(s: System, n: nat, a: AttemptId)
    requires Accounts(s, n) && a in s.c.attempts && AttemptOk(s.c.attempts[a]) && s.requests[a] == Starting
    ensures Accounts(AfterBegin(s, a), n)
  {
    var t := AfterBegin(s, a);
    BeginKeepsLines(s, a);
    hide SlotOk, PlaceOk, Distinct, AttemptOk;
    forall b | b in t.c.attempts ensures SlotOk(t, b) && PlaceOk(t, b) {
      BeginKeepsPlace(s, a, b);
    }
    if t.requests[a] == Given {
      MoreInTransit(s, t, a);
    } else {
      SameInTransit(s, t);
    }
  }

  lemma BeginKeepsLines(s: System, a: AttemptId)
    requires Slots(s) && LinesOk(s) && a in s.c.attempts && s.requests[a] == Starting
    ensures AfterBegin(s, a).lines.Orderly()
    ensures forall b :: b in AfterBegin(s, a).lines.All() ==> b in s.lines.All() || b == a
  {
    assert PlaceOk(s, a);
    hide SlotOk, PlaceOk;
    if a !in s.stopRequested && s.lines.free == 0 {
      EnqueueOrderly(s.lines, a, IsTakeBack(s, a), s.c.attempts[a].hurried);
    }
  }

  lemma BeginKeepsPlace(s: System, a: AttemptId, b: AttemptId)
    requires Slots(s) && LinesOk(s)
    requires a in s.c.attempts && AttemptOk(s.c.attempts[a]) && s.requests[a] == Starting && b in s.c.attempts
    ensures SlotOk(AfterBegin(s, a), b) && PlaceOk(AfterBegin(s, a), b)
  {
    hide Distinct;
    assert SlotOk(s, a) && PlaceOk(s, a) && SlotOk(s, b) && PlaceOk(s, b);
  }

  lemma BeginOnlyRequests(s: System, a: AttemptId)
    requires Tracked(s) && a in s.c.attempts && s.requests[a] == Starting
    ensures OnlyRequests(s, AfterBegin(s, a))
  {
  }

  /** Changes to requests alone keep what is not about slots, as long as nothing abandoned comes back. */
  ghost predicate OnlyRequests(s: System, t: System) {
    && t.c == s.c && t.wakes == s.wakes && t.releases == s.releases && t.grants == s.grants
    && t.requests.Keys == s.requests.Keys
    && forall a :: a in s.requests && s.requests[a] == Abandoned ==> t.requests[a] == Abandoned
  }

  lemma OnlyRequestsKeepsRest(s: System, t: System)
    requires Tracked(s) && Behind(s) && Woken(s) && Counted(s) && OnlyRequests(s, t)
    ensures Tracked(t) && Behind(t) && Woken(t) && Counted(t)
  {
    forall x, y | Rivals(t, x, y) ensures WaitsBehind(t.c.attempts[x], y) || WaitsBehind(t.c.attempts[y], x) {
      assert Rivals(s, x, y);
    }
    forall x | x in t.c.attempts ensures CountOk(t, x) {
      assert CountOk(s, x);
    }
  }

  lemma StopRequestKeepsAccounts(s: System, n: nat, a: AttemptId)
    requires Local(s.c) && Accounts(s, n) && a in s.c.attempts
    requires s.c.attempts[a].phase == Queued || s.c.attempts[a].stopping
    ensures Accounts(StopRequest(s, a), n)
  {
    var t := StopRequest(s, a);
    StopRequestOnlyRequests(s, a);
    assert AttemptOk(s.c.attempts[a]);
    hide Local, SlotOk, PlaceOk, AttemptOk, Slotted, StopRequest;
    assert forall b :: b in t.c.attempts ==> SlotOk(t, b) && PlaceOk(t, b) by {
      forall b | b in t.c.attempts ensures SlotOk(t, b) && PlaceOk(t, b) {
        StopRequestKeepsPlace(s, a, b);
      }
    }
    StopRequestKeepsSets(s, a);
    StopRequestKeepsLines(s, a);
    StopRequestKeepsCount(s, a);
    assert Slots(t) by { hide LinesOk; }
  }

  lemma StopRequestKeepsSets(s: System, a: AttemptId)
    requires a in s.c.attempts && a in s.requests
    ensures var t := StopRequest(s, a);
      && t.stopRequested == s.stopRequested + {a} && t.toStop <= s.toStop
      && t.toDrain == s.toDrain && t.holders == s.holders && t.drained == s.drained
  {
  }

  lemma StopRequestKeepsCount(s: System, a: AttemptId)
    requires Tracked(s) && a in s.c.attempts && StopRequest(s, a).lines.free == s.lines.free
    ensures Slotted(StopRequest(s, a)) == Slotted(s)
  {
    SameInTransit(s, StopRequest(s, a));
  }

  lemma StopRequestKeepsLines(s: System, a: AttemptId)
    requires Slots(s) && LinesOk(s) && a in s.c.attempts && AttemptOk(s.c.attempts[a])
    ensures StopRequest(s, a).lines.Orderly() && StopRequest(s, a).lines.free == s.lines.free
    ensures forall b :: b in StopRequest(s, a).lines.All() ==> b in s.lines.All()
  {
    assert SlotOk(s, a) && PlaceOk(s, a);
    hide SlotOk, PlaceOk, Slots;
    if s.requests[a] == InLine {
      LinesDistinct(s.lines);
      DequeueOrderly(s.lines, a, IsTakeBack(s, a));
    }
  }

  lemma StopRequestOnlyRequests(s: System, a: AttemptId)
    requires Tracked(s) && a in s.c.attempts
    ensures OnlyRequests(s, StopRequest(s, a))
  {
  }

  lemma StopRequestKeepsPlace(s: System, a: AttemptId, b: AttemptId)
    requires Slots(s) && LinesOk(s) && a in s.c.attempts && AttemptOk(s.c.attempts[a]) && b in s.c.attempts
    requires s.c.attempts[a].phase == Queued || s.c.attempts[a].stopping
    ensures SlotOk(StopRequest(s, a), b) && PlaceOk(StopRequest(s, a), b)
  {
    assert SlotOk(s, a) && PlaceOk(s, a) && SlotOk(s, b) && PlaceOk(s, b);
    if s.requests[a] == InLine {
      LinesDistinct(s.lines);
      DequeueOrderly(s.lines, a, IsTakeBack(s, a));
      WithoutDistinct(s.lines.promoted, a);
      WithoutDistinct(s.lines.waiting, a);
      WithoutDistinct(s.lines.reacquiring, a);
    }
    hide Distinct;
  }

  lemma LessInTransit(s: System, t: System, a: AttemptId)
    requires a in s.requests && s.requests[a] == Given && !(a in t.requests && t.requests[a] == Given)
    requires forall b :: b != a ==> (b in s.requests && s.requests[b] == Given <==> b in t.requests && t.requests[b] == Given)
    ensures |InTransit(t)| + 1 == |InTransit(s)|
  {
    MoreInTransit(t, s, a);
  }

  // ---- A slot arrives --------------------------------------------------------------------------

  lemma FirstKeepsAccounts(s: System, n: nat, a: AttemptId)
    requires Accounts(s, n) && a in s.c.attempts && s.requests[a] == Given && s.c.attempts[a].phase == Queued
    requires forall b :: b in s.c.attempts ==> AttemptOk(s.c.attempts[b])
    ensures Accounts(AfterFirst(s, a), n)
  {
    var t := AfterFirst(s, a);
    assert a !in s.holders by { assert SlotOk(s, a); }
    FirstKeepsRestOfSlots(s, a);
    FirstKeepsCount(s, a);
    hide SlotOk, PlaceOk, AttemptOk, Slotted, AfterFirst;
    forall b | b in t.c.attempts ensures SlotOk(t, b) && PlaceOk(t, b) {
      FirstKeepsPlace(s, a, b);
    }
    SlotsAndLines(s, t, a);
  }

  lemma FirstKeepsRestOfSlots(s: System, a: AttemptId)
    requires Tracked(s) && a in s.c.attempts
    ensures SameSets(s, AfterFirst(s, a), a)
  {
  }

  /** Nothing is added to what is tracked but `a`, and the lines stay as they are. */
  ghost predicate SameSets(s: System, t: System, a: AttemptId) {
    && t.requests.Keys == t.c.attempts.Keys == s.c.attempts.Keys && t.lines == s.lines
    && t.stopRequested + t.toStop + t.toDrain + t.holders + t.drained <=
       s.stopRequested + s.toStop + s.toDrain + s.holders + s.drained + {a}
  }

  lemma SlotsAndLines(s: System, t: System, a: AttemptId)
    requires Slots(s) && LinesOk(s) && a in s.c.attempts && SameSets(s, t, a)
    requires forall b :: b in t.c.attempts ==> SlotOk(t, b) && PlaceOk(t, b)
    ensures Slots(t) && LinesOk(t)
  {
    hide SlotOk, PlaceOk;
    SameLinesOk(s, t);
    forall b | b in t.stopRequested + t.toStop + t.toDrain + t.holders + t.drained ensures b in t.c.attempts {
      assert b in s.stopRequested + s.toStop + s.toDrain + s.holders + s.drained + {a};
    }
  }

  lemma FirstKeepsCount(s: System, a: AttemptId)
    requires a in s.c.attempts && a in s.requests && s.requests[a] == Given && a !in s.holders
    ensures Slotted(AfterFirst(s, a)) == Slotted(s)
  {
    LessInTransit(s, AfterFirst(s, a), a);
  }

  lemma SameLinesOk(s: System, t: System)
    requires Tracked(s) && LinesOk(s) && Tracked(t) && t.lines == s.lines && s.c.attempts.Keys <= t.c.attempts.Keys
    requires forall a :: a in t.c.attempts ==> PlaceOk(t, a)
    ensures LinesOk(t)
  {
    hide PlaceOk, Distinct;
  }

  lemma FirstKeepsPlace(s: System, a: AttemptId, b: AttemptId)
    requires Slots(s) && LinesOk(s) && a in s.c.attempts && s.requests[a] == Given && s.c.attempts[a].phase == Queued
    requires AttemptOk(s.c.attempts[a]) && b in s.c.attempts
    ensures SlotOk(AfterFirst(s, a), b) && PlaceOk(AfterFirst(s, a), b)
  {
    hide Distinct;
    assert SlotOk(s, a) && PlaceOk(s, a) && SlotOk(s, b) && PlaceOk(s, b);
  }

  /** Only one attempt at an output has its slot: the other waits behind it. */
  lemma OutputIsFree(s: System, a: AttemptId)
    requires Slots(s) && Behind(s) && Known(s.c) && a in s.c.attempts
    requires forall b :: b in s.c.attempts ==> AttemptOk(s.c.attempts[b])
    requires s.requests[a] == Given && s.c.attempts[a].phase == Queued
    ensures s.c.attempts[a].output !in s.c.running
  {
    var o := s.c.attempts[a].output;
    if o in s.c.running {
      var b := s.c.running[o];
      assert SlotOk(s, a) && SlotOk(s, b) && AttemptOk(s.c.attempts[b]);
      assert !Over(s, a) && !Over(s, b);
      assert Rivals(s, a, b);
    }
  }

  lemma FirstKeepsRest(s: System, n: nat, a: AttemptId)
    requires Slots(s) && Behind(s) && Woken(s) && Counted(s)
    requires a in s.c.attempts && s.requests[a] == Given && s.c.attempts[a].phase == Queued && AttemptOk(s.c.attempts[a])
    ensures Tracked(AfterFirst(s, a)) && Behind(AfterFirst(s, a)) && Woken(AfterFirst(s, a)) && Counted(AfterFirst(s, a))
  {
    var t := AfterFirst(s, a);
    forall x, y | Rivals(t, x, y) ensures WaitsBehind(t.c.attempts[x], y) || WaitsBehind(t.c.attempts[y], x) {
      assert Rivals(s, x, y);
    }
    forall x | x in t.c.attempts ensures CountOk(t, x) {
      assert CountOk(s, x);
    }
  }

  /** What a take-back does to attempts: one permit changes, and nothing else. */
  predicate Reacquires(c: State, a: AttemptId, granted: bool, o: Outcome)
    requires a in c.attempts
  {
    var x := c.attempts[a];
    && o.state.running == c.running
    && (a in o.effects.released ==> granted && !x.stopping)
    && o.state.attempts == c.attempts[a := x.(draining := false,
         permit := if granted && a !in o.effects.released then Held else Released)]
    && o.effects.drains == (if x.draining then {a} else {})
    && o.effects.stopReacquires == {} && o.effects.reacquires == {} && o.effects.released <= {a}
  }

  lemma OnReacquiredReacquires(c: State, a: AttemptId, granted: bool)
    requires a in c.attempts
    ensures Reacquires(c, a, granted, OnReacquired(c, a, granted))
    ensures AnswersExactly(c, OnReacquired(c, a, granted))
  {
  }

  /** As it stands once a take-back is answered, but before a permit given straight back is passed on. */
  function Reacquired(s: System, a: AttemptId, granted: bool, o: Outcome): System {
    var told := SetRequest(s.(stopRequested := s.stopRequested - {a}), a, Idle);
    Absorb(told, o).(
      holders := if granted && a !in o.effects.released then s.holders + {a} else s.holders,
      grants := if granted then s.grants + multiset{a} else s.grants,
      releases := if a in o.effects.released then s.releases + multiset{a} else s.releases)
  }

  lemma ReacquiredKeepsSlots(s: System, n: nat, a: AttemptId, granted: bool, o: Outcome)
    requires Accounts(s, n) && a in s.c.attempts && Reacquires(s.c, a, granted, o)
    requires s.requests[a] == (if granted then Given else Refused) && s.c.attempts[a].permit == Reacquiring
    requires forall b :: b in s.c.attempts ==> AttemptOk(s.c.attempts[b])
    ensures var t := Reacquired(s, a, granted, o);
      Slots(t) && LinesOk(t) && Slotted(t) + (if a in o.effects.released then 1 else 0) == n
  {
    var t := Reacquired(s, a, granted, o);
    hide Distinct, AttemptOk, SlotOk, PlaceOk, InTransit;
    forall b | b in s.c.attempts ensures SlotOk(t, b) && PlaceOk(t, b) {
      ReacquiredKeepsPlace(s, a, granted, o, b);
    }
    ReacquiredKeepsTransit(s, a, granted, o);
    ReacquiringHoldsNone(s, a);
    assert t.holders == if granted && a !in o.effects.released then s.holders + {a} else s.holders;
  }

  lemma ReacquiringHoldsNone(s: System, a: AttemptId)
    requires Slots(s) && a in s.c.attempts && s.c.attempts[a].permit == Reacquiring
    ensures a !in s.holders
  {
    assert SlotOk(s, a);
  }

  lemma ReacquiredKeepsTransit(s: System, a: AttemptId, granted: bool, o: Outcome)
    requires a in s.requests && s.requests[a] == (if granted then Given else Refused)
    requires o.effects.reacquires == {}
    ensures |InTransit(Reacquired(s, a, granted, o))| + (if granted then 1 else 0) == |InTransit(s)|
  {
    var t := Reacquired(s, a, granted, o);
    if granted {
      LessInTransit(s, t, a);
    } else {
      SameInTransit(s, t);
    }
  }

  lemma ReacquiredKeepsPlace(s: System, a: AttemptId, granted: bool, o: Outcome, b: AttemptId)
    requires Slots(s) && LinesOk(s) && a in s.c.attempts && Reacquires(s.c, a, granted, o)
    requires s.requests[a] == (if granted then Given else Refused) && s.c.attempts[a].permit == Reacquiring
    requires AttemptOk(s.c.attempts[a]) && b in s.c.attempts
    ensures SlotOk(Reacquired(s, a, granted, o), b) && PlaceOk(Reacquired(s, a, granted, o), b)
  {
    hide Distinct;
    assert SlotOk(s, a) && PlaceOk(s, a) && SlotOk(s, b) && PlaceOk(s, b);
  }

  lemma ReacquiredKeepsRest(s: System, a: AttemptId, granted: bool, o: Outcome)
    requires Slots(s) && Behind(s) && Woken(s) && Counted(s)
    requires a in s.c.attempts && Reacquires(s.c, a, granted, o) && AnswersExactly(s.c, o)
    requires s.c.attempts[a].permit == Reacquiring && AttemptOk(s.c.attempts[a])
    ensures var t := Reacquired(s, a, granted, o); Tracked(t) && Behind(t) && Woken(t) && Counted(t)
  {
    var t := Reacquired(s, a, granted, o);
    forall x, y | Rivals(t, x, y) ensures WaitsBehind(t.c.attempts[x], y) || WaitsBehind(t.c.attempts[y], x) {
      assert SlotOk(s, a);
      assert Rivals(s, x, y);
    }
    forall x | x in t.c.attempts ensures CountOk(t, x) {
      assert CountOk(s, x);
    }
    WokenOnce(s, o, t);
  }

  lemma PassOnKeepsRest(s: System)
    requires Slots(s) && LinesOk(s) && Behind(s) && Woken(s) && Counted(s)
    ensures Tracked(PassOn(s)) && Behind(PassOn(s)) && Woken(PassOn(s)) && Counted(PassOn(s))
  {
    ReleaseOrderly(s.lines);
    if s.lines.Heir().Some? {
      assert PlaceOk(s, s.lines.Heir().value);
    }
    hide Behind, Woken, Counted;
    OnlyRequestsKeepsRest(s, PassOn(s));
  }

  /** A slot given back while all else holds leaves everything holding. */
  lemma PassOnInv(s: System, n: nat)
    requires Inv(s.c) && Slots(s) && LinesOk(s) && Behind(s) && Woken(s) && Counted(s) && Slotted(s) + 1 == n
    ensures SystemInv(PassOn(s), n)
  {
    hide Inv, Slots, LinesOk, Behind, Woken, Counted, Accounts, PassOn, Slotted;
    PassOnKeeps(s, n);
    PassOnKeepsRest(s);
  }

  lemma TakeBackIsReacquired(s: System, a: AttemptId)
    requires a in s.c.attempts && a !in s.holders && Reacquires(s.c, a, true, OnReacquired(s.c, a, true))
    ensures var o := OnReacquired(s.c, a, true);
      var mid := Reacquired(s, a, true, o);
      AfterTakeBack(s, a) == if a in o.effects.released then PassOn(mid) else mid
  {
    hide OnReacquired;
    var o := OnReacquired(s.c, a, true);
    assert s.holders + {a} - {a} == s.holders;
  }

  /** The take-back that was granted, and the permit going straight on if requests still wait. */
  lemma TakeBackKeeps(s: System, n: nat, a: AttemptId)
    requires SystemInv(s, n) && a in s.c.attempts && s.requests[a] == Given && IsTakeBack(s, a)
    ensures SystemInv(AfterTakeBack(s, a), n)
  {
    assert AttemptOk(s.c.attempts[a]) && SlotOk(s, a);
    hide OnReacquired, AnswersExactly, Reacquires, Local, HurryClosed, Acyclic, Behind, Woken, Counted, Slots, LinesOk, PassOn, AfterTakeBack, Slotted;
    var o := OnReacquired(s.c, a, true);
    OnReacquiredKeepsInv(s.c, a, true);
    OnReacquiredReacquires(s.c, a, true);
    TakeBackIsReacquired(s, a);
    AllAttemptsOk(s.c);
    ReacquiredKeepsSlots(s, n, a, true, o);
    ReacquiredKeepsRest(s, a, true, o);
    if a in o.effects.released {
      PassOnInv(Reacquired(s, a, true, o), n);
    } else {
      LinesAndSlots(Reacquired(s, a, true, o), n);
    }
  }

  lemma AllAttemptsOk(c: State)
    requires Local(c)
    ensures forall b :: b in c.attempts ==> AttemptOk(c.attempts[b])
  {
  }

  lemma RefusalIsReacquired(s: System, a: AttemptId)
    requires a in s.c.attempts && IsTakeBack(s, a) && Reacquires(s.c, a, false, OnReacquired(s.c, a, false))
    ensures AfterRefusal(s, a) == Reacquired(s, a, false, OnReacquired(s.c, a, false))
  {
    hide OnReacquired;
  }

  lemma RefusalKeeps(s: System, n: nat, a: AttemptId)
    requires SystemInv(s, n) && a in s.c.attempts && s.requests[a] == Refused && IsTakeBack(s, a)
    ensures SystemInv(AfterRefusal(s, a), n)
  {
    assert AttemptOk(s.c.attempts[a]) && SlotOk(s, a);
    hide OnReacquired, AnswersExactly, Reacquires, Local, HurryClosed, Acyclic, Behind, Woken, Counted, Slots, LinesOk, AfterRefusal, Slotted;
    var o := OnReacquired(s.c, a, false);
    OnReacquiredKeepsInv(s.c, a, false);
    OnReacquiredReacquires(s.c, a, false);
    RefusalIsReacquired(s, a);
    AllAttemptsOk(s.c);
    ReacquiredKeepsSlots(s, n, a, false, o);
    ReacquiredKeepsRest(s, a, false, o);
    assert a !in o.effects.released by { NotReleased(s.c, a, o); }
    LinesAndSlots(Reacquired(s, a, false, o), n);
  }

  lemma NotReleased(c: State, a: AttemptId, o: Outcome)
    requires a in c.attempts && Reacquires(c, a, false, o)
    ensures a !in o.effects.released
  {
  }

  lemma AbandonKeepsAccounts(s: System, n: nat, a: AttemptId)
    requires Accounts(s, n) && a in s.c.attempts && s.requests[a] == Refused && !IsTakeBack(s, a)
    ensures Accounts(AfterRefusal(s, a), n)
  {
    hide Distinct;
    var t := AfterRefusal(s, a);
    forall b | b in t.c.attempts ensures SlotOk(t, b) && PlaceOk(t, b) {
      AbandonKeepsPlace(s, a, b);
    }
    hide SlotOk, PlaceOk, OnReacquired;
    SameInTransit(s, t);
  }

  lemma AbandonKeepsPlace(s: System, a: AttemptId, b: AttemptId)
    requires Slots(s) && LinesOk(s) && a in s.c.attempts && s.requests[a] == Refused && !IsTakeBack(s, a) && b in s.c.attempts
    ensures SlotOk(AfterRefusal(s, a), b) && PlaceOk(AfterRefusal(s, a), b)
  {
    hide Distinct, OnReacquired;
    assert SlotOk(s, a) && PlaceOk(s, a) && SlotOk(s, b) && PlaceOk(s, b);
  }

  lemma AbandonOnlyRequests(s: System, a: AttemptId)
    requires Tracked(s) && a in s.c.attempts && !IsTakeBack(s, a)
    ensures OnlyRequests(s, AfterRefusal(s, a))
  {
    hide OnReacquired;
  }

  /** The attempt whose first request was stopped never runs. */
  lemma AbandonKeeps(s: System, n: nat, a: AttemptId)
    requires SystemInv(s, n) && a in s.c.attempts && s.requests[a] == Refused && !IsTakeBack(s, a)
    ensures SystemInv(AfterRefusal(s, a), n)
  {
    hide Inv, Behind, Woken, Counted, Accounts, AfterRefusal, OnlyRequests;
    AccountsTrack(s, n);
    AbandonKeepsAccounts(s, n, a);
    AbandonOnlyRequests(s, a);
    OnlyRequestsKeepsRest(s, AfterRefusal(s, a));
    SameState(s, AfterRefusal(s, a));
  }

  lemma FirstKeeps(s: System, n: nat, a: AttemptId)
    requires SystemInv(s, n) && a in s.c.attempts && s.requests[a] == Given && !IsTakeBack(s, a)
    ensures SystemInv(AfterFirst(s, a), n)
  {
    assert AttemptOk(s.c.attempts[a]) && SlotOk(s, a);
    AllAttemptsOk(s.c);
    OutputIsFree(s, a);
    OnPermitKeepsInv(s.c, a);
    hide Inv, Slots, LinesOk, Behind, Woken, Counted, Accounts;
    AccountsTrack(s, n);
    FirstKeepsAccounts(s, n, a);
    FirstKeepsRest(s, n, a);
  }

  lemma BeginKeeps(s: System, n: nat, a: AttemptId)
    requires SystemInv(s, n) && a in s.c.attempts && s.requests[a] == Starting
    ensures SystemInv(AfterBegin(s, a), n)
  {
    assert AttemptOk(s.c.attempts[a]);
    hide Inv, Behind, Woken, Counted, Accounts, AfterBegin, OnlyRequests;
    AccountsTrack(s, n);
    BeginKeepsAccounts(s, n, a);
    BeginOnlyRequests(s, a);
    OnlyRequestsKeepsRest(s, AfterBegin(s, a));
    SameState(s, AfterBegin(s, a));
  }

  lemma SameState(s: System, t: System)
    requires OnlyRequests(s, t)
    ensures t.c == s.c
  {
  }

  lemma StopRequestKeeps(s: System, n: nat, a: AttemptId)
    requires SystemInv(s, n) && a in s.c.attempts && (s.c.attempts[a].phase == Queued || a in s.toStop)
    ensures SystemInv(StopRequest(s, a), n)
  {
    assert SlotOk(s, a);
    hide Behind, Woken, Counted, Accounts, StopRequest, OnlyRequests, Local, Acyclic, HurryClosed;
    AccountsTrack(s, n);
    StopRequestKeepsAccounts(s, n, a);
    StopRequestOnlyRequests(s, a);
    OnlyRequestsKeepsRest(s, StopRequest(s, a));
    SameState(s, StopRequest(s, a));
  }

  // ---- An attempt's work ends ------------------------------------------------------------------

  lemma WorkKeepsAccounts(s: System, n: nat, a: AttemptId)
    requires Accounts(s, n) && a in s.c.attempts && s.c.attempts[a].phase == Running && AttemptOk(s.c.attempts[a])
    ensures Accounts(Absorb(s, Finish(s.c, a)), n)
  {
    var t := Absorb(s, Finish(s.c, a));
    WorkKeepsRestOfSlots(s, a);
    hide SlotOk, PlaceOk, AttemptOk, Slotted, Absorb, Finish;
    forall b | b in t.c.attempts ensures SlotOk(t, b) && PlaceOk(t, b) {
      WorkKeepsPlace(s, a, b);
    }
    SlotsAndLines(s, t, a);
  }

  lemma WorkKeepsRestOfSlots(s: System, a: AttemptId)
    requires Tracked(s) && a in s.c.attempts
    ensures SameSets(s, Absorb(s, Finish(s.c, a)), a) && Slotted(Absorb(s, Finish(s.c, a))) == Slotted(s)
  {
    hide Answered, LiveOf;
    SameInTransit(s, Absorb(s, Finish(s.c, a)));
  }

  lemma WorkKeepsPlace(s: System, a: AttemptId, b: AttemptId)
    requires Slots(s) && LinesOk(s) && a in s.c.attempts && s.c.attempts[a].phase == Running && AttemptOk(s.c.attempts[a])
    requires b in s.c.attempts
    ensures SlotOk(Absorb(s, Finish(s.c, a)), b) && PlaceOk(Absorb(s, Finish(s.c, a)), b)
  {
    hide Distinct, Answered, LiveOf;
    assert SlotOk(s, a) && PlaceOk(s, a) && SlotOk(s, b) && PlaceOk(s, b);
  }

  lemma WorkKeepsRest(s: System, a: AttemptId)
    requires Tracked(s) && Behind(s) && Woken(s) && Counted(s)
    requires a in s.c.attempts && s.c.attempts[a].phase == Running
    ensures var t := Absorb(s, Finish(s.c, a)); Tracked(t) && Behind(t) && Woken(t) && Counted(t)
  {
    var t := Absorb(s, Finish(s.c, a));
    forall x, y | Rivals(t, x, y) ensures WaitsBehind(t.c.attempts[x], y) || WaitsBehind(t.c.attempts[y], x) {
      assert Rivals(s, x, y);
    }
    forall x | x in t.c.attempts ensures CountOk(t, x) {
      assert CountOk(s, x);
    }
    assert AnswersExactly(s.c, Finish(s.c, a));
    WokenOnce(s, Finish(s.c, a), t);
  }

  lemma WorkKeeps(s: System, n: nat, a: AttemptId)
    requires SystemInv(s, n) && a in s.c.attempts && s.c.attempts[a].phase == Running
    ensures SystemInv(Absorb(s, Finish(s.c, a)), n)
  {
    assert AttemptOk(s.c.attempts[a]);
    FinishKeepsInv(s.c, a);
    hide Inv, Behind, Woken, Counted, Accounts, Finish;
    AccountsTrack(s, n);
    WorkKeepsAccounts(s, n, a);
    WorkKeepsRest(s, a);
  }

  /** As it stands with `a` drained, but before the slot it held is passed on. */
  function Drained(s: System, a: AttemptId): System {
    s.(toDrain := s.toDrain - {a}, drained := s.drained + {a}, holders := s.holders - {a})
  }

  lemma DrainedKeepsSlots(s: System, n: nat, a: AttemptId)
    requires Accounts(s, n) && a in s.c.attempts && a in s.toDrain
    ensures Slots(Drained(s, a)) && LinesOk(Drained(s, a))
    ensures Slotted(Drained(s, a)) + (if a in s.holders then 1 else 0) == n
    ensures OnlyRequests(s, Drained(s, a))
  {
    var t := Drained(s, a);
    forall b | b in t.c.attempts ensures SlotOk(t, b) && PlaceOk(t, b) {
      assert SlotOk(s, b) && PlaceOk(s, b);
    }
    SameInTransit(s, t);
    assert a !in s.holders ==> t.holders == s.holders;
  }

  lemma DrainKeeps(s: System, n: nat, a: AttemptId)
    requires SystemInv(s, n) && a in s.c.attempts && a in s.toDrain
    ensures SystemInv(AfterDrain(s, a), n)
  {
    var t := Drained(s, a);
    assert AfterDrain(s, a) == if a in s.holders then PassOn(t) else t by {
      assert a !in s.holders ==> t.holders == s.holders;
    }
    hide Inv, Slots, LinesOk, Behind, Woken, Counted, Slotted, PassOn, AfterDrain, OnlyRequests;
    assert Slots(s);
    DrainedKeepsSlots(s, n, a);
    assert Tracked(s) by { AccountsTrack(s, n); SlotsTrack(s); }
    OnlyRequestsKeepsRest(s, t);
    SameState(s, t);
    if a in s.holders {
      PassOnInv(t, n);
    } else {
      LinesAndSlots(t, n);
    }
  }

  lemma SlotsTrack(s: System)
    requires Slots(s)
    ensures Tracked(s)
  {
  }

  // ---- New attempts ----------------------------------------------------------------------------

  lemma CreateKeepsAccounts(s: System, n: nat, a: AttemptId, output: Path, predecessor: Option<AttemptId>)
    requires Accounts(s, n) && a !in s.c.attempts && (predecessor.Some? ==> predecessor.value in s.c.attempts)
    ensures Accounts(SetRequest(s.(c := CreateAttempt(s.c, a, output, predecessor)), a, Idle), n)
  {
    var t := SetRequest(s.(c := CreateAttempt(s.c, a, output, predecessor)), a, Idle);
    forall b | b in t.c.attempts ensures SlotOk(t, b) && PlaceOk(t, b) {
      if b != a {
        assert SlotOk(s, b) && PlaceOk(s, b);
      }
    }
    assert InTransit(t) == InTransit(s) by {
      forall b ensures b in InTransit(t) <==> b in InTransit(s) {
      }
    }
  }

  lemma CreateKeepsRest(s: System, a: AttemptId, output: Path, predecessor: Option<AttemptId>)
    requires Tracked(s) && Behind(s) && Woken(s) && Counted(s) && Enabled(s, Create(a, output, predecessor))
    ensures var t := SetRequest(s.(c := CreateAttempt(s.c, a, output, predecessor)), a, Idle);
      Tracked(t) && Behind(t) && Woken(t) && Counted(t)
  {
    var t := SetRequest(s.(c := CreateAttempt(s.c, a, output, predecessor)), a, Idle);
    forall x, y | Rivals(t, x, y) ensures WaitsBehind(t.c.attempts[x], y) || WaitsBehind(t.c.attempts[y], x) {
      if x != a && y != a {
        assert Rivals(s, x, y);
      } else {
        var b := if x == a then y else x;
        assert !Over(s, b);
      }
    }
    forall x | x in t.c.attempts ensures CountOk(t, x) {
      assert x != a ==> CountOk(s, x);
    }
  }

  lemma CreateKeeps(s: System, n: nat, a: AttemptId, output: Path, predecessor: Option<AttemptId>)
    requires SystemInv(s, n) && Enabled(s, Create(a, output, predecessor))
    ensures SystemInv(SetRequest(s.(c := CreateAttempt(s.c, a, output, predecessor)), a, Idle), n)
  {
    CreateKeepsInv(s.c, a, output, predecessor);
    hide Inv, Behind, Woken, Counted, Accounts, CreateAttempt;
    AccountsTrack(s, n);
    CreateKeepsAccounts(s, n, a, output, predecessor);
    CreateKeepsRest(s, a, output, predecessor);
  }

  lemma StartKeepsAccounts(s: System, n: nat, a: AttemptId)
    requires Accounts(s, n) && a in s.c.attempts && s.c.attempts[a].phase == Pending && s.requests[a] == Idle
    requires AttemptOk(s.c.attempts[a])
    ensures Accounts(SetRequest(s.(c := CoordinatorModel.Run(s.c, a)), a, Starting), n)
  {
    var t := SetRequest(s.(c := CoordinatorModel.Run(s.c, a)), a, Starting);
    assert SlotOk(s, a);
    forall b | b in t.c.attempts ensures SlotOk(t, b) && PlaceOk(t, b) {
      assert SlotOk(s, b) && PlaceOk(s, b);
    }
    SameInTransit(s, t);
  }

  lemma StartKeepsRest(s: System, a: AttemptId)
    requires Slots(s) && Behind(s) && Woken(s) && Counted(s) && Enabled(s, Start(a)) && AttemptOk(s.c.attempts[a])
    ensures var t := SetRequest(s.(c := CoordinatorModel.Run(s.c, a)), a, Starting);
      Tracked(t) && Behind(t) && Woken(t) && Counted(t)
  {
    var t := SetRequest(s.(c := CoordinatorModel.Run(s.c, a)), a, Starting);
    assert SlotOk(s, a);
    forall x, y | Rivals(t, x, y) ensures WaitsBehind(t.c.attempts[x], y) || WaitsBehind(t.c.attempts[y], x) {
      assert Rivals(s, x, y);
    }
    forall x | x in t.c.attempts ensures CountOk(t, x) {
      assert CountOk(s, x);
    }
  }

  lemma RetireKeeps(s: System, n: nat, a: AttemptId)
    requires SystemInv(s, n) && Enabled(s, Retire(a))
    ensures var t := SetRequest(s, a, Abandoned);
      && SystemInv(t, n) && Over(t, a)
      && (forall work :: s.c.attempts[a].result.None? ==> Enabled(t, Finished(a, work)))
      && forall b :: b in s.c.attempts && b != a && s.requests[b] == Idle && WaitsBehind(s.c.attempts[b], a) ==> Enabled(t, Start(b))
  {
    var t := SetRequest(s, a, Abandoned);
    assert AttemptOk(s.c.attempts[a]);
    hide Inv, Behind, Woken, Counted, Accounts, OnlyRequests;
    AccountsTrack(s, n);
    RetireKeepsAccounts(s, n, a);
    assert OnlyRequests(s, t) by { RetireOnlyRequests(s, a); }
    OnlyRequestsKeepsRest(s, t);
  }

  lemma RetireOnlyRequests(s: System, a: AttemptId)
    requires Tracked(s) && a in s.c.attempts
    ensures OnlyRequests(s, SetRequest(s, a, Abandoned))
  {
  }

  lemma RetireKeepsAccounts(s: System, n: nat, a: AttemptId)
    requires Accounts(s, n) && a in s.c.attempts && s.c.attempts[a].phase == Pending && s.requests[a] == Idle
    requires AttemptOk(s.c.attempts[a])
    ensures Accounts(SetRequest(s, a, Abandoned), n)
  {
    var t := SetRequest(s, a, Abandoned);
    forall b | b in t.c.attempts ensures SlotOk(t, b) && PlaceOk(t, b) {
      assert SlotOk(s, b) && PlaceOk(s, b);
    }
    SameInTransit(s, t);
  }

  lemma StartKeeps(s: System, n: nat, a: AttemptId)
    requires SystemInv(s, n) && Enabled(s, Start(a))
    ensures SystemInv(SetRequest(s.(c := CoordinatorModel.Run(s.c, a)), a, Starting), n)
  {
    assert AttemptOk(s.c.attempts[a]);
    RunKeepsInv(s.c, a);
    AccountsTrack(s, n);
    hide Inv, Behind, Woken, Counted, Accounts, CoordinatorModel.Run;
    StartKeepsAccounts(s, n, a);
    StartKeepsRest(s, a);
  }
}
