/** What every step of the composed machine keeps. */
module PermitsInvariant {
  import opened Wrappers
  import opened Graphs
  import opened CoordinatorModel
  import opened Permits

  predicate UnderWay(q: SlotRequest) { q in {Starting, InLine, Given, Refused} }

  /** How one attempt's permit, its request for a slot and the effects left to carry out fit together. */
  predicate SlotOk(s: System, a: AttemptId)
    requires a in s.c.attempts && a in s.requests
  {
    var x, q := s.c.attempts[a], s.requests[a];
    && (x.phase == Queued ==> q != Idle)
    && (q == Abandoned ==> x.phase in {Pending, Queued})
    && (UnderWay(q) <==> x.permit == Reacquiring || (x.phase == Queued && q != Abandoned))
    && (q == Refused && x.permit == Reacquiring ==> x.stopping)
    && (a in s.stopRequested ==> q != InLine && (x.phase == Queued || x.stopping))
    && (a in s.toStop ==> x.stopping)
    && (x.stopping && q in {Starting, InLine} && a !in s.stopRequested ==> a in s.toStop)
    && (x.phase == Ended ==> (x.permit == Reacquiring <==> x.draining))
    && (x.phase == Ended && a !in s.drained ==> a in s.toDrain || x.draining)
    && (a in s.toDrain ==> x.phase == Ended && !x.draining && a !in s.drained)
    && (a in s.drained ==> x.phase == Ended && !x.draining)
    && (a in s.holders <==> x.permit == Held && a !in s.drained)
    && (x.result.Some? ==> a in s.drained || q == Abandoned)
  }

  ghost predicate Slots(s: System) {
    && Tracked(s)
    && (forall a :: a in s.stopRequested + s.toStop + s.toDrain + s.holders + s.drained ==> a in s.c.attempts)
    && forall a :: a in s.c.attempts ==> SlotOk(s, a)
  }

  /** The line an attempt's request waits in, if it does. */
  predicate PlaceOk(s: System, a: AttemptId)
    requires a in s.c.attempts && a in s.requests
  {
    && (a in s.lines.All() <==> s.requests[a] == InLine)
    && (a in s.lines.reacquiring ==> s.c.attempts[a].permit == Reacquiring)
    && (a in s.lines.promoted ==> s.c.attempts[a].phase == Queued && s.c.attempts[a].hurried)
    && (a in s.lines.waiting ==> s.c.attempts[a].phase == Queued && !s.c.attempts[a].hurried)
  }

  ghost predicate LinesOk(s: System)
    requires Tracked(s)
  {
    && s.lines.Orderly()
    && (forall a :: a in s.lines.All() ==> a in s.c.attempts)
    && forall a :: a in s.c.attempts ==> PlaceOk(s, a)
  }

  ghost function InTransit(s: System): set<AttemptId> {
    set a | a in s.requests && s.requests[a] == Given
  }

  /** Slots free, held by leases, and on their way to whoever was given them. */
  ghost function Slotted(s: System): nat {
    s.lines.free + |s.holders| + |InTransit(s)|
  }

  /** Of two attempts at one output that may yet run, one waits behind the other. */
  ghost predicate Behind(s: System)
    requires Tracked(s)
  {
    forall a, b :: Rivals(s, a, b) ==> WaitsBehind(s.c.attempts[a], b) || WaitsBehind(s.c.attempts[b], a)
  }

  /** Two attempts at one output that may both yet run, or are running. */
  predicate Rivals(s: System, a: AttemptId, b: AttemptId)
    requires Tracked(s)
  {
    && a in s.c.attempts && b in s.c.attempts && a != b
    && s.c.attempts[a].output == s.c.attempts[b].output && !Over(s, a) && !Over(s, b)
  }

  /** Each wait answered has been woken once, and no other. */
  ghost predicate Woken(s: System) {
    forall w :: s.wakes[w] == if w in s.c.waits && s.c.waits[w].state == Done then 1 else 0
  }

  /** A permit is given back only after being taken: at first, or by a take-back. */
  predicate CountOk(s: System, a: AttemptId)
    requires a in s.c.attempts
  {
    match s.c.attempts[a].permit
    case NoPermit => s.releases[a] == 0 && s.grants[a] == 0
    case Held => s.releases[a] == s.grants[a]
    case Released => s.releases[a] == 1 + s.grants[a]
    case Reacquiring => s.releases[a] == 1 + s.grants[a]
  }

  ghost predicate Counted(s: System) {
    && (forall a :: a in s.c.attempts ==> CountOk(s, a))
    && (forall a :: a !in s.c.attempts ==> s.releases[a] == 0 && s.grants[a] == 0)
  }

  /** The slot accounting of a machine of `n` slots. */
  ghost predicate Accounts(s: System, n: nat) {
    Slots(s) && LinesOk(s) && Slotted(s) == n
  }

  ghost predicate SystemInv(s: System, n: nat) {
    Inv(s.c) && Accounts(s, n) && Behind(s) && Woken(s) && Counted(s)
  }

  lemma InitInv(n: nat)
    ensures SystemInv(Init(n), n)
  {
    InitialInv();
    assert InTransit(Init(n)) == {};
  }

  // ---- Changes that give nothing back ----------------------------------------------------------

  /** What such a change does to one attempt. */
  predicate CalmFor(c: State, o: Outcome, a: AttemptId)
    requires a in c.attempts && a in o.state.attempts
  {
    var x, y := c.attempts[a], o.state.attempts[a];
    && y.output == x.output && y.phase == x.phase && y.hurried == x.hurried && y.draining == x.draining
    && (y.result == x.result ==> y.predecessor == x.predecessor)
    && (x.result.Some? ==> y.result.Some?)
    && y.permit == (if a in o.effects.reacquires then Reacquiring else x.permit)
    && (a in o.effects.reacquires ==> x.permit == Released && Stoppable(x))
    && (x.stopping ==> y.stopping)
    && (y.stopping && !x.stopping && x.permit == Reacquiring ==> a in o.effects.stopReacquires)
    && (a in o.effects.stopReacquires ==> y.stopping)
    && (y.stopping && !x.stopping ==> x.phase == Running && a !in o.effects.reacquires)
  }

  ghost predicate Calm(c: State, o: Outcome) {
    && o.state.attempts.Keys == c.attempts.Keys
    && o.effects.drains == {} && o.effects.released == {}
    && (forall a :: a in o.effects.stopReacquires ==> a in c.attempts)
    && forall a :: a in c.attempts ==> CalmFor(c, o, a)
  }

  /** The results a calm change sets are set only for attempts that are done with. */
  ghost predicate SetsResults(s: System, o: Outcome)
    requires Tracked(s) && o.state.attempts.Keys == s.c.attempts.Keys
  {
    forall a :: a in s.c.attempts && o.state.attempts[a].result != s.c.attempts[a].result ==>
      s.c.attempts[a].result.None? && (a in s.drained || s.requests[a] == Abandoned)
  }

  lemma SameInTransit(s: System, t: System)
    requires s.requests.Keys == t.requests.Keys
    requires forall a :: a in s.requests ==> (s.requests[a] == Given <==> t.requests[a] == Given)
    ensures InTransit(t) == InTransit(s)
  {
    forall a ensures a in InTransit(t) <==> a in InTransit(s) {
    }
  }

  lemma CalmKeepsAccounts(s: System, n: nat, o: Outcome)
    requires Local(s.c) && Accounts(s, n) && Calm(s.c, o) && SetsResults(s, o)
    ensures Accounts(Absorb(s, o), n)
  {
    var t := Absorb(s, o);
    forall a | a in t.c.attempts ensures SlotOk(t, a) && PlaceOk(t, a) && (s.requests[a] == Given <==> t.requests[a] == Given) {
      CalmKeepsSlot(s, o, a);
    }
    hide SlotOk, PlaceOk, Calm, SetsResults, Local;
    SameInTransit(s, t);
  }

  lemma CalmKeepsSlot(s: System, o: Outcome, a: AttemptId)
    requires Tracked(s) && Calm(s.c, o) && SetsResults(s, o)
    requires a in s.c.attempts && AttemptOk(s.c.attempts[a]) && SlotOk(s, a) && PlaceOk(s, a)
    ensures SlotOk(Absorb(s, o), a) && PlaceOk(Absorb(s, o), a)
    ensures s.requests[a] == Given <==> Absorb(s, o).requests[a] == Given
  {
    assert CalmFor(s.c, o, a);
  }

  lemma CalmKeepsBehind(s: System, o: Outcome)
    requires Slots(s) && Behind(s) && Calm(s.c, o)
    ensures Behind(Absorb(s, o))
  {
    var t := Absorb(s, o);
    forall a, b | Rivals(t, a, b) ensures WaitsBehind(t.c.attempts[a], b) || WaitsBehind(t.c.attempts[b], a) {
      assert CalmFor(s.c, o, a) && CalmFor(s.c, o, b) && SlotOk(s, a) && SlotOk(s, b);
      assert Rivals(s, a, b);
    }
  }

  lemma CalmKeepsCounts(s: System, o: Outcome)
    requires Counted(s) && Calm(s.c, o)
    ensures Counted(Absorb(s, o))
  {
    var t := Absorb(s, o);
    forall a | a in t.c.attempts ensures CountOk(t, a) {
      assert CalmFor(s.c, o, a);
    }
  }

  /** The waits a change answers are those it turns from live to done; those done stay as they are. */
  ghost predicate AnswersExactly(c: State, o: Outcome) {
    forall w ::
      && (w in o.effects.answered <==> w in o.state.waits && o.state.waits[w].state == Done && !(w in c.waits && c.waits[w].state == Done))
      && (w in c.waits && c.waits[w].state == Done ==> w in o.state.waits && o.state.waits[w] == c.waits[w])
  }

  lemma WokenOnce(s: System, o: Outcome, t: System)
    requires Woken(s) && AnswersExactly(s.c, o)
    requires t.c == o.state && t.wakes == s.wakes + multiset(o.effects.answered)
    ensures Woken(t)
  {
    forall w ensures t.wakes[w] == if w in t.c.waits && t.c.waits[w].state == Done then 1 else 0 {
      assert multiset(o.effects.answered)[w] == if w in o.effects.answered then 1 else 0;
    }
  }

  lemma StopIsCalm(c: State, stopped: set<AttemptId>, doom: bool)
    requires Local(c) && stopped <= c.attempts.Keys && forall a :: a in stopped ==> Stoppable(c.attempts[a])
    ensures Calm(c, Stop(c, stopped, doom)) && AnswersExactly(c, Stop(c, stopped, doom))
  {
  }

  lemma CompleteIsCalm(c: State, a: AttemptId, result: Code)
    requires Local(c) && a in c.attempts && c.attempts[a].result.None?
    ensures Calm(c, Complete(c, a, result)) && AnswersExactly(c, Complete(c, a, result))
  {
    var o := Complete(c, a, result);
    forall r | r in c.attempts ensures CalmFor(c, o, r) {
      if r in o.effects.reacquires {
        var w :| w in BlockedOn(c, a) && c.waits[w].requester == Some(r);
        assert WaitOk(c, c.waits[w]);
      }
    }
  }

  lemma CancelIsCalm(c: State, w: WaitId)
    requires Local(c) && w in c.waits && (c.waits[w].requester.Some? ==> c.waits[w].requester.value in c.attempts)
    ensures Calm(c, CancelWait(c, w)) && AnswersExactly(c, CancelWait(c, w))
  {
    assert WaitOk(c, c.waits[w]);
  }

  /** A step that is a calm change, and no more, keeps all there is to keep but the coordinator's own invariant. */
  lemma CalmStep(s: System, n: nat, o: Outcome)
    requires SystemInv(s, n) && Calm(s.c, o) && AnswersExactly(s.c, o) && SetsResults(s, o) && Inv(o.state)
    ensures SystemInv(Absorb(s, o), n)
  {
    hide Accounts, Behind, Woken, Counted, Calm, AnswersExactly, SetsResults, Local, Acyclic, HurryClosed, WaitGraph;
    CalmKeepsAccounts(s, n, o);
    assert Slots(s) by { AccountsTrack(s, n); }
    CalmKeepsBehind(s, o);
    CalmKeepsCounts(s, o);
    WokenOnce(s, o, Absorb(s, o));
  }

  lemma AccountsTrack(s: System, n: nat)
    requires Accounts(s, n)
    ensures Slots(s)
  {
  }
}
