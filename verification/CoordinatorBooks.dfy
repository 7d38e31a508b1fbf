/** What the coordinator keeps beside each attempt and wait, so as not to search: lists, and counts of edges. */
module CoordinatorBooks {
  import opened Wrappers
  import opened Graphs
  import opened CoordinatorModel
  import opened QueueLines

  /** `edges` counts, by the attempt that waits and the one waited on; `outstanding` are the take-backs under way. */
  datatype Books = Books(
    byMe: map<AttemptId, seq<WaitId>>,
    onMe: map<AttemptId, seq<WaitId>>,
    edges: map<AttemptId, map<AttemptId, nat>>,
    live: seq<WaitId>,
    outstanding: set<AttemptId>)

  /** `l` lists exactly the waits of `s`, each once. */
  ghost predicate Lists(l: seq<WaitId>, s: set<WaitId>) {
    Distinct(l) && forall w :: w in l <==> w in s
  }

  ghost function MadeWaits(s: State, a: AttemptId): set<WaitId> {
    set w | w in s.waits && MadeBy(s.waits[w], a)
  }

  ghost function LiveWaits(s: State): set<WaitId> {
    set w | w in s.waits && Live(s.waits[w])
  }

  ghost function BlockedBetween(s: State, a: AttemptId, b: AttemptId): set<WaitId> {
    set w | w in s.waits && Blocks(s.waits[w], a, b)
  }

  /** Each edge is counted as often as there are blocked waits along it, and no other is. */
  ghost predicate CountsEdges(edges: map<AttemptId, nat>, s: State, a: AttemptId) {
    forall b :: CountsEdge(edges, s, a, b)
  }

  ghost predicate CountsEdge(edges: map<AttemptId, nat>, s: State, a: AttemptId, b: AttemptId) {
    EdgeCount(edges, b) == |BlockedBetween(s, a, b)| && (b in edges ==> edges[b] > 0)
  }

  function EdgeCount(edges: map<AttemptId, nat>, b: AttemptId): nat {
    if b in edges then edges[b] else 0
  }

  ghost predicate BooksOk(s: State, b: Books) {
    && b.byMe.Keys == b.onMe.Keys == b.edges.Keys == s.attempts.Keys
    && (forall a :: a in s.attempts ==> AccountOk(s, b, a))
    && Lists(b.live, LiveWaits(s))
    && b.outstanding <= s.attempts.Keys
  }

  /** The books of one attempt. */
  ghost predicate AccountOk(s: State, b: Books, a: AttemptId)
    requires a in s.attempts && a in b.byMe && a in b.onMe && a in b.edges
  {
    && Lists(b.byMe[a], MadeWaits(s, a))
    && Lists(b.onMe[a], BlockedOn(s, a))
    && CountsEdges(b.edges[a], s, a)
    && (a in b.outstanding <==> s.attempts[a].permit == Reacquiring)
  }

  // ---- One wait leaves, or enters --------------------------------------------------------------

  lemma ListsWithout(l: seq<WaitId>, s: set<WaitId>, w: WaitId)
    requires Lists(l, s)
    ensures Lists(Without(l, w), s - {w})
  {
    WithoutDistinct(l, w);
  }

  lemma ListsPush(l: seq<WaitId>, s: set<WaitId>, w: WaitId)
    requires Lists(l, s) && w !in s
    ensures Lists(l + [w], s + {w})
  {
  }

  /** One edge fewer; with none left, the entry goes too. */
  function Decremented(edges: map<AttemptId, nat>, b: AttemptId): map<AttemptId, nat> {
    if b !in edges then edges
    else if edges[b] <= 1 then edges - {b}
    else edges[b := edges[b] - 1]
  }

  function Incremented(edges: map<AttemptId, nat>, b: AttemptId): map<AttemptId, nat> {
    edges[b := EdgeCount(edges, b) + 1]
  }

  /** The wait `w` is now as `after`, for better or worse. */
  function WithWaitAs(s: State, w: WaitId, after: Wait): State {
    s.(waits := s.waits[w := after])
  }

  lemma OneLess(x: set<WaitId>, w: WaitId)
    requires w in x
    ensures |x - {w}| == |x| - 1
  {
  }

  lemma OneMore(x: set<WaitId>, w: WaitId)
    requires w !in x
    ensures |x + {w}| == |x| + 1
  {
  }

  /** An edge that stops blocking is counted once less. */
  lemma UnblockedEdges(edges: map<AttemptId, nat>, s: State, a: AttemptId, w: WaitId, after: Wait)
    requires CountsEdges(edges, s, a) && w in s.waits && s.waits[w].state == Blocked && s.waits[w].requester == Some(a)
    requires after.state != Blocked
    ensures CountsEdges(Decremented(edges, s.waits[w].target), WithWaitAs(s, w, after), a)
  {
    var t := WithWaitAs(s, w, after);
    var fewer := Decremented(edges, s.waits[w].target);
    forall b ensures CountsEdge(fewer, t, a, b) {
      assert CountsEdge(edges, s, a, b);
      if b == s.waits[w].target {
        assert BlockedBetween(t, a, b) == BlockedBetween(s, a, b) - {w};
        OneLess(BlockedBetween(s, a, b), w);
      } else {
        assert BlockedBetween(t, a, b) == BlockedBetween(s, a, b);
      }
    }
  }

  /** Edges of attempts that are not the requester of a wait that changes do not change. */
  lemma SameEdges(edges: map<AttemptId, nat>, s: State, a: AttemptId, w: WaitId, after: Wait)
    requires CountsEdges(edges, s, a)
    requires w in s.waits ==> !(s.waits[w].state == Blocked && s.waits[w].requester == Some(a))
    requires !(after.state == Blocked && after.requester == Some(a))
    ensures CountsEdges(edges, WithWaitAs(s, w, after), a)
  {
    var t := WithWaitAs(s, w, after);
    forall b ensures CountsEdge(edges, t, a, b) {
      assert CountsEdge(edges, s, a, b);
      assert BlockedBetween(t, a, b) == BlockedBetween(s, a, b);
    }
  }

  lemma BlockedEdges(edges: map<AttemptId, nat>, s: State, a: AttemptId, w: WaitId, after: Wait)
    requires CountsEdges(edges, s, a) && w !in s.waits && after.state == Blocked && after.requester == Some(a)
    ensures CountsEdges(Incremented(edges, after.target), WithWaitAs(s, w, after), a)
  {
    var t := WithWaitAs(s, w, after);
    var more := Incremented(edges, after.target);
    forall b ensures CountsEdge(more, t, a, b) {
      assert CountsEdge(edges, s, a, b);
      if b == after.target {
        assert BlockedBetween(t, a, b) == BlockedBetween(s, a, b) + {w};
        OneMore(BlockedBetween(s, a, b), w);
      } else {
        assert BlockedBetween(t, a, b) == BlockedBetween(s, a, b);
      }
    }
  }

  // ---- What the coordinator does to the books --------------------------------------------------

  function EdgeRemoved(b: Books, from: AttemptId, to: AttemptId): Books
    requires from in b.edges
  {
    b.(edges := b.edges[from := Decremented(b.edges[from], to)])
  }

  function OffTarget(b: Books, w: WaitId, target: AttemptId): Books
    requires target in b.onMe
  {
    b.(onMe := b.onMe[target := Without(b.onMe[target], w)])
  }

  function OffRequester(b: Books, w: WaitId, requester: AttemptId): Books
    requires requester in b.byMe
  {
    b.(byMe := b.byMe[requester := Without(b.byMe[requester], w)])
  }

  function Unlinked(b: Books, w: WaitId, wait: Wait): Books
    requires wait.target in b.onMe && (wait.requester.Some? ==> wait.requester.value in b.byMe)
  {
    var off := if wait.requester.Some? then OffRequester(b, w, wait.requester.value) else b;
    OffTarget(off, w, wait.target).(live := Without(b.live, w))
  }

  /** The ends of a wait are attempts. */
  predicate EndsExist(s: State, wait: Wait) {
    wait.target in s.attempts && (wait.requester.Some? ==> wait.requester.value in s.attempts)
  }

  predicate HasEdge(wait: Wait) { wait.state == Blocked && wait.requester.Some? }

  function Unedged(b: Books, wait: Wait): Books
    requires wait.requester.Some? ==> wait.requester.value in b.edges
  {
    if HasEdge(wait) then EdgeRemoved(b, wait.requester.value, wait.target) else b
  }

  /** A wait answered leaves every list, and its edge. */
  lemma AnswerKeepsBooks(s: State, b: Books, w: WaitId, result: Code)
    requires BooksOk(s, b) && w in s.waits && Live(s.waits[w]) && EndsExist(s, s.waits[w])
    ensures BooksOk(s.(waits := Answered(s.waits, {w}, result)), Unlinked(Unedged(b, s.waits[w]), w, s.waits[w]))
  {
    var wait := s.waits[w];
    var after := wait.(state := Done, result := result);
    var t := WithWaitAs(s, w, after);
    assert t.waits == Answered(s.waits, {w}, result);
    var c := Unlinked(Unedged(b, wait), w, wait);
    forall a | a in t.attempts ensures AccountOk(t, c, a) {
      AnswerKeepsAccount(s, b, w, result, a);
    }
    hide AccountOk, CountsEdges;
    assert LiveWaits(t) == LiveWaits(s) - {w};
    ListsWithout(b.live, LiveWaits(s), w);
  }

  lemma AnswerKeepsAccount(s: State, b: Books, w: WaitId, result: Code, a: AttemptId)
    requires BooksOk(s, b) && w in s.waits && Live(s.waits[w]) && EndsExist(s, s.waits[w]) && a in s.attempts
    ensures AccountOk(WithWaitAs(s, w, s.waits[w].(state := Done, result := result)),
                      Unlinked(Unedged(b, s.waits[w]), w, s.waits[w]), a)
  {
    var wait := s.waits[w];
    var after := wait.(state := Done, result := result);
    var t := WithWaitAs(s, w, after);
    assert AccountOk(s, b, a);
    hide Lists, CountsEdges;
    assert MadeWaits(t, a) == if wait.requester == Some(a) then MadeWaits(s, a) - {w} else MadeWaits(s, a);
    ListsWithout(b.byMe[a], MadeWaits(s, a), w);
    assert BlockedOn(t, a) == if wait.target == a then BlockedOn(s, a) - {w} else BlockedOn(s, a);
    ListsWithout(b.onMe[a], BlockedOn(s, a), w);
    if HasEdge(wait) && wait.requester.value == a {
      UnblockedEdges(b.edges[a], s, a, w, after);
    } else {
      SameEdges(b.edges[a], s, a, w, after);
    }
  }

  /** A wait ready for its answer is no longer on its target, but still its requester's. */
  lemma ReadyKeepsBooks(s: State, b: Books, w: WaitId, result: Code)
    requires BooksOk(s, b) && w in s.waits && HasEdge(s.waits[w]) && EndsExist(s, s.waits[w])
    ensures BooksOk(WithWaitAs(s, w, s.waits[w].(state := Ready, result := result)),
                    OffTarget(EdgeRemoved(b, s.waits[w].requester.value, s.waits[w].target), w, s.waits[w].target))
  {
    var wait := s.waits[w];
    var t := WithWaitAs(s, w, wait.(state := Ready, result := result));
    var c := OffTarget(EdgeRemoved(b, wait.requester.value, wait.target), w, wait.target);
    forall a | a in t.attempts ensures AccountOk(t, c, a) {
      ReadyKeepsAccount(s, b, w, result, a);
    }
    hide AccountOk;
    assert LiveWaits(t) == LiveWaits(s);
  }

  lemma ReadyKeepsAccount(s: State, b: Books, w: WaitId, result: Code, a: AttemptId)
    requires BooksOk(s, b) && w in s.waits && HasEdge(s.waits[w]) && EndsExist(s, s.waits[w]) && a in s.attempts
    ensures AccountOk(WithWaitAs(s, w, s.waits[w].(state := Ready, result := result)),
                      OffTarget(EdgeRemoved(b, s.waits[w].requester.value, s.waits[w].target), w, s.waits[w].target), a)
  {
    var wait := s.waits[w];
    var after := wait.(state := Ready, result := result);
    var t := WithWaitAs(s, w, after);
    assert AccountOk(s, b, a);
    hide Lists, CountsEdges;
    assert MadeWaits(t, a) == MadeWaits(s, a);
    assert BlockedOn(t, a) == if wait.target == a then BlockedOn(s, a) - {w} else BlockedOn(s, a);
    ListsWithout(b.onMe[a], BlockedOn(s, a), w);
    if wait.requester.value == a {
      UnblockedEdges(b.edges[a], s, a, w, after);
    } else {
      SameEdges(b.edges[a], s, a, w, after);
    }
  }

  /** The books with one more blocked wait. */
  function Linked(b: Books, w: WaitId, target: AttemptId, requester: Option<AttemptId>): Books
    requires target in b.onMe && (requester.Some? ==> requester.value in b.byMe && requester.value in b.edges)
  {
    var on := b.(live := b.live + [w], onMe := b.onMe[target := b.onMe[target] + [w]]);
    if requester.Some? then
      on.(byMe := b.byMe[requester.value := b.byMe[requester.value] + [w]],
          edges := b.edges[requester.value := Incremented(b.edges[requester.value], target)])
    else on
  }

  lemma LinkKeepsBooks(s: State, b: Books, w: WaitId, target: AttemptId, requester: Option<AttemptId>)
    requires BooksOk(s, b) && w !in s.waits && EndsExist(s, Wait(target, requester, Blocked, Success))
    ensures BooksOk(WithWait(s, w, target, requester), Linked(b, w, target, requester))
  {
    var t, c := WithWait(s, w, target, requester), Linked(b, w, target, requester);
    forall a | a in t.attempts ensures AccountOk(t, c, a) {
      LinkKeepsAccount(s, b, w, target, requester, a);
    }
    hide AccountOk;
    assert LiveWaits(t) == LiveWaits(s) + {w};
    ListsPush(b.live, LiveWaits(s), w);
  }

  lemma LinkKeepsAccount(s: State, b: Books, w: WaitId, target: AttemptId, requester: Option<AttemptId>, a: AttemptId)
    requires BooksOk(s, b) && w !in s.waits && EndsExist(s, Wait(target, requester, Blocked, Success)) && a in s.attempts
    ensures AccountOk(WithWait(s, w, target, requester), Linked(b, w, target, requester), a)
  {
    var after := Wait(target, requester, Blocked, Success);
    var t := WithWait(s, w, target, requester);
    assert AccountOk(s, b, a);
    hide Lists, CountsEdges;
    assert MadeWaits(t, a) == if requester == Some(a) then MadeWaits(s, a) + {w} else MadeWaits(s, a);
    assert BlockedOn(t, a) == if target == a then BlockedOn(s, a) + {w} else BlockedOn(s, a);
    ListsPush(b.byMe[a], MadeWaits(s, a), w);
    ListsPush(b.onMe[a], BlockedOn(s, a), w);
    if requester == Some(a) {
      BlockedEdges(b.edges[a], s, a, w, after);
    } else {
      SameEdges(b.edges[a], s, a, w, after);
    }
  }

  /** Nothing in the books depends on anything of an attempt but whether its permit is being taken back. */
  lemma AttemptsKeepBooks(s: State, t: State, b: Books, c: Books)
    requires BooksOk(s, b) && t.waits == s.waits && t.attempts.Keys == s.attempts.Keys
    requires c == b.(outstanding := c.outstanding) && c.outstanding <= s.attempts.Keys
    requires forall a :: a in s.attempts ==> (a in c.outstanding <==> t.attempts[a].permit == Reacquiring)
    ensures BooksOk(t, c)
  {
    forall a | a in t.attempts ensures AccountOk(t, c, a) {
      assert AccountOk(s, b, a);
      assert MadeWaits(t, a) == MadeWaits(s, a) && BlockedOn(t, a) == BlockedOn(s, a);
      forall x ensures CountsEdge(c.edges[a], t, a, x) {
        assert CountsEdge(b.edges[a], s, a, x);
        assert BlockedBetween(t, a, x) == BlockedBetween(s, a, x);
      }
    }
    assert LiveWaits(t) == LiveWaits(s);
  }

  lemma NoWaitsYet(s: State, a: AttemptId)
    requires Known(s) && a !in s.attempts
    ensures MadeWaits(s, a) == {} && BlockedOn(s, a) == {} && forall x :: BlockedBetween(s, a, x) == {}
  {
    forall w | w in s.waits ensures !MadeBy(s.waits[w], a) && s.waits[w].target != a && s.waits[w].requester != Some(a) {
    }
    assert forall w :: w !in MadeWaits(s, a);
    assert forall w :: w !in BlockedOn(s, a);
    forall x ensures BlockedBetween(s, a, x) == {} {
      assert forall w :: w !in BlockedBetween(s, a, x);
    }
  }

  /** The books with a new attempt in them. */
  function Opened(b: Books, a: AttemptId): Books {
    b.(byMe := b.byMe[a := []], onMe := b.onMe[a := []], edges := b.edges[a := map[]])
  }

  lemma CreateKeepsBooks(s: State, t: State, b: Books, a: AttemptId)
    requires BooksOk(s, b) && Known(s) && a !in s.attempts && t.waits == s.waits
    requires t.attempts.Keys == s.attempts.Keys + {a} && t.attempts[a].permit != Reacquiring
    requires forall x :: x in s.attempts ==> t.attempts[x] == s.attempts[x]
    ensures BooksOk(t, Opened(b, a))
  {
    var c := Opened(b, a);
    NoWaitsYet(s, a);
    hide Known;
    forall x | x in t.attempts ensures AccountOk(t, c, x) {
      CreateKeepsAccount(s, t, b, a, x);
    }
    hide AccountOk;
    assert LiveWaits(t) == LiveWaits(s);
  }

  lemma CreateKeepsAccount(s: State, t: State, b: Books, a: AttemptId, x: AttemptId)
    requires BooksOk(s, b) && a !in s.attempts && t.waits == s.waits
    requires x in t.attempts && t.attempts.Keys == s.attempts.Keys + {a} && t.attempts[a].permit != Reacquiring
    requires x in s.attempts ==> t.attempts[x] == s.attempts[x]
    requires MadeWaits(s, a) == {} && BlockedOn(s, a) == {} && forall y :: BlockedBetween(s, a, y) == {}
    ensures AccountOk(t, Opened(b, a), x)
  {
    assert MadeWaits(t, x) == MadeWaits(s, x) && BlockedOn(t, x) == BlockedOn(s, x);
    assert x != a ==> AccountOk(s, b, x);
    forall y ensures CountsEdge(Opened(b, a).edges[x], t, x, y) {
      assert x != a ==> CountsEdge(b.edges[x], s, x, y);
      assert BlockedBetween(t, x, y) == BlockedBetween(s, x, y);
    }
  }

  /** All that is kept while the coordinator's lock is held, the permit protocol apart. */
  ghost predicate Bookkept(s: State, b: Books) {
    Known(s) && BooksOk(s, b)
  }

  /** What the books hold of one attempt. */
  lemma Account(s: State, b: Books, a: AttemptId)
    requires Bookkept(s, b) && a in s.attempts
    ensures a in b.byMe && a in b.onMe && a in b.edges && AccountOk(s, b, a)
    ensures b.outstanding <= s.attempts.Keys
  {
  }

  lemma MadeListed(s: State, b: Books, a: AttemptId)
    requires Bookkept(s, b) && a in s.attempts
    ensures a in b.byMe && Lists(b.byMe[a], MadeWaits(s, a))
    ensures forall k :: 0 <= k < |b.byMe[a]| ==> b.byMe[a][k] in s.waits && MadeBy(s.waits[b.byMe[a][k]], a)
  {
    assert AccountOk(s, b, a);
    var made := b.byMe[a];
    forall k | 0 <= k < |made| ensures made[k] in s.waits && MadeBy(s.waits[made[k]], a) {
      ListedAt(made, MadeWaits(s, a), k);
    }
  }

  lemma ListedAt(l: seq<WaitId>, s: set<WaitId>, k: nat)
    requires Lists(l, s) && k < |l|
    ensures l[k] in s
  {
    var w := l[k];
    assert w in l && w in s;
  }

  lemma WaitEnds(s: State, b: Books, w: WaitId)
    requires Bookkept(s, b) && w in s.waits
    ensures EndsExist(s, s.waits[w])
    ensures s.waits[w].target in b.onMe
    ensures s.waits[w].requester.Some? ==> s.waits[w].requester.value in b.byMe && s.waits[w].requester.value in b.edges
  {
  }

  lemma AnswerBooked(s: State, b: Books, w: WaitId, result: Code)
    requires Bookkept(s, b) && w in s.waits && Live(s.waits[w]) && EndsExist(s, s.waits[w])
    requires s.waits[w].target in b.onMe
    requires s.waits[w].requester.Some? ==> s.waits[w].requester.value in b.byMe && s.waits[w].requester.value in b.edges
    ensures Bookkept(s.(waits := Answered(s.waits, {w}, result)), Unlinked(Unedged(b, s.waits[w]), w, s.waits[w]))
  {
    AnswerKeepsBooks(s, b, w, result);
    hide BooksOk;
  }

  lemma ReadyBooked(s: State, b: Books, w: WaitId, result: Code)
    requires Bookkept(s, b) && w in s.waits && HasEdge(s.waits[w]) && EndsExist(s, s.waits[w])
    requires s.waits[w].target in b.onMe && s.waits[w].requester.value in b.edges
    ensures Bookkept(WithWaitAs(s, w, s.waits[w].(state := Ready, result := result)),
                     OffTarget(EdgeRemoved(b, s.waits[w].requester.value, s.waits[w].target), w, s.waits[w].target))
  {
    ReadyKeepsBooks(s, b, w, result);
    hide BooksOk;
  }

  /** A permit changes; the books note whether it is being taken back. */
  lemma PermitBooked(s: State, b: Books, a: AttemptId, permit: Permit)
    requires Bookkept(s, b) && a in s.attempts
    ensures Bookkept(s.(attempts := s.attempts[a := s.attempts[a].(permit := permit)]),
                     b.(outstanding := if permit == Reacquiring then b.outstanding + {a} else b.outstanding - {a}))
  {
    var t := s.(attempts := s.attempts[a := s.attempts[a].(permit := permit)]);
    var c := b.(outstanding := if permit == Reacquiring then b.outstanding + {a} else b.outstanding - {a});
    OutstandingReacquiring(s, b);
    PermitKeepsKnown(s, a, permit);
    assert c.outstanding <= s.attempts.Keys by {
      Account(s, b, a);
    }
    hide Known, AccountOk, Lists, BooksOk;
    AttemptsKeepBooks(s, t, b, c);
  }

  lemma PermitKeepsKnown(s: State, a: AttemptId, permit: Permit)
    requires Known(s) && a in s.attempts
    ensures Known(s.(attempts := s.attempts[a := s.attempts[a].(permit := permit)]))
  {
  }

  lemma OutstandingReacquiring(s: State, b: Books)
    requires BooksOk(s, b)
    ensures forall a :: a in s.attempts ==> (a in b.outstanding <==> s.attempts[a].permit == Reacquiring)
  {
    forall a | a in s.attempts ensures a in b.outstanding <==> s.attempts[a].permit == Reacquiring {
      assert AccountOk(s, b, a);
    }
  }

  /** Changes to attempts that leave permits alone leave the books as they were. */
  lemma AttemptsBooked(s: State, t: State, b: Books)
    requires Bookkept(s, b) && Known(t) && t.waits == s.waits && t.attempts.Keys == s.attempts.Keys
    requires forall a :: a in s.attempts ==> t.attempts[a].permit == s.attempts[a].permit
    ensures Bookkept(t, b)
  {
    OutstandingReacquiring(s, b);
    hide AccountOk, Lists, Known;
    AttemptsKeepBooks(s, t, b, b);
  }

  lemma {:induction false} TakeOne(l: seq<WaitId>, i: nat)
    requires Distinct(l) && i < |l|
    ensures l[i] !in l[..i]
    ensures forall w :: w in l[..i + 1] <==> w in l[..i] || w == l[i]
  {
    assert l[..i + 1] == l[..i] + [l[i]];
  }

  lemma AllTaken(l: seq<WaitId>, s: set<WaitId>, taken: set<WaitId>)
    requires Lists(l, s) && forall w :: w in taken <==> w in l[..|l|]
    ensures taken == s
  {
    assert l[..|l|] == l;
    forall w ensures w in taken <==> w in s {
    }
  }

  lemma OnListed(s: State, b: Books, a: AttemptId)
    requires Bookkept(s, b) && a in s.attempts
    ensures a in b.onMe && Lists(b.onMe[a], BlockedOn(s, a))
  {
    assert AccountOk(s, b, a);
  }

  /** No list is empty while something is to be on it. */
  lemma NoneMade(s: State, b: Books, a: AttemptId)
    requires Bookkept(s, b) && a in s.attempts
    ensures a in b.byMe && (b.byMe[a] == [] <==> !HasLive(s, a))
  {
    MadeListed(s, b, a);
    var made := b.byMe[a];
    if made != [] {
      ListedAt(made, MadeWaits(s, a), 0);
      var w := made[0];
      assert w in s.waits && MadeBy(s.waits[w], a);
    }
    forall w | w in s.waits && MadeBy(s.waits[w], a) ensures made != [] {
      assert w in MadeWaits(s, a);
      assert w in made;
    }
  }

  lemma OutstandingBooked(s: State, b: Books, a: AttemptId)
    requires Bookkept(s, b) && a in s.attempts
    ensures a in b.outstanding <==> s.attempts[a].permit == Reacquiring
  {
    OutstandingReacquiring(s, b);
  }

  lemma StoppingBooked(s: State, b: Books, a: AttemptId)
    requires Bookkept(s, b) && a in s.attempts
    ensures Bookkept(s.(attempts := s.attempts[a := s.attempts[a].(stopping := true)]), b)
  {
    AttemptsBooked(s, s.(attempts := s.attempts[a := s.attempts[a].(stopping := true)]), b);
  }

  lemma DrainBooked(s: State, b: Books, a: AttemptId)
    requires Bookkept(s, b) && a in s.attempts
    ensures Bookkept(s.(attempts := s.attempts[a := s.attempts[a].(draining := false)]), b)
  {
    AttemptsBooked(s, s.(attempts := s.attempts[a := s.attempts[a].(draining := false)]), b);
  }

  /** A change to attempts alone that keeps what is known, and permits, keeps the books. */
  lemma ChangeBooked(s: State, t: State, b: Books, a: AttemptId)
    requires Bookkept(s, b) && Known(t) && t.waits == s.waits && a in s.attempts && a in t.attempts
    requires t.attempts == s.attempts[a := t.attempts[a]]
    requires t.attempts[a].permit == s.attempts[a].permit || (t.attempts[a].permit != Reacquiring && s.attempts[a].permit != Reacquiring)
    ensures Bookkept(t, b)
  {
    OutstandingReacquiring(s, b);
    hide AccountOk, Lists, Known;
    AttemptsKeepBooks(s, t, b, b);
  }

  lemma CreateBooked(s: State, t: State, b: Books, a: AttemptId)
    requires Bookkept(s, b) && Known(t) && a !in s.attempts && t.waits == s.waits
    requires t.attempts.Keys == s.attempts.Keys + {a} && t.attempts[a].permit != Reacquiring
    requires forall x :: x in s.attempts ==> t.attempts[x] == s.attempts[x]
    ensures Bookkept(t, Opened(b, a))
  {
    CreateKeepsBooks(s, t, b, a);
  }

  lemma KnownOf(s: State)
    requires Inv(s)
    ensures Known(s)
  {
  }

  lemma EdgesListed(s: State, b: Books, from: AttemptId, to: AttemptId)
    requires Bookkept(s, b) && from in s.attempts
    ensures from in b.edges && EdgeCount(b.edges[from], to) == |BlockedBetween(s, from, to)|
  {
    assert AccountOk(s, b, from);
    assert CountsEdge(b.edges[from], s, from, to);
  }

  // ---- Reading the graph off the books ---------------------------------------------------------

  /** Where the wait graph goes on from `a`, as read from the books. */
  function Successors(s: State, b: Books, a: AttemptId): set<AttemptId>
    requires a in s.attempts && a in b.edges
  {
    b.edges[a].Keys
    + if s.attempts[a].phase == Pending && s.attempts[a].predecessor.Some? then {s.attempts[a].predecessor.value} else {}
  }

  lemma BooksHoldGraph(s: State, b: Books, a: AttemptId)
    requires BooksOk(s, b) && Known(s) && a in s.attempts
    ensures forall x :: Edge(WaitGraph(s), a, x) <==> x in Successors(s, b, a)
    ensures Successors(s, b, a) <= s.attempts.Keys
  {
    WaitGraphEdges(s);
    forall x ensures WaitsOn(s, a, x) <==> x in Successors(s, b, a) {
      assert CountsEdge(b.edges[a], s, a, x) by { assert AccountOk(s, b, a); }
      if x in b.edges[a] {
        var w := Member(BlockedBetween(s, a, x));
        assert w in s.waits && Blocks(s.waits[w], a, x);
      } else {
        assert BlockedBetween(s, a, x) == {};
        assert forall w :: w in s.waits && Blocks(s.waits[w], a, x) ==> w in BlockedBetween(s, a, x);
      }
    }
    forall x | x in Successors(s, b, a) ensures x in s.attempts {
      assert WaitsOn(s, a, x);
    }
  }

  lemma GraphBooked(s: State, b: Books, a: AttemptId)
    requires Bookkept(s, b) && a in s.attempts
    ensures a in b.edges
    ensures forall x :: Edge(WaitGraph(s), a, x) <==> x in Successors(s, b, a)
    ensures Successors(s, b, a) <= s.attempts.Keys
  {
    BooksHoldGraph(s, b, a);
  }

  lemma HurriedBooked(s: State, b: Books, hurried: set<AttemptId>)
    requires Bookkept(s, b)
    ensures Bookkept(CoordinatorModel.Hurry(s, hurried), b)
  {
    AttemptsBooked(s, CoordinatorModel.Hurry(s, hurried), b);
  }

  lemma DoomedBooked(s: State, b: Books, a: AttemptId)
    requires Bookkept(s, b) && a in s.attempts
    ensures Bookkept(s.(attempts := s.attempts[a := s.attempts[a].(doomed := true)]), b)
  {
    AttemptsBooked(s, s.(attempts := s.attempts[a := s.attempts[a].(doomed := true)]), b);
  }

  lemma LinkBooked(s: State, b: Books, w: WaitId, target: AttemptId, requester: Option<AttemptId>)
    requires Bookkept(s, b) && w !in s.waits && EndsExist(s, Wait(target, requester, Blocked, Success))
    ensures target in b.onMe && (requester.Some? ==> requester.value in b.byMe && requester.value in b.edges)
    ensures Bookkept(WithWait(s, w, target, requester), Linked(b, w, target, requester))
  {
    LinkKeepsBooks(s, b, w, target, requester);
    hide BooksOk;
  }
}
