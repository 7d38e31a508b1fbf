/** How long anyone waits in line, over whatever happens to the queue meanwhile. */
module QueueWaits {
  import opened QueueLines

  datatype Event<W> =
    | Arrives(w: W, reacquire: bool, isPromoted: bool)
    | Leaves(w: W, reacquire: bool)
    | Raised(w: W)
    | GivenBack

  /** What may happen to a queue with no slot free: a newcomer, one stopped, one promoted, or a slot given back. */
  ghost predicate CanHappen<W>(l: Lines<W>, e: Event<W>) {
    match e
    case Arrives(v, _, _) => v !in l.All() && l.free == 0
    case Leaves(v, reacquire) => v in l.All() && (reacquire <==> v in l.reacquiring)
    case Raised(_) => true
    case GivenBack => true
  }

  function After<W>(l: Lines<W>, e: Event<W>): Lines<W> {
    match e
    case Arrives(v, reacquire, isPromoted) => l.Enqueue(v, reacquire, isPromoted)
    case Leaves(v, reacquire) => l.Dequeue(v, reacquire)
    case Raised(v) => l.Promote(v)
    case GivenBack => l.Release()
  }

  /** Whether an event puts someone ahead of `w` who was not. */
  predicate Overtakes<W>(l: Lines<W>, e: Event<W>, w: W) {
    match e
    case Arrives(_, reacquire, isPromoted) =>
      (reacquire && w !in l.reacquiring) || (!reacquire && isPromoted && w in l.waiting)
    case Raised(v) => v != w && v in l.waiting && w in l.waiting
    case _ => false
  }

  lemma AfterOrderly<W>(l: Lines<W>, e: Event<W>)
    requires l.Orderly() && CanHappen(l, e)
    ensures After(l, e).Orderly()
  {
    match e
    case Arrives(v, reacquire, isPromoted) => EnqueueOrderly(l, v, reacquire, isPromoted);
    case Leaves(v, reacquire) => DequeueOrderly(l, v, reacquire);
    case Raised(v) => PromoteOrderly(l, v);
    case GivenBack => ReleaseOrderly(l);
  }

  // ---- Where taking one out, or moving it forward, leaves another -----------------------------

  lemma {:induction false} WithoutIs<W>(s: seq<W>, v: W)
    requires Distinct(s) && v in s
    ensures Without(s, v) == s[..IndexOf(s, v)] + s[IndexOf(s, v) + 1..]
  {
    var i := IndexOf(s, v);
    assert s == s[..i] + [v] + s[i + 1..];
    WithoutSplits(s[..i], v, s[i + 1..]);
  }

  lemma RestDistinct<W>(s: seq<W>, k: nat)
    requires Distinct(s) && k < |s|
    ensures Distinct(s[..k] + s[k + 1..])
  {
    var t := s[..k] + s[k + 1..];
    forall i, j | 0 <= i < j < |t| ensures t[i] != t[j] {
      assert t[i] == s[if i < k then i else i + 1] && t[j] == s[if j < k then j else j + 1];
    }
  }

  lemma TakenOutAt<W>(s: seq<W>, k: nat, i: nat)
    requires k < |s| && i < |s| && i != k
    ensures var j := if k < i then i - 1 else i; j < |s[..k] + s[k + 1..]| && (s[..k] + s[k + 1..])[j] == s[i]
  {
  }

  /** Taking one out of a line of distinct waiters puts nobody further back. */
  lemma TakenOut<W>(s: seq<W>, k: nat, w: W)
    requires Distinct(s) && k < |s| && w in s && s[k] != w
    ensures w in s[..k] + s[k + 1..]
    ensures IndexOf(s[..k] + s[k + 1..], w) == IndexOf(s, w) - if k < IndexOf(s, w) then 1 else 0
  {
    hide Distinct;
    var t, i := s[..k] + s[k + 1..], IndexOf(s, w);
    var j := if k < i then i - 1 else i;
    RestDistinct(s, k);
    TakenOutAt(s, k, i);
    IndexIsUnique(t, w, j);
  }

  lemma WithoutOneOf<W>(before: seq<W>, line: seq<W>, after: seq<W>, i: nat)
    requires i < |line|
    ensures var all, k := before + line + after, |before| + i;
      && all[k] == line[i]
      && before + (line[..i] + line[i + 1..]) + after == all[..k] + all[k + 1..]
  {
    var all, k := before + line + after, |before| + i;
    assert all[..k] == before + line[..i];
    assert all[k + 1..] == line[i + 1..] + after;
  }

  lemma TakenOutOf<W>(before: seq<W>, line: seq<W>, after: seq<W>, v: W, w: W)
    requires Distinct(before + line + after) && v in line && w in before + line + after && v != w
    ensures w in before + Without(line, v) + after
    ensures IndexOf(before + Without(line, v) + after, w) <= IndexOf(before + line + after, w)
  {
    var all := before + line + after;
    DistinctParts(before + line, after);
    DistinctParts(before, line);
    WithoutIs(line, v);
    var i := IndexOf(line, v);
    var k := |before| + i;
    hide Distinct, Without, IndexOf;
    WithoutOneOf(before, line, after, i);
    TakenOut(all, k, w);
  }

  lemma LeaverAhead<W>(l: Lines<W>, v: W, reacquire: bool, w: W)
    requires l.Orderly() && v in l.All() && (reacquire <==> v in l.reacquiring) && w in l.All() && v != w
    ensures w in l.Dequeue(v, reacquire).All() && Ahead(l.Dequeue(v, reacquire), w) <= Ahead(l, w)
  {
    hide Distinct, Without;
    if reacquire {
      assert l.All() == [] + l.reacquiring + (l.promoted + l.waiting);
      assert l.Dequeue(v, reacquire).All() == [] + Without(l.reacquiring, v) + (l.promoted + l.waiting);
      TakenOutOf([], l.reacquiring, l.promoted + l.waiting, v, w);
    } else if v in l.promoted {
      TakenOutOf(l.reacquiring, l.promoted, l.waiting, v, w);
    } else {
      assert l.All() == (l.reacquiring + l.promoted) + l.waiting + [];
      assert l.Dequeue(v, reacquire).All() == (l.reacquiring + l.promoted) + Without(l.waiting, v) + [];
      TakenOutOf(l.reacquiring + l.promoted, l.waiting, [], v, w);
    }
  }

  /** Promoting someone is taking them out, and putting them back behind the promoted. */
  lemma RaisedAhead<W>(l: Lines<W>, v: W, w: W)
    requires l.Orderly() && w in l.All()
    ensures w in l.Promote(v).All()
    ensures Ahead(l.Promote(v), w) <= Ahead(l, w) + if v != w && v in l.waiting && w in l.waiting then 1 else 0
  {
    LinesDistinct(l);
    PromoteOrderly(l, v);
    if v in l.waiting {
      var m := l.(waiting := Without(l.waiting, v));
      DequeueOrderly(l, v, false);
      assert l.Dequeue(v, false) == m;
      var raised := l.Promote(v);
      assert raised == m.Enqueue(v, false, true);
      assert l.free == 0;
      if v != w {
        LeaverAhead(l, v, false, w);
        NewcomerAhead(m, w, v, false, true);
        assert w in m.waiting <==> w in l.waiting;
      } else {
        RaisedItself(l, m, v);
      }
    }
  }

  lemma RaisedItself<W>(l: Lines<W>, m: Lines<W>, v: W)
    requires l.Orderly() && v in l.waiting && m == l.(waiting := Without(l.waiting, v)) && m.Enqueue(v, false, true).Orderly()
    ensures v in l.All() && v in m.Enqueue(v, false, true).All()
    ensures Ahead(m.Enqueue(v, false, true), v) <= Ahead(l, v)
  {
    var raised := m.Enqueue(v, false, true);
    var k := |l.reacquiring + l.promoted|;
    assert raised.All()[k] == v;
    IndexIsUnique(raised.All(), v, k);
    WhichLine(l, v);
  }

  /** Each event brings `w` closer by a slot given back, and no further back but by an overtaking. */
  lemma EventMoves<W>(l: Lines<W>, e: Event<W>, w: W)
    requires l.Orderly() && CanHappen(l, e) && w in l.All() && w in After(l, e).All()
    ensures Ahead(After(l, e), w) + (if e.GivenBack? then 1 else 0) <= Ahead(l, w) + if Overtakes(l, e, w) then 1 else 0
  {
    match e
    case Arrives(v, reacquire, isPromoted) => NewcomerAhead(l, w, v, reacquire, isPromoted);
    case Leaves(v, reacquire) => DequeueOrderly(l, v, reacquire); LeaverAhead(l, v, reacquire, w);
    case Raised(v) => RaisedAhead(l, v, w);
    case GivenBack => GivenBackMoves(l, w);
  }

  lemma GivenBackMoves<W>(l: Lines<W>, w: W)
    requires l.Orderly() && w in l.All() && w in l.Release().All()
    ensures Ahead(l.Release(), w) + 1 <= Ahead(l, w)
  {
    ReleaseBringsCloser(l, w);
    ReleaseOrderly(l);
  }

  // ---- Runs ------------------------------------------------------------------------------------

  /** A run of the queue with `w` in line all along. */
  ghost predicate WaitsAlong<W>(lines: seq<Lines<W>>, events: seq<Event<W>>, w: W) {
    && |lines| == |events| + 1 && lines[0].Orderly()
    && (forall i :: 0 <= i < |events| ==> CanHappen(lines[i], events[i]) && lines[i + 1] == After(lines[i], events[i]))
    && forall i :: 0 <= i < |lines| ==> w in lines[i].All()
  }

  function GivenBacks<W>(events: seq<Event<W>>): nat {
    if events == [] then 0 else GivenBacks(events[..|events| - 1]) + if events[|events| - 1].GivenBack? then 1 else 0
  }

  function Overtakings<W>(lines: seq<Lines<W>>, events: seq<Event<W>>, w: W): nat
    requires |lines| > |events|
  {
    if events == [] then 0
    else
      var last := |events| - 1;
      Overtakings(lines, events[..last], w) + if Overtakes(lines[last], events[last], w) then 1 else 0
  }

  /** Nobody waits through more slots given back than there were waiters ahead, and others that got ahead since. */
  lemma {:induction false} WaitIsBounded<W>(lines: seq<Lines<W>>, events: seq<Event<W>>, w: W)
    requires WaitsAlong(lines, events, w)
    ensures lines[|events|].Orderly()
    ensures Ahead(lines[|events|], w) + GivenBacks(events) <= Ahead(lines[0], w) + Overtakings(lines, events, w)
    decreases |events|
  {
    if events != [] {
      var last := |events| - 1;
      var fewer := events[..last];
      assert forall i :: 0 <= i < last ==> fewer[i] == events[i];
      WaitIsBounded(lines[..last + 1], fewer, w);
      SameOvertakings(lines, fewer, w);
      assert CanHappen(lines[last], events[last]) && lines[last + 1] == After(lines[last], events[last]);
      AfterOrderly(lines[last], events[last]);
      EventMoves(lines[last], events[last], w);
    }
  }

  lemma {:induction false} SameOvertakings<W>(lines: seq<Lines<W>>, events: seq<Event<W>>, w: W)
    requires |lines| > |events| + 1
    ensures Overtakings(lines[..|events| + 1], events, w) == Overtakings(lines, events, w)
    decreases |events|
  {
    OvertakingsOfPrefix(lines, lines[..|events| + 1], events, w);
  }

  lemma {:induction false} OvertakingsOfPrefix<W>(lines: seq<Lines<W>>, prefix: seq<Lines<W>>, events: seq<Event<W>>, w: W)
    requires |lines| >= |prefix| > |events| && prefix == lines[..|prefix|]
    ensures Overtakings(prefix, events, w) == Overtakings(lines, events, w)
    decreases |events|
  {
    if events != [] {
      OvertakingsOfPrefix(lines, prefix, events[..|events| - 1], w);
      assert prefix[|events| - 1] == lines[|events| - 1];
    }
  }
}
