/** Paths in finite directed graphs. */
module Graphs {
  type Graph = set<(int, int)>

  ghost predicate Edge(g: Graph, a: int, b: int) {
    (a, b) in g
  }

  ghost predicate IsPath(g: Graph, p: seq<int>) {
    p != [] && forall i :: 0 <= i < |p| - 1 ==> Edge(g, p[i], p[i + 1])
  }

  ghost predicate PathBetween(g: Graph, p: seq<int>, a: int, b: int) {
    IsPath(g, p) && p[0] == a && p[|p| - 1] == b
  }

  /** There is a path from `a` to `b`, of no edges if they are one node. */
  ghost predicate Connected(g: Graph, a: int, b: int) {
    exists p :: PathBetween(g, p, a, b)
  }

  /** There is a path from `a` to `b` of at least one edge. */
  ghost predicate Reaches(g: Graph, a: int, b: int) {
    exists m :: Edge(g, a, m) && Connected(g, m, b)
  }

  ghost predicate Acyclic(g: Graph) {
    forall a :: !Reaches(g, a, a)
  }

  lemma EmptyPath(g: Graph, a: int)
    ensures Connected(g, a, a)
  {
    assert PathBetween(g, [a], a, a);
  }

  lemma Prepend(g: Graph, a: int, m: int, b: int)
    requires Edge(g, a, m) && Connected(g, m, b)
    ensures Connected(g, a, b)
  {
    var p :| PathBetween(g, p, m, b);
    var q := [a] + p;
    forall i | 0 <= i < |q| - 1 ensures Edge(g, q[i], q[i + 1]) {
      if i > 0 {
        assert Edge(g, p[i - 1], p[i - 1 + 1]);
      }
    }
    assert PathBetween(g, q, a, b);
  }

  lemma Append(g: Graph, p: seq<int>, b: int)
    requires IsPath(g, p) && Edge(g, p[|p| - 1], b)
    ensures IsPath(g, p + [b])
  {
    var q := p + [b];
    forall i | 0 <= i < |q| - 1 ensures Edge(g, q[i], q[i + 1]) {
      if i < |p| - 1 {
        assert Edge(g, p[i], p[i + 1]);
      }
    }
  }

  /** A path of more than one node is an edge and a shorter path. */
  lemma PathTail(g: Graph, p: seq<int>, a: int, b: int)
    requires PathBetween(g, p, a, b) && |p| > 1
    ensures Edge(g, a, p[1]) && PathBetween(g, p[1..], p[1], b)
  {
    var q := p[1..];
    forall i | 0 <= i < |q| - 1 ensures Edge(g, q[i], q[i + 1]) {
      assert Edge(g, p[i + 1], p[i + 1 + 1]);
    }
    assert Edge(g, p[0], p[0 + 1]);
  }

  lemma ConnectedSplits(g: Graph, a: int, b: int)
    ensures Connected(g, a, b) <==> a == b || Reaches(g, a, b)
  {
    if Connected(g, a, b) && a != b {
      var p :| PathBetween(g, p, a, b);
      PathTail(g, p, a, b);
    }
    if a == b {
      EmptyPath(g, a);
    }
    if m :| Edge(g, a, m) && Connected(g, m, b) {
      Prepend(g, a, m, b);
    }
  }

  lemma {:induction false} JoinPath(g: Graph, p: seq<int>, a: int, m: int, b: int)
    requires PathBetween(g, p, a, m) && Connected(g, m, b)
    ensures Connected(g, a, b)
    decreases |p|
  {
    if |p| > 1 {
      PathTail(g, p, a, m);
      JoinPath(g, p[1..], p[1], m, b);
      Prepend(g, a, p[1], b);
    }
  }

  lemma Join(g: Graph, a: int, m: int, b: int)
    requires Connected(g, a, m) && Connected(g, m, b)
    ensures Connected(g, a, b)
  {
    var p :| PathBetween(g, p, a, m);
    JoinPath(g, p, a, m, b);
  }

  lemma JoinReaching(g: Graph, a: int, m: int, b: int)
    requires (Reaches(g, a, m) && Connected(g, m, b)) || (Connected(g, a, m) && Reaches(g, m, b))
    ensures Reaches(g, a, b)
  {
    ConnectedSplits(g, a, m);
    ConnectedSplits(g, m, b);
    if Reaches(g, a, m) {
      var n :| Edge(g, a, n) && Connected(g, n, m);
      Join(g, n, m, b);
    }
  }

  /** A piece of a path joins its ends. */
  lemma {:induction false} PathPiece(g: Graph, p: seq<int>, i: nat, j: nat)
    requires IsPath(g, p) && i <= j < |p|
    ensures Connected(g, p[i], p[j])
    ensures i < j ==> Reaches(g, p[i], p[j])
    decreases j - i
  {
    if i == j {
      EmptyPath(g, p[i]);
    } else {
      PathPiece(g, p, i + 1, j);
      assert Edge(g, p[i], p[i + 1]);
      Prepend(g, p[i], p[i + 1], p[j]);
    }
  }

  lemma {:induction false} PathInLarger(g: Graph, h: Graph, a: int, b: int)
    requires g <= h && Connected(g, a, b)
    ensures Connected(h, a, b)
  {
    var p :| PathBetween(g, p, a, b);
    assert forall i :: 0 <= i < |p| - 1 ==> Edge(g, p[i], p[i + 1]) && Edge(h, p[i], p[i + 1]);
    assert PathBetween(h, p, a, b);
  }

  /** Taking edges away makes no cycle. */
  lemma FewerEdgesStayAcyclic(g: Graph, h: Graph)
    requires g <= h && Acyclic(h)
    ensures Acyclic(g)
  {
    forall a ensures !Reaches(g, a, a) {
      assert !Reaches(h, a, a);
      if m :| Edge(g, a, m) && Connected(g, m, a) {
        PathInLarger(g, h, m, a);
        assert Edge(h, a, m);
      }
    }
  }

  /** A path through one more edge either does without it, or goes to its start and on from its end. */
  lemma {:induction false} PathWithEdge(g: Graph, r: int, t: int, p: seq<int>, a: int, b: int)
    requires PathBetween(g + {(r, t)}, p, a, b)
    ensures Connected(g, a, b) || (Connected(g, a, r) && Connected(g, t, b))
    decreases |p|
  {
    var h := g + {(r, t)};
    if |p| == 1 {
      EmptyPath(g, a);
    } else {
      PathTail(h, p, a, b);
      PathWithEdge(g, r, t, p[1..], p[1], b);
      if Edge(g, a, p[1]) {
        if Connected(g, p[1], b) {
          Prepend(g, a, p[1], b);
        } else {
          Prepend(g, a, p[1], r);
        }
      } else {
        EmptyPath(g, r);
      }
    }
  }

  /** An edge closes a cycle only if there was already a path back. */
  lemma AddEdgeStaysAcyclic(g: Graph, r: int, t: int)
    requires Acyclic(g) && !Connected(g, t, r)
    ensures Acyclic(g + {(r, t)})
  {
    var h := g + {(r, t)};
    forall a ensures !Reaches(h, a, a) {
      assert !Reaches(g, a, a);
      if m :| Edge(h, a, m) && Connected(h, m, a) {
        var p :| PathBetween(h, p, m, a);
        PathWithEdge(g, r, t, p, m, a);
        if Edge(g, a, m) {
          assert !Connected(g, m, a);
          Prepend(g, a, m, r);
          Join(g, t, a, r);
        } else {
          EmptyPath(g, r);
        }
      }
    }
  }

  /** From any node of an acyclic graph some node with no way on can be reached. */
  lemma {:induction false} ReachSink(g: Graph, a: int) returns (sink: int)
    requires Acyclic(g)
    ensures Connected(g, a, sink) && forall b :: !Edge(g, sink, b)
    decreases g
  {
    if b :| Edge(g, a, b) {
      var h := g - {(a, b)};
      FewerEdgesStayAcyclic(h, g);
      sink := ReachSink(h, b);
      PathInLarger(h, g, b, sink);
      assert sink == a ==> Reaches(g, a, a);
      assert forall c :: Edge(g, sink, c) ==> Edge(h, sink, c);
      Prepend(g, a, b, sink);
    } else {
      sink := a;
      EmptyPath(g, a);
    }
  }

  /** A set closed under the edges holds whatever its nodes reach. */
  lemma {:induction false} ClosedHoldsPath(g: Graph, s: set<int>, p: seq<int>, a: int, b: int)
    requires forall x, y :: x in s && Edge(g, x, y) ==> y in s
    requires a in s && PathBetween(g, p, a, b)
    ensures b in s
    decreases |p|
  {
    if |p| > 1 {
      PathTail(g, p, a, b);
      ClosedHoldsPath(g, s, p[1..], p[1], b);
    }
  }

  lemma Member(s: set<int>) returns (a: int)
    requires |s| > 0
    ensures a in s
  {
    assert (forall b :: b !in s) ==> s == {};
    a :| a in s;
  }

  function Backwards(p: seq<int>): (r: seq<int>)
    ensures |r| == |p|
  {
    seq(|p|, i requires 0 <= i < |p| => p[|p| - 1 - i])
  }

  lemma BackwardsAppend(p: seq<int>, a: int)
    ensures Backwards(p + [a]) == [a] + Backwards(p)
  {
  }

  lemma BackwardsTwice(p: seq<int>)
    ensures Backwards(Backwards(p)) == p
  {
  }

  function Nodes(p: seq<int>): set<int> {
    set a | a in p
  }

  lemma NodesAre(p: seq<int>, s: set<int>)
    requires forall a :: a in s <==> a in p
    ensures s == Nodes(p)
  {
    forall a ensures a in s <==> a in Nodes(p) {
    }
  }
}
