/** Which rules could feed which, closed in place over every chain of rules. */
module Feeds {
  import opened Paths
  import opened Manifest
  import opened Graphs

  /** Rule `b` has a match among all that rule `a` may ever make. */
  predicate FeedsDirectly(a: Rule, b: Rule)
    requires a.WellFormed() && b.WellFormed()
  {
    && a.IsWildcard() && b.overOutputs
    && Parent(a.output) == Parent(b.source)
    && OutputPattern(a).Overlaps(SourcePattern(b))
  }

  /** The rules, by index, and which feeds which. */
  ghost function FeedGraph(rules: seq<Rule>): Graph
    requires WellFormedRules(rules)
  {
    set a, b | 0 <= a < |rules| && 0 <= b < |rules| && FeedsDirectly(rules[a], rules[b]) :: (a, b)
  }

  lemma FeedEdge(rules: seq<Rule>, a: nat, b: nat)
    requires WellFormedRules(rules) && a < |rules| && b < |rules|
    ensures Edge(FeedGraph(rules), a, b) <==> FeedsDirectly(rules[a], rules[b])
  {
  }

  lemma FeedEdgesAreRules(rules: seq<Rule>)
    requires WellFormedRules(rules)
    ensures forall x, y :: Edge(FeedGraph(rules), x, y) ==> 0 <= x < |rules| && 0 <= y < |rules|
  {
  }

  ghost predicate NoneFeedsItself(rules: seq<Rule>)
    requires WellFormedRules(rules)
  {
    Acyclic(FeedGraph(rules))
  }

  /** There is a path from `a` to `b` through nodes below `k` only. */
  ghost predicate Via(g: Graph, k: nat, a: int, b: int) {
    if k == 0 then Edge(g, a, b)
    else Via(g, k - 1, a, b) || (Via(g, k - 1, a, k - 1) && Via(g, k - 1, k - 1, b))
  }

  lemma {:induction false} ViaIsReaching(g: Graph, k: nat, a: int, b: int)
    requires Via(g, k, a, b)
    ensures Reaches(g, a, b)
  {
    if k == 0 {
      EmptyPath(g, b);
    } else if Via(g, k - 1, a, b) {
      ViaIsReaching(g, k - 1, a, b);
    } else {
      ViaIsReaching(g, k - 1, a, k - 1);
      ViaIsReaching(g, k - 1, k - 1, b);
      ConnectedSplits(g, k - 1, b);
      JoinReaching(g, a, k - 1, b);
    }
  }

  lemma {:induction false} ViaGrows(g: Graph, k: nat, n: nat, a: int, b: int)
    requires k <= n && Via(g, k, a, b)
    ensures Via(g, n, a, b)
    decreases n
  {
    if k < n {
      ViaGrows(g, k, n - 1, a, b);
    }
  }

  /** A way through a node below `k` can be taken in one go. */
  lemma {:induction false} ViaComposes(g: Graph, k: nat, a: int, m: int, b: int)
    requires 0 <= m < k && Via(g, k, a, m) && Via(g, k, m, b)
    ensures Via(g, k, a, b)
  {
    var j := k - 1;
    if m < j {
      if Via(g, j, a, m) && Via(g, j, m, b) {
        ViaComposes(g, j, a, m, b);
      } else if Via(g, j, a, m) {
        ViaComposes(g, j, a, m, j);
      } else if Via(g, j, m, b) {
        ViaComposes(g, j, j, m, b);
      }
    }
  }

  lemma {:induction false} ReachingIsVia(g: Graph, n: nat, p: seq<int>, a: int, b: int)
    requires forall x, y :: Edge(g, x, y) ==> 0 <= x < n && 0 <= y < n
    requires PathBetween(g, p, a, b) && |p| > 1
    ensures Via(g, n, a, b)
    decreases |p|
  {
    PathTail(g, p, a, b);
    ViaGrows(g, 0, n, a, p[1]);
    if |p| > 2 {
      ReachingIsVia(g, n, p[1..], p[1], b);
      ViaComposes(g, n, a, p[1], b);
    }
  }

  lemma ViaIffReaches(g: Graph, n: nat, a: int, b: int)
    requires forall x, y :: Edge(g, x, y) ==> 0 <= x < n && 0 <= y < n
    ensures Via(g, n, a, b) <==> Reaches(g, a, b)
  {
    if Via(g, n, a, b) {
      ViaIsReaching(g, n, a, b);
    }
    if Reaches(g, a, b) {
      var m :| Edge(g, a, m) && Connected(g, m, b);
      var p :| PathBetween(g, p, m, b);
      ViaGrows(g, 0, n, a, m);
      if |p| > 1 {
        ReachingIsVia(g, n, p, m, b);
        ViaComposes(g, n, a, m, b);
      }
    }
  }

  /** Each entry says whether there is a way from its row to its column through nodes below `k`. */
  ghost predicate Holds(feeds: array2<bool>, g: Graph, n: nat, k: nat)
    requires feeds.Length0 == feeds.Length1 == n
    reads feeds
  {
    forall x, y :: 0 <= x < n && 0 <= y < n ==> feeds[x, y] == Via(g, k, x, y)
  }

  /** One round of the triple loop, in place: lets ways go through `via` too. */
  method AllowVia(feeds: array2<bool>, via: nat, ghost g: Graph)
    requires feeds.Length0 == feeds.Length1 && via < feeds.Length0
    requires Holds(feeds, g, feeds.Length0, via)
    modifies feeds
    ensures Holds(feeds, g, feeds.Length0, via + 1)
  {
    var n := feeds.Length0;
    for a := 0 to n
      invariant forall x, y :: 0 <= x < n && 0 <= y < n ==> feeds[x, y] == Via(g, if x < a then via + 1 else via, x, y)
    {
      for b := 0 to n
        invariant forall x, y :: 0 <= x < n && 0 <= y < n ==>
          feeds[x, y] == Via(g, if x < a || (x == a && y < b) then via + 1 else via, x, y)
      {
        feeds[a, b] := feeds[a, b] || (feeds[a, via] && feeds[via, b]);
      }
    }
  }

  /** The triple loop over one matrix, in place, leaves exactly reachability. */
  method Close(rules: seq<Rule>) returns (feeds: array2<bool>)
    requires WellFormedRules(rules)
    ensures fresh(feeds) && feeds.Length0 == feeds.Length1 == |rules|
    ensures forall a, b :: 0 <= a < |rules| && 0 <= b < |rules| ==> (feeds[a, b] <==> Reaches(FeedGraph(rules), a, b))
  {
    hide FeedGraph, FeedsDirectly, Reaches, Edge;
    var n := |rules|;
    ghost var g := FeedGraph(rules);
    feeds := new bool[n, n];
    for a := 0 to n
      invariant forall x, y :: 0 <= x < a && 0 <= y < n ==> feeds[x, y] == Edge(g, x, y)
    {
      for b := 0 to n
        invariant forall x, y :: 0 <= x < a && 0 <= y < n ==> feeds[x, y] == Edge(g, x, y)
        invariant forall y :: 0 <= y < b ==> feeds[a, y] == Edge(g, a, y)
      {
        feeds[a, b] := FeedsDirectly(rules[a], rules[b]);
        FeedEdge(rules, a, b);
      }
    }
    FeedEdgesAreRules(rules);
    for via := 0 to n
      invariant Holds(feeds, g, n, via)
    {
      AllowVia(feeds, via, g);
    }
    forall a, b | 0 <= a < n && 0 <= b < n
      ensures feeds[a, b] <==> Reaches(g, a, b)
    {
      ViaIffReaches(g, n, a, b);
    }
  }
}
