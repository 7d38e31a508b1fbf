/** The lines for a slot, as sequences: what the linked queue refines. */
module QueueLines {
  import opened Wrappers

  /** Free slots, and who is in line: leases taking one back, promoted work, and the rest, oldest first. */
  datatype Lines<!W(==)> = Lines(free: nat, reacquiring: seq<W>, promoted: seq<W>, waiting: seq<W>) {
    /** Everyone in line, in the order they would be served. */
    function All(): seq<W> { reacquiring + promoted + waiting }

    /** A slot is free only if nobody is in line, and nobody is in line twice. */
    ghost predicate Orderly() {
      (free > 0 ==> All() == []) && Distinct(All())
    }

    function TakeFree(): Lines<W>
      requires free > 0
    {
      this.(free := free - 1)
    }

    function Enqueue(w: W, reacquire: bool, isPromoted: bool): Lines<W> {
      if reacquire then this.(reacquiring := reacquiring + [w])
      else if isPromoted then this.(promoted := promoted + [w])
      else this.(waiting := waiting + [w])
    }

    function Dequeue(w: W, reacquire: bool): Lines<W> {
      if reacquire then this.(reacquiring := Without(reacquiring, w))
      else if w in promoted then this.(promoted := Without(promoted, w))
      else this.(waiting := Without(waiting, w))
    }

    /** Who a slot given back goes to, if anyone is in line. */
    function Heir(): Option<W> {
      if All() == [] then None else Some(All()[0])
    }

    function Release(): Lines<W> {
      if reacquiring != [] then this.(reacquiring := reacquiring[1..])
      else if promoted != [] then this.(promoted := promoted[1..])
      else if waiting != [] then this.(waiting := waiting[1..])
      else this.(free := free + 1)
    }

    function Promote(w: W): Lines<W> {
      if w in waiting then this.(waiting := Without(waiting, w), promoted := promoted + [w]) else this
    }
  }

  /** A slot given back goes to the oldest taking one back, if anyone is; otherwise to who was promoted first, and only then to
      who has waited longest; and nobody else's place changes. */
  lemma ServedInOrder<W>(l: Lines<W>)
    ensures l.Heir().None? <==> l.reacquiring == [] && l.promoted == [] && l.waiting == []
    ensures l.Heir().Some? ==>
      var w, m := l.Heir().value, l.Release();
      && m.free == l.free
      && (l.reacquiring != [] ==> l.reacquiring == [w] + m.reacquiring && m.promoted == l.promoted && m.waiting == l.waiting)
      && (l.reacquiring == [] && l.promoted != [] ==> m.reacquiring == [] && l.promoted == [w] + m.promoted && m.waiting == l.waiting)
      && (l.reacquiring == [] && l.promoted == [] ==> m.reacquiring == [] && m.promoted == [] && l.waiting == [w] + m.waiting)
    ensures l.Heir().None? ==> l.Release() == l.(free := l.free + 1)
  {
  }

  ghost predicate Distinct<W>(s: seq<W>) {
    forall i, j :: 0 <= i < j < |s| ==> s[i] != s[j]
  }

  /** `s` without the first `w` in it, if any. */
  function Without<W(==)>(s: seq<W>, w: W): (r: seq<W>)
    ensures w !in s ==> r == s
    ensures w in s ==> |r| == |s| - 1
    ensures forall v :: v in r ==> v in s
    ensures forall v :: v in s && v != w ==> v in r
  {
    if s == [] then [] else if s[0] == w then s[1..] else [s[0]] + Without(s[1..], w)
  }

  lemma {:induction false} WithoutSplits<W>(before: seq<W>, w: W, after: seq<W>)
    requires w !in before
    ensures Without(before + [w] + after, w) == before + after
  {
    var s := before + [w] + after;
    if before == [] {
      assert s[0] == w && s[1..] == after;
    } else {
      var rest := before[1..];
      WithoutSplits(rest, w, after);
      assert s[0] == before[0] && s[1..] == rest + [w] + after;
      assert Without(s, w) == [before[0]] + (rest + after);
      assert before == [before[0]] + rest;
    }
  }

  /** Removing from a line of distinct waiters leaves them distinct, and that one gone. */
  lemma {:induction false} WithoutDistinct<W>(s: seq<W>, w: W)
    requires Distinct(s)
    ensures Distinct(Without(s, w)) && w !in Without(s, w)
  {
    if s != [] {
      assert s == [s[0]] + s[1..];
      DistinctParts([s[0]], s[1..]);
      if s[0] != w {
        WithoutDistinct(s[1..], w);
        DistinctJoin([s[0]], Without(s[1..], w));
      }
    }
  }

  lemma DistinctParts<W>(a: seq<W>, b: seq<W>)
    requires Distinct(a + b)
    ensures Distinct(a) && Distinct(b) && forall w :: w in a ==> w !in b
  {
    forall i, j | 0 <= i < j < |a| ensures a[i] != a[j] {
      assert (a + b)[i] == a[i] && (a + b)[j] == a[j];
    }
    forall i, j | 0 <= i < j < |b| ensures b[i] != b[j] {
      assert (a + b)[|a| + i] == b[i] && (a + b)[|a| + j] == b[j];
    }
    forall i, j | 0 <= i < |a| && 0 <= j < |b| ensures a[i] != b[j] {
      assert (a + b)[i] == a[i] && (a + b)[|a| + j] == b[j];
    }
  }

  lemma DistinctJoin<W>(a: seq<W>, b: seq<W>)
    requires Distinct(a) && Distinct(b) && forall w :: w in a ==> w !in b
    ensures Distinct(a + b)
  {
    forall i, j | 0 <= i < j < |a + b| ensures (a + b)[i] != (a + b)[j] {
      if i < |a| <= j {
        assert a[i] in a && b[j - |a|] in b;
      }
    }
  }

  /** Enqueuing where no slot is free keeps the lines orderly, and adds just the one waiter. */
  lemma EnqueueOrderly<W>(l: Lines<W>, w: W, reacquire: bool, isPromoted: bool)
    requires l.Orderly() && l.free == 0 && w !in l.All()
    ensures l.Enqueue(w, reacquire, isPromoted).Orderly()
    ensures forall v :: v in l.Enqueue(w, reacquire, isPromoted).All() <==> v in l.All() || v == w
  {
    LinesDistinct(l);
    var m := l.Enqueue(w, reacquire, isPromoted);
    LinesJoin(m);
  }

  lemma LinesDistinct<W>(l: Lines<W>)
    requires Distinct(l.All())
    ensures Distinct(l.reacquiring) && Distinct(l.promoted) && Distinct(l.waiting)
    ensures forall w :: w in l.reacquiring ==> w !in l.promoted && w !in l.waiting
    ensures forall w :: w in l.promoted ==> w !in l.waiting
  {
    DistinctParts(l.reacquiring + l.promoted, l.waiting);
    DistinctParts(l.reacquiring, l.promoted);
  }

  lemma LinesJoin<W>(l: Lines<W>)
    requires Distinct(l.reacquiring) && Distinct(l.promoted) && Distinct(l.waiting)
    requires forall w :: w in l.reacquiring ==> w !in l.promoted && w !in l.waiting
    requires forall w :: w in l.promoted ==> w !in l.waiting
    ensures Distinct(l.All())
  {
    DistinctJoin(l.reacquiring, l.promoted);
    DistinctJoin(l.reacquiring + l.promoted, l.waiting);
  }

  lemma DequeueOrderly<W>(l: Lines<W>, w: W, reacquire: bool)
    requires l.Orderly() && w in l.All() && (reacquire <==> w in l.reacquiring)
    ensures l.Dequeue(w, reacquire).Orderly()
    ensures forall v :: v in l.Dequeue(w, reacquire).All() <==> v in l.All() && v != w
  {
    LinesDistinct(l);
    var m := l.Dequeue(w, reacquire);
    WithoutDistinct(l.reacquiring, w);
    WithoutDistinct(l.promoted, w);
    WithoutDistinct(l.waiting, w);
    LinesJoin(m);
  }

  /** A slot given back goes to the first in line, or is free. */
  lemma ReleaseOrderly<W>(l: Lines<W>)
    requires l.Orderly()
    ensures l.Release().Orderly()
    ensures l.Heir().Some? ==>
      && l.Heir().value in l.All() && l.Release().free == l.free == 0
      && l.Release().All() == l.All()[1..]
      && forall v :: v in l.Release().All() <==> v in l.All() && v != l.Heir().value
    ensures l.Heir().None? ==> l.Release().free == l.free + 1 && l.Release().All() == l.All() == []
  {
    if l.All() != [] {
      var m := l.Release();
      assert m.All() == l.All()[1..];
      assert l.All() == [l.All()[0]] + m.All();
      DistinctParts([l.All()[0]], m.All());
    }
  }

  lemma PromoteOrderly<W>(l: Lines<W>, w: W)
    requires l.Orderly()
    ensures l.Promote(w).Orderly() && l.Promote(w).free == l.free && l.Promote(w).reacquiring == l.reacquiring
    ensures forall v :: v in l.Promote(w).All() <==> v in l.All()
    ensures forall v :: v in l.Promote(w).waiting <==> v in l.waiting && v != w
    ensures forall v :: v in l.Promote(w).promoted <==> v in l.promoted || (v == w && w in l.waiting)
  {
    LinesDistinct(l);
    WithoutDistinct(l.waiting, w);
    LinesJoin(l.Promote(w));
  }

  // ---- Who is served before whom ---------------------------------------------------------------

  /** How many are in line ahead of `w`. */
  function Ahead<W(==)>(l: Lines<W>, w: W): nat
    requires w in l.All()
  {
    IndexOf(l.All(), w)
  }

  function IndexOf<W(==)>(s: seq<W>, w: W): (i: nat)
    requires w in s
    ensures i < |s| && s[i] == w && w !in s[..i]
  {
    if s[0] == w then 0 else
    assert s == [s[0]] + s[1..];
    1 + IndexOf(s[1..], w)
  }

  lemma IndexIsUnique<W>(s: seq<W>, w: W, i: nat)
    requires Distinct(s) && i < |s| && s[i] == w
    ensures IndexOf(s, w) == i
  {
  }

  /** Each slot given back brings everyone in line one closer, until it is theirs. */
  lemma ReleaseBringsCloser<W>(l: Lines<W>, w: W)
    requires l.Orderly() && w in l.All()
    ensures Ahead(l, w) == 0 ==> l.Heir() == Some(w)
    ensures Ahead(l, w) > 0 ==> w in l.Release().All() && Ahead(l.Release(), w) == Ahead(l, w) - 1
  {
    ReleaseOrderly(l);
    if Ahead(l, w) > 0 {
      IndexIsUnique(l.Release().All(), w, Ahead(l, w) - 1);
    }
  }

  lemma InsertMoves<W>(s: seq<W>, k: nat, v: W, w: W)
    requires Distinct(s) && k <= |s| && v !in s && w in s
    ensures w in s[..k] + [v] + s[k..]
    ensures IndexOf(s[..k] + [v] + s[k..], w) == IndexOf(s, w) + if IndexOf(s, w) < k then 0 else 1
  {
    var i := IndexOf(s, w);
    var t := s[..k] + [v] + s[k..];
    var j := if i < k then i else i + 1;
    assert t[j] == w;
    forall x | 0 <= x < j ensures t[x] != w {
      if x < k {
        assert t[x] == s[x];
      } else if x > k {
        assert t[x] == s[x - 1];
      }
    }
    var f := IndexOf(t, w);
    assert f <= j;
  }

  lemma WhichLine<W>(l: Lines<W>, w: W)
    requires Distinct(l.All()) && w in l.All()
    ensures w in l.reacquiring <==> Ahead(l, w) < |l.reacquiring|
    ensures w in l.waiting <==> Ahead(l, w) >= |l.reacquiring + l.promoted|
  {
    LinesDistinct(l);
    var i := Ahead(l, w);
    var all := l.All();
    if i < |l.reacquiring| {
      assert all[i] == l.reacquiring[i];
    } else if i < |l.reacquiring + l.promoted| {
      assert all[i] == l.promoted[i - |l.reacquiring|];
    } else {
      assert all[i] == l.waiting[i - |l.reacquiring + l.promoted|];
    }
  }

  /** A newcomer gets ahead of `w` only from a line served before the one `w` is in. */
  lemma NewcomerAhead<W>(l: Lines<W>, w: W, v: W, reacquire: bool, isPromoted: bool)
    requires l.Orderly() && l.free == 0 && w in l.All() && v !in l.All()
    ensures w in l.Enqueue(v, reacquire, isPromoted).All()
    ensures Ahead(l.Enqueue(v, reacquire, isPromoted), w) ==
      Ahead(l, w) + if (reacquire && w !in l.reacquiring) || (!reacquire && isPromoted && w in l.waiting) then 1 else 0
  {
    WhichLine(l, w);
    var m := l.Enqueue(v, reacquire, isPromoted);
    var k := if reacquire then |l.reacquiring| else if isPromoted then |l.reacquiring + l.promoted| else |l.All()|;
    assert m.All() == l.All()[..k] + [v] + l.All()[k..];
    InsertMoves(l.All(), k, v, w);
  }
}
