/** Tree-relative paths: sequences of ordinary names, the root being the empty path. */
module Paths {
  import opened Wrappers

  type Name = string
  type Path = seq<Name>

  /** The path without its last name; the root is its own parent. */
  function Parent(p: Path): Path {
    if p == [] then [] else p[..|p| - 1]
  }

  function FileName(p: Path): Name
    requires p != []
  {
    p[|p| - 1]
  }

  predicate StartsWith(s: string, prefix: string) {
    prefix <= s
  }

  predicate EndsWith(s: string, suffix: string) {
    |suffix| <= |s| && s[|s| - |suffix|..] == suffix
  }

  /** A name a directory entry can have. */
  predicate Ordinary(name: Name) {
    name != "" && name != "." && name != ".." && '/' !in name
  }

  /** A path that is its own normal form, and leads out of nothing. */
  predicate Normal(p: Path) {
    forall i :: 0 <= i < |p| ==> Ordinary(p[i])
  }

  // ---- Normal forms ----------------------------------------------------------------------------

  /** The names between the slashes of a path as it was written: none has a slash in it, and some are empty or dots. */
  predicate Written(p: Path) {
    forall i :: 0 <= i < |p| ==> '/' !in p[i]
  }

  /** Where `rest` leads from `done`, unless out of the root. */
  function Folded(done: Path, rest: Path): Option<Path>
    decreases |rest|
  {
    if rest == [] then Some(done)
    else if rest[0] in ["", "."] then Folded(done, rest[1..])
    else if rest[0] == ".." then if done == [] then None else Folded(Parent(done), rest[1..])
    else Folded(done + [rest[0]], rest[1..])
  }

  /** The normal form of a path, which keeps a slash at its end below the root; none if the path is absolute or leads out. */
  function Normalized(p: Path): Option<Path> {
    if p != [] && p[0] == "" then None
    else
      var q := Folded([], p);
      if q.Some? && q.value != [] && p[|p| - 1] in ["", ".", ".."] then Some(q.value + [""]) else q
  }

  /** Where a path leads is where its second part does from where its first does. */
  lemma {:induction false} FoldedJoins(done: Path, a: Path, b: Path)
    ensures Folded(done, a + b) == match Folded(done, a)
                                   case None => None
                                   case Some(q) => Folded(q, b)
    decreases |a|
  {
    if a == [] {
      assert a + b == b;
    } else {
      assert (a + b)[1..] == a[1..] + b;
      if a[0] in ["", "."] {
        FoldedJoins(done, a[1..], b);
      } else if a[0] == ".." {
        if done != [] {
          FoldedJoins(Parent(done), a[1..], b);
        }
      } else {
        FoldedJoins(done + [a[0]], a[1..], b);
      }
    }
  }

  /** A name and a way back up come to nothing, a dot to nothing, and a way up from the root leads out. */
  lemma DotsFold(done: Path, name: Name, rest: Path)
    requires Ordinary(name)
    ensures Folded(done, [name, ".."] + rest) == Folded(done, rest)
    ensures Folded(done, ["."] + rest) == Folded(done, rest)
    ensures Folded([], [".."] + rest) == None
    ensures Folded(done, [name] + rest) == Folded(done + [name], rest)
  {
    assert ([name, ".."] + rest)[1..] == [".."] + rest;
    assert ([".."] + rest)[1..] == rest && (["."] + rest)[1..] == rest && ([name] + rest)[1..] == rest;
    assert Parent(done + [name]) == done;
  }

  lemma {:induction false} FoldedIsNormal(done: Path, rest: Path)
    requires Normal(done) && Written(rest) && Folded(done, rest).Some?
    ensures Normal(Folded(done, rest).value)
    decreases |rest|
  {
    if rest != [] {
      assert rest[0] !in ["", ".", ".."] ==> Ordinary(rest[0]);
      FoldedIsNormal(if rest[0] in ["", "."] then done else if rest[0] == ".." then Parent(done) else done + [rest[0]], rest[1..]);
    }
  }

  lemma {:induction false} FoldedOfNormal(done: Path, rest: Path)
    requires Normal(rest)
    ensures Folded(done, rest) == Some(done + rest)
    decreases |rest|
  {
    if rest == [] {
      assert done + rest == done;
    } else {
      assert Ordinary(rest[0]);
      FoldedOfNormal(done + [rest[0]], rest[1..]);
      assert done + [rest[0]] + rest[1..] == done + rest;
    }
  }

  /** A path in its normal form is its own. */
  lemma NormalIsItsOwn(p: Path)
    requires Normal(p)
    ensures Written(p) && Normalized(p) == Some(p)
  {
    FoldedOfNormal([], p);
    assert [] + p == p;
    if p != [] {
      assert Ordinary(p[0]) && Ordinary(p[|p| - 1]);
    }
  }

  /** Normal forms are of ordinary names, but for what a slash at the end leaves; and each is its own. */
  lemma NormalizedTwice(p: Path)
    requires Written(p) && Normalized(p).Some?
    ensures var q := Normalized(p).value;
      && Normalized(q) == Some(q)
      && (Normal(q) || (|q| > 1 && FileName(q) == "" && Normal(Parent(q))))
  {
    FoldedIsNormal([], p);
    var q := Folded([], p).value;
    NormalIsItsOwn(q);
    if q != [] {
      FoldedSlashed([], q);
      assert [] + q == q;
      assert Ordinary(q[0]) && (q + [""])[0] == q[0] && Parent(q + [""]) == q;
    }
  }

  lemma {:induction false} FoldedSlashed(done: Path, rest: Path)
    requires Normal(rest)
    ensures Folded(done, rest + [""]) == Some(done + rest)
    decreases |rest|
  {
    if rest == [] {
      assert (rest + [""])[1..] == [] && done + rest == done;
    } else {
      assert Ordinary(rest[0]);
      FoldedSlashed(done + [rest[0]], rest[1..]);
      assert (rest + [""])[1..] == rest[1..] + [""];
      assert done + [rest[0]] + rest[1..] == done + rest;
    }
  }

  /** No path of `paths` is a directory above another. */
  ghost predicate Antichain(paths: set<Path>) {
    forall p, q :: p in paths && q in paths ==> !(p < q)
  }

  /** The directories above the paths of `paths`, the root among them. */
  ghost predicate IsDirectoryOf(d: Path, paths: set<Path>) {
    d == [] || exists p :: p in paths && d < p
  }
}

/** The option type. */
module Wrappers {
  datatype Option<+T> = None | Some(value: T)

  /** The stack with all of a set on top, in some order. */
  method PushAll<T(==)>(stack: seq<T>, nexts: set<T>) returns (more: seq<T>)
    ensures forall x :: x in more <==> x in stack || x in nexts
  {
    more := stack;
    var rest := nexts;
    while rest != {}
      invariant rest <= nexts && forall x :: x in more <==> x in stack || (x in nexts && x !in rest)
      decreases rest
    {
      var next :| next in rest;
      rest := rest - {next};
      more := more + [next];
    }
  }
}
