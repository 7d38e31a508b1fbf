/** A directory tree held in memory, changed in place. */
module InMemoryTree {
  import opened Paths
  import opened Wrappers

  type Bytes = seq<bv8>

  datatype Node = Directory | File(content: Bytes)

  type Entries = map<Path, Node>

  predicate IsDirectory(entries: Entries, p: Path) {
    p in entries && entries[p].Directory?
  }

  /** There is a root, everything else is in a directory, and all of it under a path in its normal form. */
  ghost predicate WellFormed(entries: Entries) {
    && IsDirectory(entries, [])
    && (forall p :: p in entries && p != [] ==> IsDirectory(entries, Parent(p)))
    && forall p :: p in entries ==> Normal(p)
  }

  /** What there is without `p` and all beneath it. */
  ghost function Without(entries: Entries, p: Path): Entries {
    map q | q in entries && !(p <= q) :: entries[q]
  }

  class InMemoryDirectoryTree {
    var entries: Entries

    ghost predicate Valid()
      reads this
    {
      WellFormed(entries)
    }

    constructor ()
      ensures Valid() && entries == map[[] := Directory]
    {
      entries := map[[] := Directory];
    }

    /** A file at the path's normal form; one that ends in a slash is no place for a file, though nothing keeps it from one. */
    method WriteFile(path: Path, content: Bytes)
      requires Valid() && Written(path) && Normalized(path).Some?
      requires var p := Normalized(path).value; p != [] && IsDirectory(entries, Parent(p)) && !IsDirectory(entries, p)
      modifies this
      ensures entries == old(entries)[Normalized(path).value := File(content)]
      ensures Valid() <==> Normal(Normalized(path).value)
    {
      entries := entries[Normalized(path).value := File(content)];
      AddedIsWellFormed(old(entries), path, File(content));
    }

    method MakeDirectory(path: Path)
      requires Valid() && Written(path) && Normalized(path).Some?
      requires var p := Normalized(path).value; p != [] && IsDirectory(entries, Parent(p)) && p !in entries
      modifies this
      ensures entries == old(entries)[Normalized(path).value := Directory]
      ensures Valid() <==> Normal(Normalized(path).value)
    {
      entries := entries[Normalized(path).value := Directory];
      AddedIsWellFormed(old(entries), path, Directory);
    }

    /** Takes what a path names out, and everything beneath it. */
    method Remove(path: Path)
      requires Valid() && Normalized(path).Some? && Normalized(path).value != [] && Normalized(path).value in entries
      modifies this
      ensures Valid() && entries == Without(old(entries), Normalized(path).value)
    {
      var p := Normalized(path).value;
      var rest := entries.Keys;
      while rest != {}
        invariant rest <= old(entries).Keys
        invariant forall q :: q in entries <==> q in old(entries) && (q in rest || !(p <= q))
        invariant forall q :: q in entries ==> entries[q] == old(entries)[q]
        decreases rest
      {
        var q :| q in rest;
        rest := rest - {q};
        if p <= q {
          entries := entries - {q};
        }
      }
      assert entries == Without(old(entries), p);
      forall q | q in entries && q != [] ensures IsDirectory(entries, Parent(q)) {
        assert p <= Parent(q) ==> p <= q;
      }
    }

    function Status(path: Path): Option<Node>
      reads this
    {
      if Normalized(path).Some? && Normalized(path).value in entries then Some(entries[Normalized(path).value]) else None
    }

    /** The names in a directory, if it is one. */
    method Ls(path: Path) returns (names: Option<set<Name>>)
      ensures names.Some? <==> Normalized(path).Some? && IsDirectory(entries, Normalized(path).value)
      ensures names.Some? ==> forall name :: name in names.value <==> Normalized(path).value + [name] in entries
    {
      if Normalized(path).None? {
        return None;
      }
      var p := Normalized(path).value;
      if p !in entries || entries[p].File? {
        return None;
      }
      var found: set<Name> := {};
      var rest := entries.Keys;
      while rest != {}
        invariant rest <= entries.Keys
        invariant forall name :: name in found <==> p + [name] in entries && p + [name] !in rest
        decreases rest
      {
        var q :| q in rest;
        rest := rest - {q};
        if q != p && Parent(q) == p {
          assert q == p + [FileName(q)];
          found := found + {FileName(q)};
        }
        assert forall name :: p + [name] == q ==> Parent(q) == p && FileName(q) == name;
      }
      return Some(found);
    }
  }

  lemma AddedIsWellFormed(entries: Entries, path: Path, node: Node)
    requires WellFormed(entries) && Normalized(path).Some?
    requires var p := Normalized(path).value; p != [] && IsDirectory(entries, Parent(p)) && (p !in entries || node.File?) && !IsDirectory(entries, p)
    ensures WellFormed(entries[Normalized(path).value := node]) <==> Normal(Normalized(path).value)
  {
    var p := Normalized(path).value;
    var after := entries[p := node];
    forall q | q in after && q != [] ensures IsDirectory(after, Parent(q)) {
      assert Parent(q) != p || q == p;
    }
    assert p in after;
  }

  /** Above anything there are only directories. */
  lemma {:induction false} AboveIsDirectory(entries: Entries, p: Path, k: nat)
    requires WellFormed(entries) && p in entries && k < |p|
    ensures IsDirectory(entries, p[..k])
    decreases |p| - k
  {
    if k == |p| - 1 {
      assert p[..k] == Parent(p);
    } else {
      AboveIsDirectory(entries, p, k + 1);
      assert p[..k] == Parent(p[..k + 1]);
    }
  }
}
