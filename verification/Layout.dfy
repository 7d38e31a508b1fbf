/** The tree served keeps the shape of what is declared: the outputs are its files, and nothing but what they are in. */
module Layout {
  import opened Paths
  import opened Wrappers
  import opened Manifest
  import opened Expand
  import Parse
  import opened InMemoryTree
  import opened MadeNames

  /** Its files are the outputs, and its directories those above them. */
  ghost predicate ShapeOf(entries: Entries, outputs: set<Path>) {
    && (forall p :: p in entries <==> p in outputs || IsDirectoryOf(p, outputs))
    && forall p :: p in entries ==> (entries[p].File? <==> p in outputs)
  }

  /** Nothing declared is the root, or inside anything else declared, and each path is its own normal form. */
  ghost predicate Declarable(outputs: set<Path>) {
    Antichain(outputs) && [] !in outputs && forall o :: o in outputs ==> Normal(o)
  }

  lemma ShapeIsWellFormed(entries: Entries, outputs: set<Path>)
    requires ShapeOf(entries, outputs) && Declarable(outputs)
    ensures WellFormed(entries)
  {
    assert IsDirectoryOf([], outputs);
    forall p | p in entries && p != [] ensures IsDirectory(entries, Parent(p)) {
      AboveShape(outputs, p, |p| - 1);
    }
  }

  /** What is above something of the shape is above an output. */
  lemma AboveShape(outputs: set<Path>, p: Path, k: nat)
    requires Declarable(outputs) && (p in outputs || IsDirectoryOf(p, outputs)) && k < |p|
    ensures IsDirectoryOf(p[..k], outputs) && p[..k] !in outputs
  {
    var o :| o in outputs && p <= o;
    assert p[..k] < o;
  }

  /** There are to be directories all the way down to `output`. */
  method EnsureParentDirectories(tree: InMemoryDirectoryTree, output: Path)
    requires tree.Valid() && output != [] && Normal(output)
    requires forall p :: p < output && p in tree.entries ==> tree.entries[p].Directory?
    modifies tree
    ensures tree.Valid() && IsDirectory(tree.entries, Parent(output))
    ensures forall p :: p in tree.entries <==> p in old(tree.entries) || p < output
    ensures forall p :: p in tree.entries ==> tree.entries[p] == if p in old(tree.entries) then old(tree.entries)[p] else Directory
  {
    hide WellFormed;
    RootIsDirectory(tree.entries);
    var parent := Parent(output);
    var k := 0;
    while k < |parent|
      invariant k <= |parent| && tree.Valid()
      invariant forall p :: p in tree.entries <==> p in old(tree.entries) || (p < output && |p| <= k)
      invariant forall p :: p in tree.entries ==> tree.entries[p] == if p in old(tree.entries) then old(tree.entries)[p] else Directory
    {
      var directory := parent[..k + 1];
      PrefixOf(output, k, directory);
      NormalIsItsOwn(directory);
      if tree.Status(directory).None? {
        tree.MakeDirectory(directory);
      }
      k := k + 1;
    }
    PrefixOf(output, k, []);
  }

  lemma RootIsDirectory(entries: Entries)
    requires WellFormed(entries)
    ensures IsDirectory(entries, [])
  {
  }

  lemma PrefixOf(output: Path, k: nat, directory: Path)
    requires output != [] && k <= |output| - 1
    requires k < |output| - 1 ==> directory == Parent(output)[..k + 1]
    ensures k < |output| - 1 ==> Parent(directory) < output && |Parent(directory)| == k && directory < output && |directory| == k + 1
    ensures k < |output| - 1 ==> forall p :: p < output && |p| <= k + 1 <==> (p < output && |p| <= k) || p == directory
    ensures k == |output| - 1 ==> Parent(output) < output && |Parent(output)| == k && forall p :: p < output ==> |p| <= k
  {
    forall p | p < output && |p| == k + 1 && k < |output| - 1 ensures p == directory {
      assert p == output[..k + 1];
    }
  }

  // ---- Taking an output away -------------------------------------------------------------------

  ghost predicate InShape(outputs: set<Path>, p: Path) {
    p in outputs || IsDirectoryOf(p, outputs)
  }

  /** The shape of `outputs`, and `directory` with all above it besides. */
  ghost predicate ShapeWith(before: Entries, entries: Entries, outputs: set<Path>, directory: Path) {
    && (forall p :: p in entries <==> InShape(outputs, p) || p <= directory)
    && forall p :: p in entries ==> p in before && entries[p] == before[p]
  }

  lemma TakesOutput(before: Entries, outputs: set<Path>, output: Path)
    requires ShapeOf(before, outputs) && Declarable(outputs) && output in outputs
    ensures ShapeWith(before, InMemoryTree.Without(before, output), outputs - {output}, Parent(output))
  {
    var fewer := outputs - {output};
    forall p | p in before && !(output <= p) ensures InShape(fewer, p) || p <= Parent(output) {
      if p !in outputs && p != [] {
        var o :| o in outputs && p < o;
        assert o != output ==> o in fewer;
      }
    }
    forall p | InShape(fewer, p) ensures p in before && !(output <= p) {
      FewerHolds(outputs, output, p);
    }
    forall p | p <= Parent(output) ensures p in before && !(output <= p) {
      assert p < output;
      assert IsDirectoryOf(p, outputs);
    }
  }

  lemma FewerHolds(outputs: set<Path>, output: Path, p: Path)
    requires Declarable(outputs) && output in outputs && InShape(outputs - {output}, p)
    ensures InShape(outputs, p) && !(output <= p)
  {
    var fewer := outputs - {output};
    if p != [] {
      var o :| o in fewer && p <= o;
      assert o in outputs && (p == o || p < o);
      assert output <= p ==> output <= o && (output == o || output < o);
    }
  }

  /** With nothing in it, a directory is above no output left, and only it goes. */
  lemma TakesDirectory(before: Entries, entries: Entries, outputs: set<Path>, output: Path, directory: Path)
    requires ShapeWith(before, entries, outputs, directory) && Declarable(outputs + {output}) && [] != directory < output
    requires forall name :: directory + [name] !in entries
    ensures ShapeWith(before, InMemoryTree.Without(entries, directory), outputs, Parent(directory))
  {
    forall o | o in outputs ensures !(directory <= o) {
      if directory < o {
        Below(entries, outputs, directory, o);
      }
    }
    forall p ensures p in InMemoryTree.Without(entries, directory) <==> InShape(outputs, p) || p <= Parent(directory) {
      if InShape(outputs, p) {
        if o :| o in outputs && p <= o {
          assert !(directory <= p);
        }
      }
      if p <= directory && !(directory <= p) {
        assert p <= Parent(directory);
      }
      if p <= Parent(directory) {
        assert p < directory;
      }
    }
  }

  /** Above an output there is a way down to it. */
  lemma Below(entries: Entries, outputs: set<Path>, directory: Path, o: Path)
    requires o in outputs && directory < o && forall p :: InShape(outputs, p) ==> p in entries
    ensures directory + [o[|directory|]] in entries
  {
    var child := directory + [o[|directory|]];
    assert child <= o;
    assert child == o || child < o;
    assert InShape(outputs, child);
  }

  /** With something in it, a directory is above some output left, and so is all above it. */
  lemma KeepsDirectory(before: Entries, entries: Entries, outputs: set<Path>, directory: Path, name: Name)
    requires ShapeWith(before, entries, outputs, directory) && directory + [name] in entries
    ensures forall p :: p in entries <==> InShape(outputs, p)
  {
    var child := directory + [name];
    assert !(child <= directory);
    assert InShape(outputs, child);
    var o :| o in outputs && child <= o;
    forall p | p <= directory ensures InShape(outputs, p) {
      assert p < o;
    }
  }

  lemma ShapeWithRoot(before: Entries, entries: Entries, outputs: set<Path>)
    requires ShapeWith(before, entries, outputs, [])
    ensures forall p :: p in entries <==> InShape(outputs, p)
  {
    forall p | p <= [] ensures InShape(outputs, p) {
      assert p == [];
    }
  }

  /** An output goes, and above it whatever held nothing else. */
  method RemoveWithEmptyParents(tree: InMemoryDirectoryTree, output: Path, ghost outputs: set<Path>)
    requires Declarable(outputs) && ShapeOf(tree.entries, outputs) && output in outputs
    modifies tree
    ensures ShapeOf(tree.entries, outputs - {output})
    ensures forall p :: p in tree.entries ==> p in old(tree.entries) && tree.entries[p] == old(tree.entries)[p]
  {
    ghost var before, fewer := tree.entries, outputs - {output};
    ShapeIsWellFormed(before, outputs);
    PrefixIsItsOwn(output, output);
    if tree.Status(output).None? {
      return;
    }
    TakesOutput(before, outputs, output);
    assert fewer + {output} == outputs;
    tree.Remove(output);
    var directory := Parent(output);
    hide ShapeWith, ShapeOf, WellFormed, IsDirectoryOf, Antichain, InMemoryTree.Without, Normalized, Normal, InShape;
    while directory != []
      invariant directory < output && tree.Valid()
      invariant ShapeWith(before, tree.entries, fewer, directory)
      decreases |directory|
    {
      ShapeHolds(before, tree.entries, fewer, directory);
      PrefixIsItsOwn(output, directory);
      var children := tree.Ls(directory);
      if children.None? || children.value != {} {
        var name := SomeName(tree.entries, directory, children);
        KeepsDirectory(before, tree.entries, fewer, directory, name);
        ShapeKept(before, tree.entries, fewer, directory, outputs, output);
        return;
      }
      TakesDirectory(before, tree.entries, fewer, output, directory);
      tree.Remove(directory);
      directory := Parent(directory);
    }
    ShapeWithRoot(before, tree.entries, fewer);
    ShapeKept(before, tree.entries, fewer, [], outputs, output);
  }

  lemma PrefixIsItsOwn(output: Path, p: Path)
    requires Normal(output) && p <= output
    ensures Normalized(p) == Some(p)
  {
    NormalIsItsOwn(p);
  }

  lemma SomeName(entries: Entries, directory: Path, children: Option<set<Name>>) returns (name: Name)
    requires children.Some? && children.value != {} && forall n :: n in children.value <==> directory + [n] in entries
    ensures directory + [name] in entries
  {
    name :| name in children.value;
  }

  lemma ShapeHolds(before: Entries, entries: Entries, outputs: set<Path>, directory: Path)
    requires ShapeWith(before, entries, outputs, directory)
    ensures directory in entries && directory in before
  {
  }

  lemma ShapeKept(before: Entries, entries: Entries, fewer: set<Path>, directory: Path, outputs: set<Path>, output: Path)
    requires ShapeOf(before, outputs) && fewer == outputs - {output} && ShapeWith(before, entries, fewer, directory)
    requires Declarable(outputs) && output in outputs && directory < output
    requires forall p :: p in entries <==> InShape(fewer, p)
    ensures ShapeOf(entries, fewer)
    ensures forall p :: p in entries ==> p in before && entries[p] == before[p]
  {
    forall p | p in entries ensures entries[p].File? <==> p in fewer {
      if p == output {
        assert InShape(fewer, p);
      }
    }
  }

  // ---- Adding an output, and applying rules ----------------------------------------------------

  /** Adds an output, as `content`, with whatever directories it needs. */
  method AddOutput(tree: InMemoryDirectoryTree, output: Path, content: Bytes, ghost outputs: set<Path>)
    requires Declarable(outputs + {output}) && output !in outputs && ShapeOf(tree.entries, outputs)
    modifies tree
    ensures ShapeOf(tree.entries, outputs + {output}) && tree.entries[output] == File(content)
    ensures forall o :: o in outputs ==> o in tree.entries && o in old(tree.entries) && tree.entries[o] == old(tree.entries)[o]
  {
    ghost var before := tree.entries;
    FewerDeclarable(outputs, output);
    ShapeIsWellFormed(before, outputs);
    NothingInTheWay(before, outputs, output);
    EnsureParentDirectories(tree, output);
    ghost var ready := tree.entries;
    NormalIsItsOwn(output);
    tree.WriteFile(output, content);
    AddedShape(before, ready, outputs, output, content);
  }

  lemma FewerDeclarable(outputs: set<Path>, output: Path)
    requires Declarable(outputs + {output})
    ensures Declarable(outputs) && output != []
  {
    assert output in outputs + {output};
    forall p, q | p in outputs && q in outputs ensures !(p < q) {
      assert p in outputs + {output} && q in outputs + {output};
    }
  }

  /** Where an output is to go there is nothing yet, and no file above it. */
  lemma NothingInTheWay(entries: Entries, outputs: set<Path>, output: Path)
    requires Declarable(outputs + {output}) && output !in outputs && ShapeOf(entries, outputs)
    ensures output !in entries && forall p :: p < output && p in entries ==> entries[p].Directory?
  {
    var more := outputs + {output};
    assert output in more && forall o :: o in outputs ==> o in more;
  }

  lemma AddedShape(before: Entries, ready: Entries, outputs: set<Path>, output: Path, content: Bytes)
    requires Declarable(outputs + {output}) && output !in outputs && ShapeOf(before, outputs)
    requires output !in before
    requires forall p :: p in ready <==> p in before || p < output
    requires forall p :: p in ready ==> ready[p] == if p in before then before[p] else Directory
    ensures ShapeOf(ready[output := File(content)], outputs + {output})
    ensures forall o :: o in outputs ==> o in before && ready[output := File(content)][o] == before[o]
  {
    var entries, more := ready[output := File(content)], outputs + {output};
    assert output in more && forall o :: o in outputs ==> o in more;
    forall p ensures p in entries <==> p in more || IsDirectoryOf(p, more) {
      if p != [] && IsDirectoryOf(p, more) {
        var o :| o in more && p < o;
        assert o != output ==> o in outputs;
      }
      if p in before && p !in outputs && p != [] {
        var o :| o in outputs && p < o;
        assert o in more;
      }
    }
  }

  /** The shape is what outputs added, kept and removed have left of it, and kept outputs are as they were. */
  ghost predicate Reshaped(before: Entries, entries: Entries, outputs: set<Path>, kept: set<Path>) {
    && ShapeOf(entries, outputs)
    && forall o :: o in kept ==> o in before && o in entries && entries[o] == before[o]
  }

  lemma SubsetDeclarable(outputs: set<Path>, fewer: set<Path>)
    requires Declarable(outputs) && fewer <= outputs
    ensures Declarable(fewer)
  {
  }

  /** Brings the tree in line with new rules: what they no longer declare goes, and what they newly declare comes, unbuilt. */
  method ApplyRules(tree: InMemoryDirectoryTree, declared: set<Path>, commands: set<Path>, placeholder: Bytes)
    requires Declarable(declared) && Declarable(commands) && ShapeOf(tree.entries, declared)
    modifies tree
    ensures ShapeOf(tree.entries, commands)
    ensures forall o :: o in commands * declared ==> o in old(tree.entries) && tree.entries[o] == old(tree.entries)[o]
    ensures forall o :: o in commands - declared ==> tree.entries[o] == File(placeholder)
  {
    hide ShapeOf, Declarable;
    ghost var before, kept := tree.entries, declared * commands;
    KeptThere(before, declared);
    assert kept + (declared - commands) == declared;
    var removed := declared - commands;
    // What goes, goes before anything comes, as a file may come where a directory falls empty.
    while removed != {}
      invariant removed <= declared - commands
      invariant Reshaped(before, tree.entries, kept + removed, kept)
      decreases removed
    {
      var output :| output in removed;
      ghost var now := tree.entries;
      SubsetDeclarable(declared, kept + removed);
      assert kept + removed - {output} == kept + (removed - {output});
      RemoveWithEmptyParents(tree, output, kept + removed);
      removed := removed - {output};
      StillReshaped(before, now, tree.entries, kept + removed, kept);
    }
    assert kept + {} == kept;
    var added := commands - declared;
    ghost var done := kept;
    while added != {}
      invariant added <= commands - declared && done == kept + (commands - declared - added)
      invariant Reshaped(before, tree.entries, done, kept)
      invariant forall o :: o in done - kept ==> o in tree.entries && tree.entries[o] == File(placeholder)
      decreases added
    {
      var output :| output in added;
      SubsetDeclarable(commands, done + {output});
      AddOutput(tree, output, placeholder, done);
      added := added - {output};
      done := done + {output};
    }
    assert done == commands;
  }

  lemma KeptThere(entries: Entries, declared: set<Path>)
    requires ShapeOf(entries, declared)
    ensures forall o :: o in declared ==> o in entries
  {
  }

  lemma StillReshaped(before: Entries, now: Entries, entries: Entries, outputs: set<Path>, kept: set<Path>)
    requires forall o :: o in kept ==> o in before && o in now && now[o] == before[o]
    requires ShapeOf(entries, outputs) && kept <= outputs && forall p :: p in entries ==> p in now && entries[p] == now[p]
    ensures Reshaped(before, entries, outputs, kept)
  {
  }

  /** A tree with nothing but its root has the shape of nothing declared. */
  lemma EmptyShape()
    ensures ShapeOf(map[[] := Directory], {}) && Declarable({})
  {
  }

  /** The tree to serve, laid out for the first time. */
  method LayOut(commands: set<Path>, placeholder: Bytes) returns (tree: InMemoryDirectoryTree)
    requires Declarable(commands)
    ensures fresh(tree) && ShapeOf(tree.entries, commands)
    ensures forall o :: o in commands ==> o in tree.entries && tree.entries[o] == File(placeholder)
  {
    tree := new InMemoryDirectoryTree();
    EmptyShape();
    ApplyRules(tree, {}, commands, placeholder);
    KeptThere(tree.entries, commands);
  }

  /** What rules free of conflict expand to can be laid out just if every name a wildcard makes is an ordinary one. */
  lemma ExpansionIsDeclarable(source: Source, rules: seq<Rule>, commands: map<Path, Command>)
    requires WellFormedRules(rules) && ConflictFree(rules) && IsExpansion(source, rules, commands)
    requires NormalRules(rules) && OrdinarySource(source)
    ensures Declarable(commands.Keys) <==> !exists i, stem, o :: MakesDots(rules, commands, i, stem, o)
  {
    ExpansionIsAntichain(source, rules, commands);
    NormalUnlessDotted(source, rules, commands);
  }

  /** So for the rules any manifest leaves standing, over any source. */
  lemma ManifestsLayOut(lines: seq<Parse.Line>, source: Source, commands: map<Path, Command>)
    requires Parse.WellFormedLines(lines) && OrdinarySource(source)
    requires IsExpansion(source, Parse.Kept(Parse.Accepted(lines), 0), commands)
    ensures Declarable(commands.Keys)
      <==> !exists i, stem, o :: MakesDots(Parse.Kept(Parse.Accepted(lines), 0), commands, i, stem, o)
  {
    Parse.KeptRulesStand(lines);
    KeptAreNormal(lines);
    ExpansionIsDeclarable(source, Parse.Kept(Parse.Accepted(lines), 0), commands);
  }

  /** And what a manifest's rules expand to can be laid out whatever the source comes to hold, just if no wildcard of them
      can be fed what would have it make nothing but dots. */
  lemma ManifestsAlwaysLayOut(lines: seq<Parse.Line>)
    requires Parse.WellFormedLines(lines)
    ensures var rules := Parse.Kept(Parse.Accepted(lines), 0);
      !Dots(rules) <==> forall source, commands :: OrdinarySource(source) && IsExpansion(source, rules, commands) ==> Declarable(commands.Keys)
  {
    var rules := Parse.Kept(Parse.Accepted(lines), 0);
    Parse.KeptRulesStand(lines);
    KeptAreNormal(lines);
    NeverDotsIff(rules);
    forall source, commands | OrdinarySource(source) && IsExpansion(source, rules, commands)
      ensures Declarable(commands.Keys) <==> forall o :: o in commands ==> Normal(o)
    {
      ExpansionIsDeclarable(source, rules, commands);
      NormalUnlessDotted(source, rules, commands);
    }
  }
}
