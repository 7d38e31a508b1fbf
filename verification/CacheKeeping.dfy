/** How the build tree keeps builds in the cache on disk, and drops them from it, between the steps of everything else. */
module CacheKeeping {
  import opened Paths
  import opened Wrappers
  import opened Expand
  import opened CacheRecords
  import opened BuildTree
  import BuildCache
  import opened ContentHashes
  import BuildDirectoryTree

  /** What a finish notes of a build that is to be kept. */
  datatype Keep = Keep(command: Command, inputs: seq<Path>, mtime: int, count: nat)

  /** The stamps of the outputs among `inputs`, or nothing if the hash of one is not known. */
  function OutputStamps(hashes: map<Path, Hash>, inputs: seq<Path>): Option<seq<Input>> {
    if inputs == [] then Some([])
    else
      var before, last := OutputStamps(hashes, inputs[..|inputs| - 1]), inputs[|inputs| - 1];
      match OutputNamedBy(last)
      case None => before
      case Some(read) =>
        if before.None? || read !in hashes then None else Some(before.value + [Input(last, 0, 0, hashes[read])])
  }

  /** The stamps of the sources among `inputs`, or nothing if one cannot be had. */
  function SourceStamps(stamps: Path -> Option<Input>, inputs: seq<Path>): Option<seq<Input>> {
    if inputs == [] then Some([])
    else
      var before, last := SourceStamps(stamps, inputs[..|inputs| - 1]), inputs[|inputs| - 1];
      if OutputNamedBy(last).Some? then before
      else if before.None? || stamps(last).None? then None
      else Some(before.value + [stamps(last).value])
  }

  /** One input that cannot be stamped leaves none to be kept. */
  lemma {:induction false} NoneOnceNone(hashes: map<Path, Hash>, stamps: Path -> Option<Input>, inputs: seq<Path>, k: nat)
    requires k <= |inputs|
    ensures OutputStamps(hashes, inputs[..k]).None? ==> OutputStamps(hashes, inputs).None?
    ensures SourceStamps(stamps, inputs[..k]).None? ==> SourceStamps(stamps, inputs).None?
    decreases |inputs| - k
  {
    if k < |inputs| {
      assert inputs[..k + 1][..k] == inputs[..k];
      NoneOnceNone(hashes, stamps, inputs, k + 1);
    } else {
      assert inputs[..k] == inputs;
    }
  }

  /** Every input is stamped, as what it is. */
  lemma {:induction false} AllStamped(hashes: map<Path, Hash>, stamps: Path -> Option<Input>, inputs: seq<Path>, input: Path)
    requires OutputStamps(hashes, inputs).Some? && SourceStamps(stamps, inputs).Some? && input in inputs
    ensures match OutputNamedBy(input)
      case Some(read) => read in hashes && Input(input, 0, 0, hashes[read]) in OutputStamps(hashes, inputs).value
      case None => stamps(input).Some? && stamps(input).value in SourceStamps(stamps, inputs).value
  {
    var before, last := inputs[..|inputs| - 1], inputs[|inputs| - 1];
    if input != last {
      assert inputs == before + [last];
      AllStamped(hashes, stamps, before, input);
    }
  }

  /** Stamps the outputs that were read, as far as the first whose hash is not known. */
  method StampOutputs(hashes: map<Path, Hash>, inputs: seq<Path>) returns (stamps: Option<seq<Input>>)
    ensures stamps == OutputStamps(hashes, inputs)
  {
    stamps := Some([]);
    var i := 0;
    while i < |inputs|
      invariant i <= |inputs| && stamps.Some? && stamps == OutputStamps(hashes, inputs[..i])
    {
      assert inputs[..i + 1][..i] == inputs[..i];
      var read := OutputNamedBy(inputs[i]);
      if read.Some? {
        if read.value !in hashes {
          NoneOnceNone(hashes, _ => None, inputs, i + 1);
          return None;
        }
        stamps := Some(stamps.value + [Input(inputs[i], 0, 0, hashes[read.value])]);
      }
      i := i + 1;
    }
    assert inputs[..i] == inputs;
  }

  /** Adds to `read` the stamps of the sources that were read, as far as the first that has none. */
  method StampSources(sources: Path -> Option<Input>, inputs: seq<Path>, read: seq<Input>) returns (stamps: Option<seq<Input>>)
    ensures stamps == match SourceStamps(sources, inputs)
      case None => None
      case Some(more) => Some(read + more)
  {
    stamps := Some(read);
    var i := 0;
    assert read + [] == read;
    while i < |inputs|
      invariant i <= |inputs| && stamps.Some? && SourceStamps(sources, inputs[..i]).Some?
      invariant stamps.value == read + SourceStamps(sources, inputs[..i]).value
    {
      assert inputs[..i + 1][..i] == inputs[..i];
      if OutputNamedBy(inputs[i]).None? {
        var stamp := sources(inputs[i]);
        if stamp.None? {
          NoneOnceNone(map[], sources, inputs, i + 1);
          return None;
        }
        stamps := Some(stamps.value + [stamp.value]);
      }
      i := i + 1;
    }
    assert inputs[..i] == inputs;
  }

  /** The records on disk are those the machine has, each under the command it was kept under. */
  ghost predicate Agree(kept: map<Path, Kept>, records: map<Path, Record>) {
    && kept.Keys == records.Keys
    && forall o :: o in kept && kept[o].Of? ==> records[o].command == kept[o].command
  }

  /** Nothing changes of what the tree itself keeps. */
  predicate CacheAside(t: Tree, u: Tree) {
    && u.commands == t.commands && u.attempts == t.attempts && u.stale == t.stale && u.inFlight == t.inFlight
    && u.materialized == t.materialized && u.invalidations == t.invalidations && u.dependencies == t.dependencies
  }

  lemma Checks(t: Tree, a: AttemptId, known: bool)
    requires Enabled(t, Check(a, known))
    ensures CacheAside(t, Next(t, Check(a, known))) && Next(t, Check(a, known)).cache == t.cache
    ensures Next(t, Check(a, known)) == t.(keeping := Some(Keeping(a, known && CountAt(t, t.keeps[a].output) == t.keeps[a].count)))
  {
  }

  lemma Stores(t: Tree, a: AttemptId, stamped: bool, ok: bool)
    requires a in t.keeps && t.keeping.Some? && t.keeping.value.a == a
    ensures Enabled(t, Store(a, stamped, ok)) && Next(t, Store(a, stamped, ok)) == AfterStore(t, t.keeping.value, stamped, ok)
    ensures CacheAside(t, Next(t, Store(a, stamped, ok)))
  {
  }

  lemma Forgets(t: Tree, id: int, ok: bool)
    requires id in t.forgets && t.keeping.None?
    ensures Enabled(t, Forget(id, ok)) && Next(t, Forget(id, ok)) == AfterForget(t, id, ok)
    ensures CacheAside(t, Next(t, Forget(id, ok)))
  {
  }

  lemma RecordAside(t: Tree, a: AttemptId, inputs: seq<Path>)
    requires a in t.underWay
    ensures AfterRecord(t, a, inputs).cache == t.cache
  {
  }

  lemma RulesAside(t: Tree, commands: map<Path, Command>, watched: set<Path>, id: int)
    ensures AfterRules(t, commands, watched, id).cache == t.cache
  {
  }

  /** What is stamped of an output that was read is the hash of the content it has just then. */
  lemma StampsAreOfContent(t: Tree, c: Contents, hashes: map<Path, Hash>, inputs: seq<Path>, input: Path)
    requires HashesOk(t, c, hashes) && OutputStamps(hashes, inputs).Some? && input in inputs && OutputNamedBy(input).Some?
    ensures var o := OutputNamedBy(input).value;
      && o in t.commands && o in t.served && ContentFrom(t, o) != Placeholder
      && Input(input, 0, 0, c.hash(ContentOf(c, o, ContentFrom(t, o)))) in OutputStamps(hashes, inputs).value
  {
    var o := OutputNamedBy(input).value;
    assert HashOk(t, c, hashes, o);
    hide ContentOf, ContentFrom;
    var stamps: Path -> Option<Input> := path => Some(Input(path, 0, 0, []));
    AllSourcesStamped(stamps, inputs);
    AllStamped(hashes, stamps, inputs, input);
  }

  lemma {:induction false} AllSourcesStamped(stamps: Path -> Option<Input>, inputs: seq<Path>)
    requires forall path :: stamps(path).Some?
    ensures SourceStamps(stamps, inputs).Some?
  {
    if inputs != [] {
      AllSourcesStamped(stamps, inputs[..|inputs| - 1]);
    }
  }

  class Keeper {
    const tree: BuildDirectoryTree.BuildDirectoryTree
    const cache: BuildCache.BuildCache
    // What is stamped of an output that a build has read.
    var hashes: map<Path, Hash>

    ghost predicate Valid()
      reads this, tree, tree.outputs, tree.outputs.index, cache
    {
      tree.Valid() && cache.Valid() && Agree(tree.tree.cache, cache.records)
    }

    constructor (tree: BuildDirectoryTree.BuildDirectoryTree, cache: BuildCache.BuildCache, hashes: map<Path, Hash>)
      requires tree.Valid() && cache.Valid() && Agree(tree.tree.cache, cache.records)
      ensures Valid() && this.tree == tree && this.cache == cache && this.hashes == hashes
    {
      this.tree, this.cache, this.hashes := tree, cache, hashes;
    }

    /** A build that came back with `bytes`: what it read is recorded, and what its own readers are to stamp it by. */
    method RecordBuild(output: Path, bytes: Bytes, inputs: seq<Path>, ghost a: AttemptId, ghost c: Contents)
      requires Valid() && a in tree.tree.underWay && tree.tree.underWay[a].output == output
      requires c.hash == cache.hash && c.built(a) == bytes
      modifies `hashes, tree, tree.outputs.index
      ensures Valid() && tree.tree == AfterRecord(old(tree.tree), a, inputs)
      ensures hashes == HashesAfter(old(tree.tree), c, old(hashes), Step.Record(a, inputs))
    {
      RecordAside(tree.tree, a, inputs);
      hide AfterRecord, Agree;
      if output in tree.commands {
        hashes := hashes[output := cache.hash(bytes)];
      }
      tree.RecordInputs(output, inputs, a);
    }

    /** New rules: what is no longer declared has no content that a build could read. */
    method TakeRules(rules: map<Path, Command>, watchAll: bool, ghost id: int, ghost c: Contents)
      returns (removed: set<Path>, added: set<Path>, changed: set<Path>)
      requires Valid()
      modifies `hashes, tree, tree.outputs, tree.outputs.index
      ensures Valid()
      ensures var watched := BuildDirectoryTree.WatchedOf(added, rules, watchAll);
        && tree.tree == AfterRules(old(tree.tree), rules, watched, id)
        && hashes == HashesAfter(old(tree.tree), c, old(hashes), Step.ApplyRules(rules, watched, id))
    {
      hide AfterRules, Agree, BuildDirectoryTree.WatchedOf;
      ghost var before := tree.tree;
      removed, added, changed := tree.ApplyRules(rules, watchAll, id);
      RulesAside(before, rules, BuildDirectoryTree.WatchedOf(added, rules, watchAll), id);
      hashes := hashes - removed;
    }

    /** The machine takes a step of the cache. */
    ghost method Steps(u: Tree)
      requires tree.Valid() && CacheAside(tree.tree, u)
      modifies tree`tree
      ensures tree.Valid() && tree.tree == u
    {
      tree.tree := u;
    }

    ghost method Checked(a: AttemptId, known: bool)
      requires Valid() && a in tree.tree.keeps && Enabled(tree.tree, Check(a, known))
      modifies tree`tree
      ensures Valid() && tree.tree == Next(old(tree.tree), Check(a, known))
      ensures tree.tree.keeping == Some(Keeping(a, known && CountAt(old(tree.tree), old(tree.tree).keeps[a].output) == old(tree.tree).keeps[a].count))
    {
      hide Next, Enabled, CacheAside;
      Checks(tree.tree, a, known);
      Steps(Next(tree.tree, Check(a, known)));
    }

    /** What was read of outputs, if nothing has invalidated `output` since its build was claimed. */
    method ReadIfCurrent(output: Path, keep: Keep) returns (read: Option<seq<Input>>)
      requires tree.Valid()
      ensures read == if CountAt(tree.tree, output) == keep.count then OutputStamps(hashes, keep.inputs) else None
    {
      var counts := tree.outputs.invalidations;
      read := None;
      if (if output in counts then counts[output] else 0) == keep.count {
        read := StampOutputs(hashes, keep.inputs);
      }
    }

    /** Under the tree's lock: whether nothing has invalidated the build since it was claimed, and the outputs it read. */
    method LookUp(output: Path, keep: Keep, ghost a: AttemptId) returns (read: Option<seq<Input>>)
      requires Valid() && a in tree.tree.keeps && tree.tree.keeps[a] == Claim(output, keep.count, keep.command)
      requires Enabled(tree.tree, Check(a, OutputStamps(hashes, keep.inputs).Some?))
      modifies tree`tree
      ensures Valid() && tree.tree == Next(old(tree.tree), Check(a, OutputStamps(hashes, keep.inputs).Some?))
      ensures read.Some? <==> tree.tree.keeping == Some(Keeping(a, true))
      ensures read.Some? ==> read == OutputStamps(hashes, keep.inputs)
    {
      hide Next, Enabled, OutputStamps, CountAt, Agree;
      read := ReadIfCurrent(output, keep);
      Checked(a, OutputStamps(hashes, keep.inputs).Some?);
    }

    ghost method Stored(a: AttemptId, stamped: bool, done: bool)
      requires tree.Valid() && tree.tree.keeping.Some? && tree.tree.keeping.value.a == a && a in tree.tree.keeps
      modifies tree`tree
      ensures Enabled(old(tree.tree), Store(a, stamped, done))
      ensures tree.Valid() && tree.tree == Next(old(tree.tree), Store(a, stamped, done))
      ensures tree.tree.cache == AfterStore(old(tree.tree), old(tree.tree).keeping.value, stamped, done).cache
    {
      hide Next, Enabled, CacheAside, AfterStore;
      Stores(tree.tree, a, stamped, done);
      Steps(Next(tree.tree, Store(a, stamped, done)));
    }

    /** Stores the record of a build that could be stamped, or drops the one there is. */
    method StoreStamped(output: Path, bytes: Bytes, keep: Keep, all: Option<seq<Input>>, fate: BuildCache.StoreFate, stuck: set<Hash>)
      returns (done: bool)
      requires cache.Valid() && keep.command.output == output
      modifies cache
      ensures cache.Valid()
      ensures cache.records == if !done then old(cache.records) else if all.None? then old(cache.records) - {output}
        else old(cache.records)[output := Record.Record(keep.command, cache.hash(bytes), keep.mtime, BuildCache.OncePerPath(all.value))]
    {
      hide BuildCache.Intact, BuildCache.IsHash, BuildCache.OncePerPath, BuildCache.Referenced;
      if all.Some? {
        done := cache.Store(keep.command, bytes, keep.mtime, all.value, fate);
      } else {
        done := cache.Forget([output], fate.commits, stuck);
        assert (set o | o in [output]) == {output};
      }
    }

    /** Outside that lock: stamps the sources, and stores the build's record, or, nothing else being safe, drops any. */
    method StoreOrDrop(output: Path, bytes: Bytes, keep: Keep, read: Option<seq<Input>>, stamps: Path -> Option<Input>,
                       fate: BuildCache.StoreFate, stuck: set<Hash>, ghost a: AttemptId)
      returns (done: bool)
      requires Valid() && tree.tree.keeping.Some? && tree.tree.keeping.value.a == a && a in tree.tree.keeps
      requires tree.tree.keeps[a] == Claim(output, keep.count, keep.command) && keep.command.output == output
      requires read.Some? <==> tree.tree.keeping.value.keepable
      modifies cache, tree`tree
      ensures Valid()
      ensures Enabled(old(tree.tree), Store(a, SourceStamps(stamps, keep.inputs).Some?, done))
      ensures tree.tree == Next(old(tree.tree), Store(a, SourceStamps(stamps, keep.inputs).Some?, done))
      ensures cache.records == if !done then old(cache.records)
        else if read.None? || SourceStamps(stamps, keep.inputs).None? then old(cache.records) - {output}
        else old(cache.records)[output := Record.Record(keep.command, cache.hash(bytes), keep.mtime,
               BuildCache.OncePerPath(read.value + SourceStamps(stamps, keep.inputs).value))]
    {
      hide Next, Enabled, SourceStamps, BuildCache.Intact, BuildCache.IsHash, BuildCache.OncePerPath;
      var all := None;
      if read.Some? {
        all := StampSources(stamps, keep.inputs, read.value);
      }
      done := StoreStamped(output, bytes, keep, all, fate, stuck);
      Stored(a, SourceStamps(stamps, keep.inputs).Some?, done);
    }

    /** Drops the records of `outputs`; if that fails, they are left. */
    method ForgetInCache(outputs: seq<Path>, commits: bool, stuck: set<Hash>, ghost id: int) returns (forgotten: bool)
      requires Valid() && id in tree.tree.forgets && tree.tree.keeping.None? && forall o :: o in outputs <==> o in tree.tree.forgets[id]
      modifies cache, tree`tree
      ensures Enabled(old(tree.tree), Forget(id, forgotten))
      ensures Valid() && tree.tree == Next(old(tree.tree), Forget(id, forgotten))
      ensures forgotten <==> commits || outputs == []
      ensures forgotten ==> forall o :: o in cache.records <==> o in old(cache.records) && o !in outputs
    {
      hide Next, Enabled, CacheAside;
      forgotten := cache.Forget(outputs, commits, stuck);
      assert (set o | o in outputs) == tree.tree.forgets[id].Keys;
      Forgets(tree.tree, id, forgotten);
      Steps(Next(tree.tree, Forget(id, forgotten)));
    }
  }
}
