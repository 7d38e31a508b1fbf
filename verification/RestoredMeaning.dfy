/** What restoring a cached build is worth: it is what building its output now would come to. */
module RestoredMeaning {
  import opened Paths
  import Manifest
  import Expand
  import opened CacheRecords
  import opened Restore

  type View = Path -> Bytes

  /** What commands make of what they read, and read of it; the hash of content, and the content a stamp of a source stands for. */
  datatype Making = Making(
    make: (Expand.Command, View) -> Bytes,
    needs: (Expand.Command, View) -> seq<Path>,
    hash: Bytes -> Hash,
    sourceOf: Input -> Bytes)

  // ---- Building afresh -------------------------------------------------------------------------

  /** Building `output` now, and all it reads first, by rules and sources as they are, comes to `bytes`. */
  ghost predicate Builds(w: World, m: Making, n: nat, output: Path, bytes: Bytes)
    decreases n, 2
  {
    n > 0 && output in w.commands && exists v :: BuildsWith(w, m, n, output, bytes, v)
  }

  ghost predicate BuildsWith(w: World, m: Making, n: nat, output: Path, bytes: Bytes, v: View)
    requires n > 0 && output in w.commands
    decreases n, 1
  {
    && bytes == m.make(w.commands[output], v)
    && forall path :: path in m.needs(w.commands[output], v) ==> Shows(w, m, n - 1, path, v(path))
  }

  /** What a build that reads `path` finds there. */
  ghost predicate Shows(w: World, m: Making, n: nat, path: Path, bytes: Bytes)
    decreases n, 3
  {
    match OutputNamedBy(path)
    case Some(read) => Builds(w, m, n, read, bytes)
    case None => w.stamps(path).Some? && bytes == m.sourceOf(w.stamps(path).value)
  }

  // ---- Records ---------------------------------------------------------------------------------

  /** The record of `output` was made by its command as it saw `v`, and has a stamp of all that it read. */
  ghost predicate RecordedFrom(w: World, m: Making, output: Path, v: View)
    requires output in w.records
  {
    var r := w.records[output];
    && m.hash(m.make(r.command, v)) == r.hash
    && (forall path :: path in m.needs(r.command, v) ==> exists i :: 0 <= i < |r.inputs| && r.inputs[i].path == path)
    && forall i :: 0 <= i < |r.inputs| ==> StampedFrom(m, r.inputs[i], v)
  }

  predicate StampedFrom(m: Making, input: Input, v: View) {
    if OutputNamedBy(input.path).Some? then m.hash(v(input.path)) == input.hash else v(input.path) == m.sourceOf(input)
  }

  /** Every record is of a build that was run, and content is kept under its hash, which no other has. */
  ghost predicate Honest(w: World, m: Making) {
    && (forall o :: o in w.records ==> exists v :: RecordedFrom(w, m, o, v))
    && (forall h :: w.contents(h).Some? ==> m.hash(w.contents(h).value) == h)
    && (forall a, b :: m.hash(a) == m.hash(b) ==> a == b)
  }

  /** What a record that holds has its output serve is what building it now would. */
  lemma {:induction false} RestoredIsBuilt(w: World, m: Making, n: nat, output: Path)
    requires Honest(w, m) && HoldsBy(w, n, output)
    ensures Builds(w, m, n, output, w.contents(w.records[output].hash).value)
    decreases n
  {
    var r := w.records[output];
    var v: View :| RecordedFrom(w, m, output, v);
    var bytes := w.contents(r.hash).value;
    assert bytes == m.make(r.command, v) && w.commands[output] == r.command;
    forall path | path in m.needs(r.command, v) ensures Shows(w, m, n - 1, path, v(path)) {
      var i :| 0 <= i < |r.inputs| && r.inputs[i].path == path;
      assert InputHoldsBy(w, n - 1, r.inputs[i]) && StampedFrom(m, r.inputs[i], v);
      if OutputNamedBy(path).Some? {
        RestoredIsBuilt(w, m, n - 1, OutputNamedBy(path).value);
      }
    }
    assert BuildsWith(w, m, n, output, bytes, v);
  }

  /** What holds has content that can be read, and is no trace. */
  lemma HeldIsNoTrace(w: World, output: Path)
    requires Holds(w, output)
    ensures output in w.commands && w.commands[output].action != Manifest.Action.Tracing
    ensures output in w.records && w.contents(w.records[output].hash).Some?
  {
    HoldsUnfolds(w, output);
  }

  /** So in whatever order records come, what is restored is what building it now would come to. */
  lemma HoldingIsBuilt(w: World, m: Making, output: Path)
    requires Honest(w, m) && Holds(w, output)
    ensures exists n: nat :: Builds(w, m, n, output, w.contents(w.records[output].hash).value)
  {
    var n: nat :| HoldsBy(w, n, output);
    RestoredIsBuilt(w, m, n, output);
  }

  /** With no rule, source or content changed, and no two records reading each other, every record that was kept holds. */
  lemma {:induction false} UnchangedHolds(w: World, rank: Path -> nat, output: Path)
    requires forall o :: o in w.records ==> Sound(w, o) && forall i :: 0 <= i < |w.records[o].inputs| ==> Unchanged(w, rank, o, w.records[o].inputs[i])
    requires output in w.records
    ensures Holds(w, output)
    decreases rank(output)
  {
    forall i | 0 <= i < |w.records[output].inputs| ensures InputHolds(w, w.records[output].inputs[i]) {
      var input := w.records[output].inputs[i];
      assert Unchanged(w, rank, output, input);
      if OutputNamedBy(input.path).Some? {
        UnchangedHolds(w, rank, OutputNamedBy(input.path).value);
      }
    }
    HoldsUnfolds(w, output);
  }

  predicate Unchanged(w: World, rank: Path -> nat, output: Path, input: Input) {
    match OutputNamedBy(input.path)
    case Some(read) => SameContent(w, input, read) && rank(read) < rank(output)
    case None => StampHolds(w, input)
  }
}
