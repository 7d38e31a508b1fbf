/** Which cached builds still hold when a tree starts: a memoised search, and the least fixpoint it finds. */
module Restore {
  import opened Paths
  import opened Wrappers
  import opened Manifest
  import opened Expand
  import opened CacheRecords
  import opened DependencyIndex

  /** All that does not change meanwhile: records, rules, the stamps of sources, and the content kept by its hash. */
  datatype World = World(
    records: map<Path, Record>,
    commands: map<Path, Command>,
    stamps: Path -> Option<Input>,
    contents: Hash -> Option<Bytes>)

  // ---- What it is for a record to hold ---------------------------------------------------------

  /** What a record needs besides what it read: its rule unchanged, and its own content intact. */
  predicate Sound(w: World, output: Path) {
    && output in w.records && output in w.commands
    && w.commands[output].action != Action.Tracing
    && w.records[output].command == w.commands[output]
    && w.contents(w.records[output].hash).Some?
  }

  /** A source file is stamped as it was. */
  predicate StampHolds(w: World, input: Input) {
    w.stamps(input.path) == Some(input)
  }

  /** An output read has the content it was read with. */
  predicate SameContent(w: World, input: Input, read: Path) {
    read in w.records && w.records[read].hash == input.hash
  }

  /** A record holds by reasons that go no more than `n` reads deep. */
  ghost predicate HoldsBy(w: World, n: nat, output: Path)
    decreases n, 0
  {
    n > 0 && Sound(w, output)
    && forall i :: 0 <= i < |w.records[output].inputs| ==> InputHoldsBy(w, n - 1, w.records[output].inputs[i])
  }

  ghost predicate InputHoldsBy(w: World, n: nat, input: Input)
    decreases n, 1
  {
    match OutputNamedBy(input.path)
    case Some(read) => HoldsBy(w, n, read) && SameContent(w, input, read)
    case None => StampHolds(w, input)
  }

  /** A record holds, by reasons that come to an end. */
  ghost predicate Holds(w: World, output: Path) {
    exists n: nat :: HoldsBy(w, n, output)
  }

  ghost predicate InputHolds(w: World, input: Input) {
    match OutputNamedBy(input.path)
    case Some(read) => Holds(w, read) && SameContent(w, input, read)
    case None => StampHolds(w, input)
  }

  lemma {:induction false} HoldsLonger(w: World, n: nat, m: nat, output: Path)
    requires HoldsBy(w, n, output) && n <= m
    ensures HoldsBy(w, m, output)
    decreases n
  {
    forall i | 0 <= i < |w.records[output].inputs| ensures InputHoldsBy(w, m - 1, w.records[output].inputs[i]) {
      var input := w.records[output].inputs[i];
      assert InputHoldsBy(w, n - 1, input);
      if OutputNamedBy(input.path).Some? {
        HoldsLonger(w, n - 1, m - 1, OutputNamedBy(input.path).value);
      }
    }
  }

  lemma InputHoldsLonger(w: World, n: nat, m: nat, input: Input)
    requires InputHoldsBy(w, n, input) && n <= m
    ensures InputHoldsBy(w, m, input)
  {
    if OutputNamedBy(input.path).Some? {
      HoldsLonger(w, n, m, OutputNamedBy(input.path).value);
    }
  }

  /** However many inputs hold, there is one depth at which they all do. */
  lemma {:induction false} CommonDepth(w: World, inputs: seq<Input>) returns (n: nat)
    requires forall i :: 0 <= i < |inputs| ==> InputHolds(w, inputs[i])
    ensures forall i :: 0 <= i < |inputs| ==> InputHoldsBy(w, n, inputs[i])
  {
    if inputs == [] {
      n := 0;
    } else {
      var last := |inputs| - 1;
      var before := CommonDepth(w, inputs[..last]);
      n := before;
      assert InputHolds(w, inputs[last]);
      if OutputNamedBy(inputs[last].path).Some? {
        var own: nat :| HoldsBy(w, own, OutputNamedBy(inputs[last].path).value);
        assert InputHoldsBy(w, own, inputs[last]);
        n := if own > before then own else before;
        InputHoldsLonger(w, own, n, inputs[last]);
      }
      forall i | 0 <= i < last ensures InputHoldsBy(w, n, inputs[i]) {
        assert inputs[..last][i] == inputs[i];
        InputHoldsLonger(w, before, n, inputs[i]);
      }
    }
  }

  lemma InputHoldsAtAll(w: World, n: nat, input: Input)
    requires InputHoldsBy(w, n, input)
    ensures InputHolds(w, input)
  {
    if OutputNamedBy(input.path).Some? {
      assert HoldsBy(w, n, OutputNamedBy(input.path).value);
    }
  }

  /** All that the record of `output` read holds. */
  ghost predicate AllInputsHold(w: World, output: Path)
    requires output in w.records
  {
    forall i :: 0 <= i < |w.records[output].inputs| ==> InputHolds(w, w.records[output].inputs[i])
  }

  /** `Holds` is a fixpoint: a record holds just if it is sound and all it read holds. */
  lemma HoldsUnfolds(w: World, output: Path)
    ensures Holds(w, output) <==> Sound(w, output) && AllInputsHold(w, output)
  {
    if Holds(w, output) {
      var n: nat :| HoldsBy(w, n, output);
      forall i | 0 <= i < |w.records[output].inputs| ensures InputHolds(w, w.records[output].inputs[i]) {
        assert InputHoldsBy(w, n - 1, w.records[output].inputs[i]);
        InputHoldsAtAll(w, n - 1, w.records[output].inputs[i]);
      }
    }
    if Sound(w, output) && AllInputsHold(w, output) {
      var n := CommonDepth(w, w.records[output].inputs);
      assert HoldsBy(w, n + 1, output);
    }
  }

  /** Everything named holds as `says` has it, or is stamped as it was. */
  ghost predicate InputSaid(w: World, input: Input, says: Path -> bool) {
    match OutputNamedBy(input.path)
    case Some(read) => says(read) && SameContent(w, input, read)
    case None => StampHolds(w, input)
  }

  ghost predicate Justified(w: World, output: Path, says: Path -> bool) {
    Sound(w, output) && forall i :: 0 <= i < |w.records[output].inputs| ==> InputSaid(w, w.records[output].inputs[i], says)
  }

  /** And it is the least: whatever says so of every output it justifies says so of all that hold. */
  lemma {:induction false} HoldsIsLeast(w: World, says: Path -> bool, n: nat, output: Path)
    requires forall o :: Justified(w, o, says) ==> says(o)
    requires HoldsBy(w, n, output)
    ensures says(output)
    decreases n
  {
    forall i | 0 <= i < |w.records[output].inputs| ensures InputSaid(w, w.records[output].inputs[i], says) {
      var input := w.records[output].inputs[i];
      assert InputHoldsBy(w, n - 1, input);
      if OutputNamedBy(input.path).Some? {
        HoldsIsLeast(w, says, n - 1, OutputNamedBy(input.path).value);
      }
    }
    assert Justified(w, output, says);
  }

  // ---- Cycles ----------------------------------------------------------------------------------

  /** The record of `a` read `b`. */
  ghost predicate Reads(w: World, a: Path, b: Path) {
    a in w.records && exists i :: 0 <= i < |w.records[a].inputs| && OutputNamedBy(w.records[a].inputs[i].path) == Some(b)
  }

  /** Each output of the chain read the next. */
  ghost predicate Chain(w: World, chain: seq<Path>) {
    forall i :: 0 <= i < |chain| - 1 ==> Reads(w, chain[i], chain[i + 1])
  }

  lemma ReadHoldsSooner(w: World, n: nat, a: Path, b: Path)
    requires Reads(w, a, b) && HoldsBy(w, n, a)
    ensures n > 0 && HoldsBy(w, n - 1, b)
  {
    var i :| 0 <= i < |w.records[a].inputs| && OutputNamedBy(w.records[a].inputs[i].path) == Some(b);
    assert InputHoldsBy(w, n - 1, w.records[a].inputs[i]);
  }

  /** Down a chain the reasons get shorter. */
  lemma {:induction false} ChainHoldsSooner(w: World, chain: seq<Path>, from: nat, to: nat, n: nat)
    requires Chain(w, chain) && from <= to < |chain| && HoldsBy(w, n, chain[from])
    ensures HoldsBy(w, n, chain[to]) && (from < to ==> n > 0 && HoldsBy(w, n - 1, chain[to]))
    decreases |chain| - from
  {
    if from < to {
      assert Reads(w, chain[from], chain[from + 1]);
      ReadHoldsSooner(w, n, chain[from], chain[from + 1]);
      ChainHoldsSooner(w, chain, from + 1, to, n - 1);
      HoldsLonger(w, n - 1, n, chain[to]);
    }
  }

  /** What comes round to itself never holds. */
  lemma {:induction false} CycleNeverHoldsBy(w: World, chain: seq<Path>, at: nat, n: nat)
    requires Chain(w, chain) && at < |chain| && Reads(w, chain[|chain| - 1], chain[at])
    ensures !HoldsBy(w, n, chain[at])
    decreases n
  {
    if HoldsBy(w, n, chain[at]) {
      ChainHoldsSooner(w, chain, at, |chain| - 1, n);
      ReadHoldsSooner(w, n, chain[|chain| - 1], chain[at]);
      CycleNeverHoldsBy(w, chain, at, n - 1);
      assert false;
    }
  }

  lemma CycleNeverHolds(w: World, chain: seq<Path>, at: nat)
    requires Chain(w, chain) && at < |chain| && Reads(w, chain[|chain| - 1], chain[at])
    ensures !Holds(w, chain[at])
  {
    forall n: nat ensures !HoldsBy(w, n, chain[at]) {
      CycleNeverHoldsBy(w, chain, at, n);
    }
  }

  // ---- The search ------------------------------------------------------------------------------

  datatype Check = Checking | Holding | Stale

  /** All outputs that have records, or are named by them. */
  function Named(w: World): set<Path> {
    w.records.Keys
    + set r, i | r in w.records && 0 <= i < |w.records[r].inputs| && OutputNamedBy(w.records[r].inputs[i].path).Some?
        :: OutputNamedBy(w.records[r].inputs[i].path).value
  }

  lemma NamedHolds(w: World, output: Path, i: nat)
    requires output in w.records && i < |w.records[output].inputs| && OutputNamedBy(w.records[output].inputs[i].path).Some?
    ensures OutputNamedBy(w.records[output].inputs[i].path).value in Named(w)
    ensures Reads(w, output, OutputNamedBy(w.records[output].inputs[i].path).value)
  {
  }

  /** What has been found so far is so; what is being checked is the chain of reads the search is down. */
  ghost predicate Found(w: World, checked: map<Path, Check>, contents: map<Path, Bytes>, chain: seq<Path>) {
    && Chain(w, chain) && OnChain(checked, chain)
    && (forall o :: o in checked ==> FoundOf(w, checked[o], contents, o))
    && (forall o :: o in contents ==> Holds(w, o) && ContentIs(w, o, contents[o]))
    && checked.Keys <= Named(w)
  }

  ghost predicate OnChain(checked: map<Path, Check>, chain: seq<Path>) {
    && (forall o :: o in chain ==> o in checked && checked[o] == Checking)
    && (forall o :: o in checked && checked[o] == Checking ==> o in chain)
  }

  ghost predicate FoundOf(w: World, check: Check, contents: map<Path, Bytes>, o: Path) {
    match check
    case Checking => true
    case Holding => Holds(w, o) && o in contents
    case Stale => !Holds(w, o)
  }

  ghost predicate ContentIs(w: World, output: Path, bytes: Bytes) {
    output in w.records && w.contents(w.records[output].hash) == Some(bytes)
  }

  /** What was found before was not found otherwise since. */
  ghost predicate StillFound(before: map<Path, Check>, after: map<Path, Check>) {
    forall o :: o in before ==> o in after && after[o] == before[o]
  }

  lemma ChainGrows(w: World, chain: seq<Path>, output: Path)
    requires Chain(w, chain) && (chain != [] ==> Reads(w, chain[|chain| - 1], output))
    ensures Chain(w, chain + [output])
  {
    hide Reads;
    var longer := chain + [output];
    forall i | 0 <= i < |longer| - 1 ensures Reads(w, longer[i], longer[i + 1]) {
      if i < |chain| - 1 {
        assert Reads(w, chain[i], chain[i + 1]);
      }
    }
  }

  lemma BeginsChecking(w: World, checked: map<Path, Check>, contents: map<Path, Bytes>, chain: seq<Path>, output: Path)
    requires Found(w, checked, contents, chain) && output in Named(w) && output !in checked
    requires chain != [] ==> Reads(w, chain[|chain| - 1], output)
    ensures Found(w, checked[output := Checking], contents, chain + [output]) && output !in chain
  {
    ChainGrows(w, chain, output);
    CheckingMore(checked, chain, output);
    FoundMore(w, checked, contents, chain, output, chain + [output]);
  }

  lemma FoundMore(w: World, checked: map<Path, Check>, contents: map<Path, Bytes>, chain: seq<Path>, output: Path, longer: seq<Path>)
    requires Found(w, checked, contents, chain) && output in Named(w) && output !in checked
    requires Chain(w, longer) && OnChain(checked[output := Checking], longer)
    ensures Found(w, checked[output := Checking], contents, longer)
  {
    hide Named, Reads, Holds, ContentIs, Chain, OnChain;
  }

  lemma CheckingMore(checked: map<Path, Check>, chain: seq<Path>, output: Path)
    requires output !in checked && OnChain(checked, chain)
    ensures output !in chain && OnChain(checked[output := Checking], chain + [output])
  {
  }

  lemma StillFoundAfter(before: map<Path, Check>, output: Path, after: map<Path, Check>, check: Check)
    requires output !in before && StillFound(before[output := Checking], after)
    ensures StillFound(before, after[output := check])
  {
  }

  lemma EndsChecking(w: World, checked: map<Path, Check>, contents: map<Path, Bytes>, chain: seq<Path>, output: Path, holds: bool)
    requires Found(w, checked, contents, chain + [output]) && output !in chain
    requires holds <==> Holds(w, output)
    requires holds ==> output in contents
    ensures Found(w, checked[output := if holds then Holding else Stale], contents, chain)
  {
    hide Named, Reads, Holds, ContentIs;
    assert forall o :: o in chain + [output] <==> o in chain || o == output;
    forall i | 0 <= i < |chain| - 1 ensures Reads(w, chain[i], chain[i + 1]) {
      assert Reads(w, (chain + [output])[i], (chain + [output])[i + 1]);
    }
  }

  /** What is met while it is being checked is on a cycle, and holds by no reasons. */
  lemma MetWhileChecking(w: World, checked: map<Path, Check>, contents: map<Path, Bytes>, chain: seq<Path>, output: Path)
    requires Found(w, checked, contents, chain) && output in checked
    requires chain != [] ==> Reads(w, chain[|chain| - 1], output)
    ensures checked[output] == Holding <==> Holds(w, output)
  {
    if checked[output] == Checking {
      var at :| 0 <= at < |chain| && chain[at] == output;
      CycleNeverHolds(w, chain, at);
    }
  }

  lemma NamedLess(w: World, before: map<Path, Check>, after: map<Path, Check>)
    requires StillFound(before, after)
    ensures |Named(w) - after.Keys| <= |Named(w) - before.Keys|
  {
    hide Named;
    var more := (Named(w) - before.Keys) - (Named(w) - after.Keys);
    assert Named(w) - before.Keys == (Named(w) - after.Keys) + more;
  }

  /** Works out, once for each output, whether its record holds. */
  class Restoring {
    const w: World
    var checked: map<Path, Check>
    var contents: map<Path, Bytes>

    constructor (w: World)
      ensures this.w == w && Found(w, checked, contents, [])
    {
      this.w := w;
      checked, contents := map[], map[];
    }

    /** Says of `output`, read by the last of `chain`, whether it holds - even where that comes round to it. */
    method RecordHolds(output: Path, ghost chain: seq<Path>) returns (holds: bool)
      requires Found(w, checked, contents, chain) && output in Named(w)
      requires chain != [] ==> Reads(w, chain[|chain| - 1], output)
      modifies this
      ensures Found(w, checked, contents, chain) && StillFound(old(checked), checked)
      ensures holds <==> Holds(w, output)
      ensures holds ==> output in contents
      decreases |Named(w) - checked.Keys|, 0
    {
      hide Named, Reads, Holds, Found, StillFound;
      StillFoundNow(checked);
      if output in checked {
        MetWhileChecking(w, checked, contents, chain, output);
        if checked[output] == Holding {
          HeldHasContent(w, checked, contents, chain, output);
        }
        return checked[output] == Holding;
      }
      ghost var before := checked;
      BeginsChecking(w, checked, contents, chain, output);
      Shrinks(Named(w), checked.Keys, output);
      assert checked[output := Checking].Keys == checked.Keys + {output};
      assert output !in checked;
      checked := checked[output := Checking];
      holds := CheckRecord(output, chain);
      EndsChecking(w, checked, contents, chain, output, holds);
      StillFoundAfter(before, output, checked, if holds then Holding else Stale);
      checked := checked[output := if holds then Holding else Stale];
    }

    method CheckRecord(output: Path, ghost chain: seq<Path>) returns (holds: bool)
      requires Found(w, checked, contents, chain + [output]) && output in Named(w)
      modifies this
      ensures Found(w, checked, contents, chain + [output]) && StillFound(old(checked), checked)
      ensures holds <==> Holds(w, output)
      ensures holds ==> output in contents
      decreases |Named(w) - checked.Keys|, 2
    {
      hide Named, Reads, Holds, AllInputsHold, Found, StillFound;
      HoldsUnfolds(w, output);
      StillFoundNow(checked);
      if output !in w.records || output !in w.commands || w.commands[output].action == Action.Tracing
         || w.records[output].command != w.commands[output]
      {
        return false;
      }
      var inputsHold := CheckInputs(output, chain);
      if !inputsHold {
        return false;
      }
      var bytes := w.contents(w.records[output].hash);
      if bytes.None? {
        return false;
      }
      KeepsContent(w, checked, contents, chain + [output], output);
      contents := contents[output := bytes.value];
      return true;
    }

    /** Whether all that the record of `output` read holds, as far as the first that does not. */
    method CheckInputs(output: Path, ghost chain: seq<Path>) returns (hold: bool)
      requires Found(w, checked, contents, chain + [output]) && output in Named(w) && output in w.records
      modifies this
      ensures Found(w, checked, contents, chain + [output]) && StillFound(old(checked), checked)
      ensures hold <==> AllInputsHold(w, output)
      decreases |Named(w) - checked.Keys|, 1, 1
    {
      hide Named, Reads, Holds, AllInputsHold, Found, StillFound, InputHolds, FirstHold;
      StillFoundNow(checked);
      FirstHoldMore(w, output);
      var inputs := w.records[output].inputs;
      var i := 0;
      while i < |inputs|
        invariant i <= |inputs|
        invariant Found(w, checked, contents, chain + [output]) && StillFound(old(checked), checked)
        invariant FirstHold(w, output, i)
      {
        ghost var before := checked;
        NamedLess(w, old(checked), checked);
        var inputHolds := CheckInput(output, chain, i);
        StillFoundLater(old(checked), before, checked);
        if !inputHolds {
          OneFails(w, output, i);
          return false;
        }
        i := i + 1;
      }
      return true;
    }

    method CheckInput(output: Path, ghost chain: seq<Path>, i: nat) returns (holds: bool)
      requires Found(w, checked, contents, chain + [output]) && output in w.records && i < |w.records[output].inputs|
      modifies this
      ensures Found(w, checked, contents, chain + [output]) && StillFound(old(checked), checked)
      ensures holds <==> InputHolds(w, w.records[output].inputs[i])
      decreases |Named(w) - checked.Keys|, 1, 0
    {
      hide Named, Reads, Holds, Found, StillFound;
      StillFoundNow(checked);
      var input := w.records[output].inputs[i];
      var read := OutputNamedBy(input.path);
      if read.Some? {
        NamedHolds(w, output, i);
        holds := RecordHolds(read.value, chain + [output]);
        if holds {
          HeldHasRecord(w, read.value);
          holds := w.records[read.value].hash == input.hash;
        }
      } else {
        holds := w.stamps(input.path) == Some(input);
      }
    }

    /** Every record either is what its output now serves, or is dropped. */
    method RestoreAll(order: seq<Path>, outputs: Outputs)
      returns (served: map<Path, Bytes>, hashes: map<Path, Hash>, dropped: seq<Path>)
      requires Found(w, checked, contents, []) && outputs.index.Valid()
      requires forall o :: o in order ==> o in w.records
      modifies this, outputs, outputs.index
      ensures forall o :: o in served <==> o in order && Holds(w, o)
      ensures forall o :: o in served ==> ContentIs(w, o, served[o])
      ensures hashes.Keys == served.Keys && forall o :: o in served ==> o in w.records && hashes[o] == w.records[o].hash
      ensures forall o :: o in dropped <==> o in order && !Holds(w, o)
      ensures outputs.stale == old(outputs.stale) - served.Keys
      ensures outputs.index.Valid() && forall o :: o in outputs.index.dependencies <==> o in old(outputs.index.dependencies) || o in served
      ensures forall o :: o in outputs.index.dependencies ==>
        outputs.index.dependencies[o] == if o in served then InputPaths(w.records[o].inputs) else old(outputs.index.dependencies)[o]
      ensures outputs.declared == old(outputs.declared) && outputs.invalidations == old(outputs.invalidations)
    {
      hide Named, Holds, Found, StillFound, ContentIs, Inverse;
      served, hashes, dropped := map[], map[], [];
      var i := 0;
      while i < |order|
        invariant i <= |order| && Found(w, checked, contents, [])
        invariant forall o :: o in served <==> o in order[..i] && Holds(w, o)
        invariant forall o :: o in served ==> ContentIs(w, o, served[o])
        invariant hashes.Keys == served.Keys && forall o :: o in served ==> o in w.records && hashes[o] == w.records[o].hash
        invariant forall o :: o in dropped <==> o in order[..i] && !Holds(w, o)
        invariant outputs.stale == old(outputs.stale) - served.Keys
        invariant outputs.index.Valid()
        invariant forall o :: o in outputs.index.dependencies <==> o in old(outputs.index.dependencies) || o in served
        invariant forall o :: o in outputs.index.dependencies ==>
          outputs.index.dependencies[o] == if o in served then InputPaths(w.records[o].inputs) else old(outputs.index.dependencies)[o]
        invariant outputs.declared == old(outputs.declared) && outputs.invalidations == old(outputs.invalidations)
      {
        var output := order[i];
        assert order[..i + 1] == order[..i] + [output];
        RecordedIsNamed(w, output);
        var holds := RecordHolds(output, []);
        if holds {
          ContentFound(w, checked, contents, output);
          served := served[output := contents[output]];
          hashes := hashes[output := w.records[output].hash];
          outputs.stale := outputs.stale - {output};
          outputs.index.UpdateDependents(output, InputPaths(w.records[output].inputs));
        } else {
          dropped := dropped + [output];
        }
        i := i + 1;
      }
      assert order[..i] == order;
    }
  }

  function InputPaths(inputs: seq<Input>): (paths: seq<Path>)
    ensures |paths| == |inputs| && forall i :: 0 <= i < |inputs| ==> paths[i] == inputs[i].path
  {
    seq(|inputs|, i requires 0 <= i < |inputs| => inputs[i].path)
  }

  lemma RecordedIsNamed(w: World, output: Path)
    requires output in w.records
    ensures output in Named(w)
  {
  }

  lemma ContentFound(w: World, checked: map<Path, Check>, contents: map<Path, Bytes>, output: Path)
    requires Found(w, checked, contents, []) && output in contents
    ensures ContentIs(w, output, contents[output])
  {
  }

  lemma StillFoundNow(checked: map<Path, Check>)
    ensures StillFound(checked, checked)
  {
  }

  lemma StillFoundLater(before: map<Path, Check>, then_: map<Path, Check>, after: map<Path, Check>)
    requires StillFound(before, then_) && StillFound(then_, after)
    ensures StillFound(before, after)
  {
  }

  lemma HeldHasContent(w: World, checked: map<Path, Check>, contents: map<Path, Bytes>, chain: seq<Path>, output: Path)
    requires Found(w, checked, contents, chain) && output in checked && checked[output] == Holding
    ensures output in contents
  {
  }

  lemma HeldHasRecord(w: World, output: Path)
    requires Holds(w, output)
    ensures output in w.records
  {
    var n: nat :| HoldsBy(w, n, output);
  }

  lemma OneFails(w: World, output: Path, i: nat)
    requires output in w.records && i < |w.records[output].inputs| && !InputHolds(w, w.records[output].inputs[i])
    ensures !AllInputsHold(w, output)
  {
  }

  /** The first `k` inputs that the record of `output` read hold. */
  ghost predicate FirstHold(w: World, output: Path, k: nat)
    requires output in w.records
  {
    k <= |w.records[output].inputs| && forall i :: 0 <= i < k ==> InputHolds(w, w.records[output].inputs[i])
  }

  lemma FirstHoldMore(w: World, output: Path)
    requires output in w.records
    ensures FirstHold(w, output, 0)
    ensures forall k: nat :: FirstHold(w, output, k) && k < |w.records[output].inputs| && InputHolds(w, w.records[output].inputs[k]) ==>
      FirstHold(w, output, k + 1)
    ensures FirstHold(w, output, |w.records[output].inputs|) ==> AllInputsHold(w, output)
  {
    hide InputHolds;
  }

  lemma KeepsContent(w: World, checked: map<Path, Check>, contents: map<Path, Bytes>, chain: seq<Path>, output: Path)
    requires Found(w, checked, contents, chain) && output in w.records && w.contents(w.records[output].hash).Some?
    ensures Holds(w, output) ==> Found(w, checked, contents[output := w.contents(w.records[output].hash).value], chain)
  {
    hide Named, Reads, Holds, Chain;
  }
}
