/** Which outputs read which inputs, both ways round, and what a change to some of them reaches. */
module DependencyIndex {
  import opened Paths
  import opened Wrappers
  import opened CacheRecords
  import opened QueueLines

  function ReadersIn(dependents: map<Path, set<Path>>, input: Path): set<Path> {
    if input in dependents then dependents[input] else {}
  }

  /** `dependents` is `dependencies` the other way round, with no entry for what nothing reads. */
  ghost predicate Inverse(dependencies: map<Path, seq<Path>>, dependents: map<Path, set<Path>>) {
    && (forall input :: input in dependents ==> dependents[input] != {})
    && forall input, output ::
         output in ReadersIn(dependents, input) <==> output in dependencies && input in dependencies[output]
  }

  ghost function AllRead(dependencies: map<Path, seq<Path>>): set<Path> {
    set o, i | o in dependencies && 0 <= i < |dependencies[o]| :: dependencies[o][i]
  }

  ghost function WhoRead(dependencies: map<Path, seq<Path>>, input: Path): set<Path> {
    set o | o in dependencies && input in dependencies[o]
  }

  /** The inverse itself. */
  ghost function DependentsOf(dependencies: map<Path, seq<Path>>): map<Path, set<Path>> {
    map input | input in AllRead(dependencies) :: WhoRead(dependencies, input)
  }

  lemma DependentsOfIsInverse(dependencies: map<Path, seq<Path>>)
    ensures Inverse(dependencies, DependentsOf(dependencies))
  {
    var dependents := DependentsOf(dependencies);
    forall input | input in dependents ensures dependents[input] != {} {
      var o, i :| o in dependencies && 0 <= i < |dependencies[o]| && dependencies[o][i] == input;
      assert o in WhoRead(dependencies, input);
    }
    forall input, o ensures o in ReadersIn(dependents, input) <==> o in dependencies && input in dependencies[o] {
      if o in dependencies && input in dependencies[o] {
        var i :| 0 <= i < |dependencies[o]| && dependencies[o][i] == input;
        assert dependencies[o][i] in AllRead(dependencies);
        assert o in WhoRead(dependencies, input);
      }
    }
  }

  /** There is only one inverse. */
  lemma InverseIsUnique(dependencies: map<Path, seq<Path>>, a: map<Path, set<Path>>, b: map<Path, set<Path>>)
    requires Inverse(dependencies, a) && Inverse(dependencies, b)
    ensures a == b
  {
    forall input ensures ReadersIn(a, input) == ReadersIn(b, input) {
      forall o ensures o in ReadersIn(a, input) <==> o in ReadersIn(b, input) {
        assert o in ReadersIn(a, input) <==> o in dependencies && input in dependencies[o];
        assert o in ReadersIn(b, input) <==> o in dependencies && input in dependencies[o];
      }
    }
    forall input ensures input in a <==> input in b {
      assert ReadersIn(a, input) == ReadersIn(b, input);
    }
    forall input | input in a ensures a[input] == b[input] {
      assert ReadersIn(a, input) == ReadersIn(b, input);
    }
  }

  class Index {
    var dependencies: map<Path, seq<Path>>
    var dependents: map<Path, set<Path>>

    ghost predicate Valid()
      reads this
    {
      Inverse(dependencies, dependents)
    }

    constructor ()
      ensures Valid() && dependencies == map[]
    {
      dependencies, dependents := map[], map[];
    }

    function Readers(input: Path): set<Path>
      reads this
    {
      ReadersIn(dependents, input)
    }

    /** Takes `output` out of the readers of what it read before. */
    method Unread(output: Path, previous: seq<Path>)
      requires forall input :: input in dependents ==> dependents[input] != {}
      modifies `dependents
      ensures forall input :: input in dependents ==> dependents[input] != {}
      ensures forall input :: Readers(input) == old(Readers(input)) - if input in previous then {output} else {}
    {
      var i := 0;
      while i < |previous|
        invariant i <= |previous|
        invariant forall input :: input in dependents ==> dependents[input] != {}
        invariant forall input :: Readers(input) == old(Readers(input)) - if input in previous[..i] then {output} else {}
      {
        var input := previous[i];
        assert previous[..i + 1] == previous[..i] + [input];
        if input in dependents {
          var readers := dependents[input] - {output};
          if readers == {} {
            dependents := dependents - {input};
          } else {
            dependents := dependents[input := readers];
          }
        }
        i := i + 1;
      }
      assert previous[..i] == previous;
    }

    /** From now on `output` reads `inputs`, which may repeat, and nothing else. */
    method UpdateDependents(output: Path, inputs: seq<Path>)
      requires Valid()
      modifies this
      ensures Valid() && dependencies == old(dependencies)[output := inputs]
    {
      if output in dependencies {
        Unread(output, dependencies[output]);
      }
      label unread:
      assert forall input, o :: o in Readers(input) <==> o != output && o in dependencies && input in dependencies[o] by {
        assert forall input :: output in old(Readers(input)) ==> output in dependencies && input in dependencies[output];
      }
      var i := 0;
      while i < |inputs|
        invariant i <= |inputs| && dependencies == old(dependencies)
        invariant forall input :: input in dependents ==> dependents[input] != {}
        invariant forall input :: Readers(input) == old@unread(Readers(input)) + if input in inputs[..i] then {output} else {}
      {
        var input := inputs[i];
        assert inputs[..i + 1] == inputs[..i] + [input];
        dependents := dependents[input := Readers(input) + {output}];
        i := i + 1;
      }
      assert inputs[..i] == inputs;
      dependencies := dependencies[output := inputs];
      forall input, o ensures o in ReadersIn(dependents, input) <==> o in dependencies && input in dependencies[o] {
        assert ReadersIn(dependents, input) == Readers(input);
        assert o in old@unread(Readers(input)) <==> o != output && o in old(dependencies) && input in old(dependencies)[o];
      }
    }

    /** The rule of `output` is gone, and with it all it read. */
    method Forget(output: Path)
      requires Valid()
      modifies this
      ensures Valid() && dependencies == old(dependencies) - {output}
    {
      UpdateDependents(output, []);
      dependencies := dependencies - {output};
    }
  }

  // ---- What a change reaches -------------------------------------------------------------------

  /** Each output of the chain, all of them declared, is read by the next. */
  ghost predicate ReadBy(declared: set<Path>, dependents: map<Path, set<Path>>, chain: seq<Path>) {
    && chain != [] && (forall i :: 0 <= i < |chain| ==> chain[i] in declared)
    && forall i :: 0 <= i < |chain| - 1 ==> chain[i + 1] in ReadersIn(dependents, AsInput(chain[i]))
  }

  /** A chain of readers leads from one of `from` to `output`. */
  ghost predicate Reached(declared: set<Path>, dependents: map<Path, set<Path>>, from: seq<Path>, output: Path) {
    exists chain :: ReadBy(declared, dependents, chain) && chain[0] in from && chain[|chain| - 1] == output
  }

  lemma ReachedFirst(declared: set<Path>, dependents: map<Path, set<Path>>, from: seq<Path>, output: Path)
    requires output in from && output in declared
    ensures Reached(declared, dependents, from, output)
  {
    assert ReadBy(declared, dependents, [output]);
  }

  lemma ReachedNext(declared: set<Path>, dependents: map<Path, set<Path>>, from: seq<Path>, output: Path, reader: Path)
    requires Reached(declared, dependents, from, output) && reader in ReadersIn(dependents, AsInput(output)) && reader in declared
    ensures Reached(declared, dependents, from, reader)
  {
    var chain :| ReadBy(declared, dependents, chain) && chain[0] in from && chain[|chain| - 1] == output;
    var more := chain + [reader];
    forall i | 0 <= i < |more| - 1 ensures more[i + 1] in ReadersIn(dependents, AsInput(more[i])) {
      if i < |chain| - 1 {
        assert chain[i + 1] in ReadersIn(dependents, AsInput(chain[i]));
      }
    }
    assert ReadBy(declared, dependents, more);
  }

  /** A set that holds where chains begin, and every declared reader of what it holds, holds all they reach. */
  lemma {:induction false} ClosedHoldsReached(declared: set<Path>, dependents: map<Path, set<Path>>, held: set<Path>, chain: seq<Path>)
    requires ReadBy(declared, dependents, chain) && chain[0] in held
    requires forall o, r :: o in held && r in ReadersIn(dependents, AsInput(o)) && r in declared ==> r in held
    ensures chain[|chain| - 1] in held
    decreases |chain|
  {
    if |chain| > 1 {
      assert chain[0 + 1] in ReadersIn(dependents, AsInput(chain[0]));
      var rest := chain[1..];
      forall i | 0 <= i < |rest| - 1 ensures rest[i + 1] in ReadersIn(dependents, AsInput(rest[i])) {
        assert chain[i + 1 + 1] in ReadersIn(dependents, AsInput(chain[i + 1]));
      }
      ClosedHoldsReached(declared, dependents, held, rest);
    }
  }

  /** What is reached is the least set of declared outputs that holds those of `from` and every reader of what it holds. */
  lemma ReachedIsLeast(declared: set<Path>, dependents: map<Path, set<Path>>, from: seq<Path>, output: Path)
    requires output in declared
    ensures Reached(declared, dependents, from, output) <==> forall held :: Takes(declared, dependents, from, held) ==> output in held
  {
    var reached := set o | o in declared && Reached(declared, dependents, from, o);
    forall o | o in from && o in declared ensures o in reached {
      ReachedFirst(declared, dependents, from, o);
    }
    forall o, r | o in reached && r in ReadersIn(dependents, AsInput(o)) && r in declared ensures r in reached {
      ReachedNext(declared, dependents, from, o, r);
    }
    assert Takes(declared, dependents, from, reached);
    if Reached(declared, dependents, from, output) {
      var chain :| ReadBy(declared, dependents, chain) && chain[0] in from && chain[|chain| - 1] == output;
      forall held | Takes(declared, dependents, from, held) ensures output in held {
        ClosedHoldsReached(declared, dependents, held, chain);
      }
    }
  }

  ghost predicate Takes(declared: set<Path>, dependents: map<Path, set<Path>>, from: seq<Path>, held: set<Path>) {
    && (forall o :: o in from && o in declared ==> o in held)
    && forall o, r :: o in held && r in ReadersIn(dependents, AsInput(o)) && r in declared ==> r in held
  }

  function CountOf(counts: map<Path, nat>, output: Path): nat {
    if output in counts then counts[output] else 0
  }

  /** What the tree keeps of its outputs besides their content: which are declared, stale, being built, ever opened. */
  class Outputs {
    var declared: set<Path>
    var stale: set<Path>
    var inFlight: set<Path>
    var materialized: set<Path>
    var invalidations: map<Path, nat>
    const index: Index

    constructor (index: Index)
      ensures this.index == index && declared == stale == inFlight == materialized == {} && invalidations == map[]
    {
      this.index := index;
      declared, stale, inFlight, materialized, invalidations := {}, {}, {}, {}, map[];
    }

    ghost predicate Affected(from: seq<Path>, output: Path)
      reads this, index
    {
      Reached(declared, index.dependents, from, output)
    }

    /** Marks `output`, and has its readers wait to be marked. */
    method Mark(output: Path, rest: seq<Path>, ghost from: seq<Path>, ghost seen: set<Path>, eager: seq<Path>,
                ghost before: map<Path, nat>, ghost staleBefore: set<Path>)
      returns (outputs: seq<Path>, more: seq<Path>)
      requires Marking(declared, index.dependents, from, seen, rest + [output]) && output in declared && output !in seen
      requires Bumped(before, invalidations, seen) && EagerOf(eager, seen, materialized, inFlight)
      requires stale == staleBefore + seen && seen <= declared
      modifies `stale, `invalidations
      ensures stale == staleBefore + (seen + {output}) && seen + {output} <= declared
      ensures |declared - (seen + {output})| < |declared - seen|
      ensures Marking(declared, index.dependents, from, seen + {output}, outputs)
      ensures Bumped(before, invalidations, seen + {output}) && EagerOf(more, seen + {output}, materialized, inFlight)
    {
      hide Reached, Marking, Bumped, EagerOf;
      Shrinks(declared, seen, output);
      outputs := PushAll(rest, index.Readers(AsInput(output)));
      MarkingGoesOn(declared, index.dependents, from, seen, rest, output, outputs);
      MarksOneMore(before, invalidations, seen, output, eager, materialized, inFlight);
      more := eager;
      stale := stale + {output};
      invalidations := invalidations[output := CountOf(invalidations, output) + 1];
      if output in materialized && output !in inFlight {
        more := more + [output];
      }
    }

    /** Marks stale `from` and everything that read it, and that in turn; `eager` are those to build at once. */
    method Invalidate(from: seq<Path>) returns (seen: set<Path>, eager: seq<Path>)
      modifies `stale, `invalidations
      ensures forall output :: output in seen <==> Affected(from, output)
      ensures stale == old(stale) + seen && Bumped(old(invalidations), invalidations, seen)
      ensures EagerOf(eager, seen, materialized, inFlight)
    {
      hide Reached, Marking, Bumped, EagerOf, Distinct, AsInput, ReadersIn, CountOf, ReadBy, Inverse;
      var outputs := from;
      seen, eager := {}, [];
      MarkingBegins(declared, index.dependents, from);
      NothingMarked(invalidations, materialized, inFlight);
      while outputs != []
        invariant seen <= declared && stale == old(stale) + seen
        invariant Marking(declared, index.dependents, from, seen, outputs)
        invariant Bumped(old(invalidations), invalidations, seen)
        invariant EagerOf(eager, seen, materialized, inFlight)
        decreases |declared - seen|, |outputs|
      {
        var output, rest := Pop(outputs);
        if output !in declared || output in seen {
          MarkingPasses(declared, index.dependents, from, seen, rest, output);
          outputs := rest;
          continue;
        }
        outputs, eager := Mark(output, rest, from, seen, eager, old(invalidations), old(stale));
        seen := seen + {output};
      }
      MarkingEnds(declared, index.dependents, from, seen);
    }
  }

  /** The counts of `seen`, and no others, went up by one. */
  ghost predicate Bumped(before: map<Path, nat>, after: map<Path, nat>, seen: set<Path>) {
    after.Keys == before.Keys + seen && forall output :: CountOf(after, output) == CountOf(before, output) + if output in seen then 1 else 0
  }

  /** What is to be built at once, each once: of what was seen, what was ever opened and is not being built. */
  ghost predicate EagerOf(eager: seq<Path>, seen: set<Path>, materialized: set<Path>, inFlight: set<Path>) {
    Distinct(eager) && forall output :: output in eager <==> output in seen && output in materialized && output !in inFlight
  }

  lemma NothingMarked(counts: map<Path, nat>, materialized: set<Path>, inFlight: set<Path>)
    ensures Bumped(counts, counts, {}) && EagerOf([], {}, materialized, inFlight)
  {
  }

  lemma MarksOneMore(before: map<Path, nat>, counts: map<Path, nat>, seen: set<Path>, output: Path, eager: seq<Path>,
                     materialized: set<Path>, inFlight: set<Path>)
    requires Bumped(before, counts, seen) && output !in seen && EagerOf(eager, seen, materialized, inFlight)
    ensures Bumped(before, counts[output := CountOf(counts, output) + 1], seen + {output})
    ensures EagerOf(if output in materialized && output !in inFlight then eager + [output] else eager,
                    seen + {output}, materialized, inFlight)
  {
    if output in materialized && output !in inFlight {
      DistinctJoin(eager, [output]);
    }
    hide Distinct;
  }

  /** How far marking has got: what is seen is reached, and all that is reached is seen, or beyond what waits. */
  ghost predicate Marking(declared: set<Path>, dependents: map<Path, set<Path>>, from: seq<Path>, seen: set<Path>, waiting: seq<Path>) {
    && (forall output :: output in seen ==> Reached(declared, dependents, from, output))
    && (forall output :: output in waiting && output in declared ==> Reached(declared, dependents, from, output))
    && (forall output :: output in from && output in declared ==> output in seen || output in waiting)
    && forall o, r :: o in seen && r in ReadersIn(dependents, AsInput(o)) && r in declared ==> r in seen || r in waiting
  }

  lemma MarkingBegins(declared: set<Path>, dependents: map<Path, set<Path>>, from: seq<Path>)
    ensures Marking(declared, dependents, from, {}, from)
  {
    forall output | output in from && output in declared ensures Reached(declared, dependents, from, output) {
      ReachedFirst(declared, dependents, from, output);
    }
  }

  lemma MarkingPasses(declared: set<Path>, dependents: map<Path, set<Path>>, from: seq<Path>, seen: set<Path>, rest: seq<Path>, output: Path)
    requires Marking(declared, dependents, from, seen, rest + [output]) && (output !in declared || output in seen)
    ensures Marking(declared, dependents, from, seen, rest)
  {
    hide Reached;
    assert forall o :: o in rest + [output] <==> o in rest || o == output;
  }

  lemma MarkingGoesOn(declared: set<Path>, dependents: map<Path, set<Path>>, from: seq<Path>, seen: set<Path>, rest: seq<Path>,
                      output: Path, more: seq<Path>)
    requires Marking(declared, dependents, from, seen, rest + [output]) && output in declared
    requires forall o :: o in more <==> o in rest || o in ReadersIn(dependents, AsInput(output))
    ensures Marking(declared, dependents, from, seen + {output}, more)
  {
    assert forall o :: o in rest + [output] <==> o in rest || o == output;
    assert output in rest + [output];
    forall r | r in ReadersIn(dependents, AsInput(output)) && r in declared ensures Reached(declared, dependents, from, r) {
      ReachedNext(declared, dependents, from, output, r);
    }
    hide Reached;
  }

  lemma MarkingEnds(declared: set<Path>, dependents: map<Path, set<Path>>, from: seq<Path>, seen: set<Path>)
    requires Marking(declared, dependents, from, seen, [])
    ensures forall output :: output in seen <==> Reached(declared, dependents, from, output)
  {
    forall output | Reached(declared, dependents, from, output) ensures output in seen {
      var chain :| ReadBy(declared, dependents, chain) && chain[0] in from && chain[|chain| - 1] == output;
      ClosedHoldsReached(declared, dependents, seen, chain);
    }
  }

  lemma Shrinks(all: set<Path>, seen: set<Path>, output: Path)
    requires output in all && output !in seen
    ensures |all - (seen + {output})| < |all - seen|
  {
    assert all - seen == (all - (seen + {output})) + {output};
  }

  method Pop(outputs: seq<Path>) returns (last: Path, rest: seq<Path>)
    requires outputs != []
    ensures outputs == rest + [last] && |rest| < |outputs|
  {
    last, rest := outputs[|outputs| - 1], outputs[..|outputs| - 1];
  }
}
