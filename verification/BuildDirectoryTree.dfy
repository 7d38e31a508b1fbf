/** The build tree's bookkeeping as it runs, each critical section changing it in place. */
module BuildDirectoryTree {
  import opened Paths
  import opened Wrappers
  import opened Manifest
  import opened Expand
  import opened CacheRecords
  import opened DependencyIndex
  import opened QueueLines
  import opened BuildTree
  import opened BuildTreeInvariant
  import opened RuleChanges

  class BuildDirectoryTree {
    var commands: map<Path, Command>
    var attempts: map<Path, Attempts>
    const outputs: Outputs

    // The machine all this is part of: what is kept here, and what threads are in the midst of.
    ghost var tree: Tree

    ghost predicate Valid()
      reads this, outputs, outputs.index
    {
      && tree.commands == commands && tree.attempts == attempts
      && outputs.declared == commands.Keys && tree.stale == outputs.stale && tree.inFlight == outputs.inFlight
      && tree.materialized == outputs.materialized && tree.invalidations == outputs.invalidations
      && outputs.index.Valid() && tree.dependencies == outputs.index.dependencies
    }

    constructor (outputs: Outputs, commands: map<Path, Command>, ghost tree: Tree)
      requires outputs.index.Valid() && outputs.declared == commands.Keys
      requires tree.commands == commands && tree.attempts == map[] && tree.stale == outputs.stale
      requires tree.inFlight == outputs.inFlight && tree.materialized == outputs.materialized
      requires tree.invalidations == outputs.invalidations && tree.dependencies == outputs.index.dependencies
      ensures Valid() && this.outputs == outputs && this.tree == tree
    {
      this.commands, this.outputs, this.tree := commands, outputs, tree;
      attempts := map[];
    }

    /** A build begins: for whoever already waits on a next one, if anybody does, and otherwise anew. */
    method ClaimBuild(output: Path, made: AttemptId) returns (attempt: AttemptId)
      requires Valid() && Claimable(tree, output)
      modifies `attempts, `tree, outputs
      ensures Valid() && tree == Claimed(old(tree), output, made)
      ensures output in attempts && attempts[output].current == Some(attempt)
    {
      var was := if output in attempts then attempts[output] else Attempts(None, None, 0);
      attempt := if was.next.Some? then was.next.value else made;
      var count := if output in outputs.invalidations then outputs.invalidations[output] else 0;
      attempts := attempts[output := Attempts(Some(attempt), None, count)];
      outputs.stale := outputs.stale - {output};
      outputs.inFlight := outputs.inFlight + {output};
      tree := Claimed(tree, output, made);
    }

    /** The build that brings an output up to date: the one under way, the next, or one started here. */
    method BringUpToDate(output: Path, made: AttemptId) returns (target: Option<AttemptId>)
      requires Valid()
      modifies this, outputs
      ensures Valid() && tree == AfterOpen(old(tree), output, made) && target == OpenTarget(old(tree), output, made)
    {
      hide Claimed;
      if output !in commands {
        return None;
      }
      outputs.materialized := outputs.materialized + {output};
      if commands[output].action == Action.Tracing && output !in outputs.inFlight {
        outputs.stale := outputs.stale + {output};
      }
      if output !in attempts {
        attempts := attempts[output := Attempts(None, None, 0)];
      }
      tree := Opened(tree, output);
      assert Valid();
      if output in outputs.inFlight {
        if output !in outputs.stale {
          return attempts[output].current;
        }
        if attempts[output].next.None? {
          attempts := attempts[output := attempts[output].(next := Some(made))];
          tree := WithNext(tree, output, made);
        }
        return attempts[output].next;
      }
      if output !in outputs.stale {
        return None;
      }
      var attempt := ClaimBuild(output, made);
      ClaimsCurrent(Opened(old(tree), output), output, made);
      return Some(attempt);
    }

    /** An eager build, where there is still something to build and nobody building it. */
    method StartBuild(output: Path, made: AttemptId) returns (launched: Option<AttemptId>)
      requires Valid() && made !in tree.created
      modifies this, outputs
      ensures Valid() && tree == Next(old(tree), Step.Start(output, made))
      ensures launched.Some? <==> Claimable(old(tree), output)
    {
      if output !in outputs.stale || output in outputs.inFlight || output !in commands {
        return None;
      }
      var attempt := ClaimBuild(output, made);
      return Some(attempt);
    }

    /** A build that succeeded: what it read is recorded, unless its rule has gone. */
    method RecordInputs(output: Path, inputs: seq<Path>, ghost a: AttemptId)
      requires Valid() && a in tree.underWay && tree.underWay[a].output == output
      modifies this, outputs.index
      ensures Valid() && tree == AfterRecord(old(tree), a, inputs)
    {
      if output in commands {
        outputs.index.UpdateDependents(output, inputs);
      }
      tree := AfterRecord(tree, a, inputs);
    }

    /** A build is over: what waits on the next one is built again, or, its rule gone, orphaned. */
    method Settle(output: Path, a: AttemptId, ok: bool, canceled: bool, inputs: seq<Path>, made: AttemptId)
      returns (next: Option<AttemptId>, orphaned: Option<AttemptId>)
      requires Valid() && Waiters(tree) && Enabled(tree, Step.Settle(a, ok, canceled, inputs, made)) && tree.underWay[a].output == output
      modifies this, outputs, outputs.index
      ensures Valid() && tree == AfterSettle(old(tree), a, ok, canceled, inputs, made)
      ensures orphaned.Some? ==> output !in commands && orphaned == AttemptsAt(old(tree), output).next
      ensures next.Some? <==> output in commands && Rebuilds(old(tree), output, ok, canceled)
    {
      hide Waiters, Enabled, Settling, AfterSettle, Rebuilds, Claimable;
      ghost var before := tree;
      SettleMayRebuild(before, a, ok, canceled, inputs, made);
      NoteFailure(output, a, ok, inputs);
      assert output in commands <==> output in before.commands;
      next, orphaned := None, None;
      if output in commands {
        next := SettleDeclared(output, a, ok, canceled, inputs, made, before);
      } else {
        orphaned := DropAttempts(output, a, ok, canceled, inputs, made, before);
      }
    }

    /** What failed is stale again, and what a change or an open asks for is begun again. */
    method SettleDeclared(output: Path, ghost a: AttemptId, ok: bool, canceled: bool, ghost inputs: seq<Path>,
                          made: AttemptId, ghost before: Tree)
      returns (next: Option<AttemptId>)
      requires Valid() && a in before.underWay && before.underWay[a].output == output && output in before.commands
      requires tree == Settling(before, a, ok, inputs)
      requires Rebuilds(before, output, ok, canceled) ==>
        Claimable(tree.(stale := if ok then tree.stale else tree.stale + {output}), output)
      modifies `attempts, `tree, outputs
      ensures Valid() && tree == AfterSettle(before, a, ok, canceled, inputs, made)
      ensures next.Some? <==> Rebuilds(before, output, ok, canceled)
    {
      SettledWaits(before, output);
      SettlingFields(before, a, ok, inputs);
      next := None;
      var waitedOn := output in attempts && attempts[output].next.Some?;
      var changed := output in outputs.stale;
      var stopped := !ok && canceled;
      hide Claimed, Settling;
      if !ok {
        outputs.stale := outputs.stale + {output};
      }
      tree := tree.(stale := if ok then tree.stale else tree.stale + {output});
      if waitedOn || (changed && !stopped && output in outputs.materialized) {
        var attempt := ClaimBuild(output, made);
        next := Some(attempt);
      }
    }

    /** What a failure read replaces what was recorded, unless it read nothing. */
    method NoteFailure(output: Path, ghost a: AttemptId, ok: bool, inputs: seq<Path>)
      requires Valid() && a in tree.underWay && tree.underWay[a].output == output
      modifies `tree, outputs`inFlight, outputs.index
      ensures Valid() && tree == Settling(old(tree), a, ok, inputs)
      ensures tree.stale == old(tree).stale && tree.materialized == old(tree).materialized
      ensures tree.attempts == old(tree).attempts && tree.commands == old(tree).commands
    {
      SettlingFields(tree, a, ok, inputs);
      hide Settling, Inverse;
      if !ok && output in commands && inputs != [] {
        outputs.index.UpdateDependents(output, inputs);
      }
      outputs.inFlight := outputs.inFlight - {output};
      tree := Settling(tree, a, ok, inputs);
    }

    /** With nobody to build it for, what waits on a next build is left to be told. */
    method DropAttempts(output: Path, ghost a: AttemptId, ghost ok: bool, ghost canceled: bool, ghost inputs: seq<Path>,
                        ghost made: AttemptId, ghost before: Tree)
      returns (orphaned: Option<AttemptId>)
      requires Valid() && a in before.underWay && before.underWay[a].output == output && output !in before.commands
      requires tree == Settling(before, a, ok, inputs)
      modifies `attempts, `tree
      ensures Valid() && tree == AfterSettle(before, a, ok, canceled, inputs, made)
      ensures orphaned == AttemptsAt(before, output).next
    {
      orphaned := if output in attempts then attempts[output].next else None;
      attempts := attempts - {output};
      tree := AfterSettle(before, a, ok, canceled, inputs, made);
    }

    /** Marks stale what changed and all that reads it; `eager` are to be started. */
    method Invalidate(from: seq<Path>, ghost id: int) returns (eager: seq<Path>)
      requires Valid()
      modifies this, outputs
      ensures Valid() && tree == AfterInvalidate(old(tree), from, id)
      ensures forall o :: o in eager <==> o in Affected(old(tree), from) && o in outputs.materialized && o !in outputs.inFlight
    {
      hide Reached, DependentsOf, Inverse, Affected, Bump, Bumped, Distinct;
      DependentsOfIsInverse(tree.dependencies);
      InverseIsUnique(tree.dependencies, outputs.index.dependents, DependentsOf(tree.dependencies));
      var seen;
      seen, eager := outputs.Invalidate(from);
      AffectedIs(old(tree), from, seen);
      BumpedIsBump(old(tree).invalidations, outputs.invalidations, seen);
      tree := AfterInvalidate(tree, from, id);
    }

    /** Declares every output newly in `rules`: stale, and, if all are to be built, as though opened. */
    method Declare(rules: map<Path, Command>, watchAll: bool) returns (added: set<Path>, watched: set<Path>, changed: set<Path>)
      modifies outputs`stale, outputs`materialized
      ensures added == rules.Keys - commands.Keys && watched == WatchedOf(added, rules, watchAll)
      ensures changed == watched + ChangedOf(commands, rules)
      ensures outputs.stale == old(outputs.stale) + added && outputs.materialized == old(outputs.materialized) + watched
    {
      added, watched, changed := {}, {}, {};
      var rest := rules.Keys;
      while rest != {}
        modifies outputs`stale, outputs`materialized
        invariant rest <= rules.Keys
        invariant added == (rules.Keys - rest) - commands.Keys && watched == WatchedOf(added, rules, watchAll)
        invariant changed == watched + (ChangedOf(commands, rules) - rest)
        invariant outputs.stale == old(outputs.stale) + added && outputs.materialized == old(outputs.materialized) + watched
        decreases rest
      {
        var output :| output in rest;
        if output !in commands {
          added := added + {output};
          outputs.stale := outputs.stale + {output};
          if watchAll && rules[output].action != Action.Tracing {
            watched := watched + {output};
            outputs.materialized := outputs.materialized + {output};
            changed := changed + {output};
          }
        } else if commands[output] != rules[output] {
          changed := changed + {output};
        }
        rest := rest - {output};
      }
    }

    /** Nothing is left of outputs no longer declared but their counts, and the attempts of those in flight. */
    method Withdraw(removed: set<Path>)
      requires outputs.index.Valid()
      modifies `attempts, outputs`stale, outputs`materialized, outputs`invalidations, outputs.index
      ensures outputs.stale == old(outputs.stale) - removed && outputs.materialized == old(outputs.materialized) - removed
      ensures outputs.invalidations == Bump(old(outputs.invalidations), removed)
      ensures attempts == old(attempts) - (removed - outputs.inFlight)
      ensures outputs.index.Valid() && outputs.index.dependencies == old(outputs.index.dependencies) - removed
    {
      hide Inverse, Bump, CountOf;
      var rest := removed;
      ghost var done: set<Path> := {};
      BumpNone(outputs.invalidations);
      while rest != {}
        modifies `attempts, outputs`stale, outputs`materialized, outputs`invalidations, outputs.index
        invariant rest !! done && done + rest == removed && outputs.index.Valid()
        invariant outputs.stale == old(outputs.stale) - done && outputs.materialized == old(outputs.materialized) - done
        invariant outputs.invalidations == Bump(old(outputs.invalidations), done)
        invariant attempts == old(attempts) - (done - outputs.inFlight)
        invariant outputs.index.dependencies == old(outputs.index.dependencies) - done
        decreases rest
      {
        var output :| output in rest;
        BumpOneMore(old(outputs.invalidations), done, output);
        WithdrawOne(output);
        done := done + {output};
        rest := rest - {output};
      }
      assert done == removed;
    }

    method WithdrawOne(output: Path)
      requires outputs.index.Valid()
      modifies `attempts, outputs`stale, outputs`materialized, outputs`invalidations, outputs.index
      ensures outputs.stale == old(outputs.stale) - {output} && outputs.materialized == old(outputs.materialized) - {output}
      ensures outputs.invalidations == old(outputs.invalidations)[output := CountOf(old(outputs.invalidations), output) + 1]
      ensures attempts == if output in outputs.inFlight then old(attempts) else old(attempts) - {output}
      ensures outputs.index.Valid() && outputs.index.dependencies == old(outputs.index.dependencies) - {output}
    {
      outputs.stale := outputs.stale - {output};
      outputs.materialized := outputs.materialized - {output};
      var count := if output in outputs.invalidations then outputs.invalidations[output] else 0;
      outputs.invalidations := outputs.invalidations[output := count + 1];
      if output !in outputs.inFlight {
        attempts := attempts - {output};
      }
      outputs.index.Forget(output);
    }

    /** Takes on new rules: what is added is to be built, what is removed is forgotten, what changed is to be invalidated. */
    method ApplyRules(rules: map<Path, Command>, watchAll: bool, ghost id: int)
      returns (removed: set<Path>, added: set<Path>, changed: set<Path>)
      requires Valid()
      modifies this, outputs, outputs.index
      ensures removed == old(commands).Keys - rules.Keys && added == rules.Keys - old(commands).Keys
      ensures changed == WatchedOf(added, rules, watchAll) + ChangedOf(old(commands), rules)
      ensures Valid() && tree == AfterRules(old(tree), rules, WatchedOf(added, rules, watchAll), id)
    {
      hide Inverse, WatchedOf, ChangedOf, Bump;
      removed := commands.Keys - rules.Keys;
      var watched;
      added, watched, changed := Declare(rules, watchAll);
      Withdraw(removed);
      commands := rules;
      outputs.declared := rules.Keys;
      ghost var before := tree;
      tree := AfterRules(tree, rules, watched, id);
      WatchedIsAdded(added, rules, watchAll);
      assert outputs.stale == before.stale - removed + added;
      assert outputs.materialized == before.materialized - removed + watched;
    }

    /** Adds to `changed` whatever is recorded as having read any of `inputs`. */
    method AddReaders(changed: seq<Path>, inputs: set<Path>) returns (all: seq<Path>)
      requires Valid()
      ensures forall o :: o in all <==> o in changed || exists input :: input in inputs && HasRead(tree, o, input)
    {
      all := changed;
      var rest := inputs;
      while rest != {}
        invariant rest <= inputs
        invariant forall o :: o in all <==> o in changed || exists input :: input in inputs - rest && HasRead(tree, o, input)
        decreases rest
      {
        var input :| input in rest;
        var more := PushAll(all, outputs.index.Readers(input));
        forall o ensures o in more <==> o in changed || exists i :: i in inputs - (rest - {input}) && HasRead(tree, o, i) {
          assert o in outputs.index.Readers(input) <==> HasRead(tree, o, input);
          assert input in inputs - (rest - {input});
        }
        all := more;
        rest := rest - {input};
      }
      assert inputs - rest == inputs;
    }

    /** What has read anything that came or went is out of date too. */
    method CollectReaders(changed: set<Path>, moved: set<Path>) returns (all: seq<Path>)
      requires Valid()
      ensures forall o :: o in all <==> o in Collected(tree, Change(moved, changed, false)).changed
    {
      hide HasRead;
      var inputs := InputsOf(moved);
      all := PushAll([], changed);
      all := AddReaders(all, inputs);
      ReadersAre(tree, moved);
      forall o ensures (exists i :: i in inputs && HasRead(tree, o, i)) <==> HasReadAny(tree, o, moved) {
        InputsAre(tree, o, moved, inputs);
      }
    }

    /** All of a change of rules, each section of it as the machine has it, where nothing comes between them. */
    method Reload(rules: map<Path, Command>, watchAll: bool, ghost withdrawal: int, ghost invalidation: int)
      returns (eager: seq<Path>, ghost from: seq<Path>)
      requires Valid()
      modifies this, outputs, outputs.index
      ensures Valid()
      ensures var added, removed := rules.Keys - old(commands).Keys, old(commands).Keys - rules.Keys;
        var watched := WatchedOf(added, rules, watchAll);
        var t := AfterRules(old(tree), rules, watched, withdrawal);
        && tree == AfterInvalidate(t, from, invalidation)
        && outputs.stale == old(outputs.stale) - removed + added + Affected(t, from)
        && (forall o :: o in from <==> o in watched + ChangedOf(old(commands), rules) || HasReadAny(t, o, removed + added))
        && (forall o :: o in rules && (o in ChangedOf(old(commands), rules) || HasReadAny(t, o, removed + added)) ==> o in outputs.stale)
    {
      hide Inverse, WatchedOf, ChangedOf, Bump, Affected;
      var removed, added, changed;
      removed, added, changed := ApplyRules(rules, watchAll, withdrawal);
      var all := CollectReaders(changed, removed + added);
      from := all;
      ghost var t := tree;
      ReadersAre(t, removed + added);
      FromIsAffected(t, from);
      eager := Invalidate(all, invalidation);
    }

    /** What a change of the source is to invalidate: all that read what changed, or, not knowing what did, everything. */
    method AffectedBy(changed: set<Path>, everything: bool) returns (affected: seq<Path>)
      requires Valid()
      ensures everything ==> forall o :: o in affected <==> o in commands
      ensures !everything ==> forall o :: o in affected <==> exists input :: input in changed && HasRead(tree, o, input)
    {
      if everything {
        affected := PushAll([], commands.Keys);
      } else {
        affected := AddReaders([], changed);
      }
    }
  }

  function InputsOf(outputs: set<Path>): set<Path> {
    set output | output in outputs :: AsInput(output)
  }

  lemma FromIsAffected(t: Tree, from: seq<Path>)
    ensures forall o :: o in from && o in t.commands ==> o in Affected(t, from)
  {
    forall o | o in from && o in t.commands ensures o in Affected(t, from) {
      ReachedFirst(t.commands.Keys, ReadersOf(t), from, o);
    }
  }

  lemma ReadersAre(t: Tree, moved: set<Path>)
    ensures forall o :: o in ReadersAt(t, moved) <==> HasReadAny(t, o, moved)
  {
  }

  lemma InputsAre(t: Tree, o: Path, outputs: set<Path>, inputs: set<Path>)
    requires inputs == InputsOf(outputs)
    ensures (exists i :: i in inputs && HasRead(t, o, i)) <==> HasReadAny(t, o, outputs)
  {
  }

  /** Those of `added` that count as opened at once: all but traces, if everything is to be built. */
  function WatchedOf(added: set<Path>, rules: map<Path, Command>, watchAll: bool): set<Path> {
    set o | o in added && o in rules && watchAll && rules[o].action != Action.Tracing
  }

  lemma WatchedIsAdded(added: set<Path>, rules: map<Path, Command>, watchAll: bool)
    ensures WatchedOf(added, rules, watchAll) <= added
  {
  }

  lemma BumpOneMore(counts: map<Path, nat>, outputs: set<Path>, output: Path)
    requires output !in outputs
    ensures var bumped := Bump(counts, outputs);
      Bump(counts, outputs + {output}) == bumped[output := CountOf(bumped, output) + 1]
  {
  }

  lemma SettlingFields(t: Tree, a: AttemptId, ok: bool, inputs: seq<Path>)
    requires a in t.underWay
    ensures var u := Settling(t, a, ok, inputs);
      var output := t.underWay[a].output;
      && u.commands == t.commands && u.attempts == t.attempts && u.stale == t.stale && u.materialized == t.materialized
      && u.invalidations == t.invalidations && u.inFlight == t.inFlight - {output}
      && u.dependencies == if !ok && output in t.commands && inputs != [] then t.dependencies[output := inputs] else t.dependencies
  {
  }

  lemma SettleMayRebuild(t: Tree, a: AttemptId, ok: bool, canceled: bool, inputs: seq<Path>, made: AttemptId)
    requires Waiters(t) && Enabled(t, Step.Settle(a, ok, canceled, inputs, made))
    ensures a in t.underWay
    ensures var output := t.underWay[a].output;
      var u := Settling(t, a, ok, inputs);
      output in t.commands && Rebuilds(t, output, ok, canceled) ==>
        Claimable(u.(stale := if ok then u.stale else u.stale + {output}), output)
  {
    if t.underWay[a].output in t.commands && Rebuilds(t, t.underWay[a].output, ok, canceled) {
      RebuildIsClaimable(t, a, ok, canceled, inputs);
    }
  }

  lemma SettledWaits(t: Tree, output: Path)
    ensures AttemptsAt(t, output).next.Some? <==> output in t.attempts && t.attempts[output].next.Some?
  {
  }

  lemma AffectedIs(t: Tree, from: seq<Path>, seen: set<Path>)
    requires forall o :: o in seen <==> Reached(t.commands.Keys, DependentsOf(t.dependencies), from, o)
    ensures seen == Affected(t, from)
  {
    forall o | o in seen ensures o in t.commands {
      var chain :| ReadBy(t.commands.Keys, DependentsOf(t.dependencies), chain) && chain[0] in from && chain[|chain| - 1] == o;
    }
    hide Reached;
    forall o ensures o in seen <==> o in Affected(t, from) {
    }
  }

  lemma BumpedIsBump(before: map<Path, nat>, after: map<Path, nat>, seen: set<Path>)
    requires Bumped(before, after, seen)
    ensures after == Bump(before, seen)
  {
    forall o | o in after ensures after[o] == Bump(before, seen)[o] {
      assert CountOf(after, o) == CountOf(before, o) + if o in seen then 1 else 0;
    }
  }

  lemma ClaimsCurrent(t: Tree, output: Path, made: AttemptId)
    requires output in t.commands
    ensures output in Claimed(t, output, made).inFlight && output in Claimed(t, output, made).attempts
  {
  }
}
