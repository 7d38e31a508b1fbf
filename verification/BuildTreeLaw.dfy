/** What the steps of the build tree come to for one output, and over whole runs: when it is built, and of what it is told. */
module BuildTreeLaw {
  import opened Paths
  import opened Wrappers
  import opened Expand
  import opened BuildTree
  import opened BuildTreeInvariant

  // ---- Opens and settlings, cut up -------------------------------------------------------------

  /** An output removed while it was built: its next attempt will never go. */
  function Orphaned(t: Tree, output: Path): Tree {
    var next := AttemptsAt(t, output).next;
    t.(toComplete := t.toComplete + (if next.Some? then {next.value} else {}), attempts := t.attempts - {output})
  }

  /** What settling leaves, but for what is built again. */
  function Settled(t: Tree, a: AttemptId, ok: bool, inputs: seq<Path>): Tree
    requires a in t.underWay
  {
    var u := Settling(t, a, ok, inputs);
    u.(stale := if ok then u.stale else u.stale + {t.underWay[a].output})
  }

  lemma SettleIs(t: Tree, a: AttemptId, ok: bool, canceled: bool, inputs: seq<Path>, made: AttemptId)
    requires a in t.underWay
    ensures var output := t.underWay[a].output;
      AfterSettle(t, a, ok, canceled, inputs, made) ==
        if output !in t.commands then Orphaned(Settling(t, a, ok, inputs), output)
        else if Rebuilds(t, output, ok, canceled) then Claimed(Settled(t, a, ok, inputs), output, made)
        else Settled(t, a, ok, inputs)
  {
    hide Rebuilds, Claimed;
  }

  /** The open of a declared output, once counted: a next attempt, a build, or nothing more. */
  lemma OpenIs(t: Tree, output: Path, made: AttemptId)
    requires output in t.commands
    ensures var u := Opened(t, output);
      AfterOpen(t, output, made) ==
        if output in t.inFlight && output in t.stale && AttemptsAt(t, output).next.None? then WithNext(u, output, made)
        else if output !in t.inFlight && output in u.stale then Claimed(u, output, made)
        else u
  {
    hide Claimed, WithNext;
  }

  // ---- What steps leave alone ------------------------------------------------------------------

  /** What steps of the tree leave alone: commands, counts, and what outputs read. */
  lemma StepLeaves(t: Tree, step: Step)
    requires Enabled(t, step) && !step.ApplyRules?
    ensures var u := Next(t, step);
      && u.commands == t.commands
      && (!step.Invalidate? ==> u.invalidations == t.invalidations)
      && (!step.Record? && !step.Settle? ==> u.dependencies == t.dependencies)
  {
    hide AfterOpen, AfterRecord, AfterSettle, AfterStore, Affected, Claimed, AfterForget, Bump;
    match step
    case Open(output, made) => OpenLeaves(t, output, made);
    case Start(output, made) => ClaimLeaves(t, output, made);
    case Record(a, inputs) => RecordLeaves(t, a, inputs);
    case Settle(a, ok, canceled, inputs, made) => SettleLeaves(t, a, ok, canceled, inputs, made);
    case Store(a, stamped, ok) => StoreLeaves(t, stamped, ok);
    case Forget(id, ok) => ForgetLeaves(t, id, ok);
    case _ =>
  }

  predicate SameReads(t: Tree, u: Tree) {
    u.commands == t.commands && u.invalidations == t.invalidations && u.dependencies == t.dependencies
  }

  lemma ClaimLeaves(t: Tree, output: Path, made: AttemptId)
    ensures output in t.commands ==> SameReads(t, Claimed(t, output, made))
  {
  }

  lemma OpenedLeaves(t: Tree, output: Path, made: AttemptId)
    ensures SameReads(t, WithNext(t, output, made)) && (output in t.commands ==> SameReads(t, Opened(t, output)))
  {
  }

  lemma OpenLeaves(t: Tree, output: Path, made: AttemptId)
    ensures SameReads(t, AfterOpen(t, output, made))
  {
    hide Claimed, Opened, WithNext, AttemptsAt;
    if output in t.commands {
      OpenedLeaves(t, output, made);
      OpenedLeaves(Opened(t, output), output, made);
      ClaimLeaves(Opened(t, output), output, made);
    }
  }

  lemma RecordLeaves(t: Tree, a: AttemptId, inputs: seq<Path>)
    requires a in t.underWay
    ensures var u := AfterRecord(t, a, inputs);
      && u.commands == t.commands && u.invalidations == t.invalidations
      && (u.dependencies == t.dependencies || u.dependencies == t.dependencies[t.underWay[a].output := inputs])
  {
  }

  lemma SettlingLeaves(t: Tree, a: AttemptId, ok: bool, inputs: seq<Path>)
    requires a in t.underWay
    ensures var u := Settling(t, a, ok, inputs);
      && u.commands == t.commands && u.invalidations == t.invalidations
      && (u.dependencies == t.dependencies || u.dependencies == t.dependencies[t.underWay[a].output := inputs])
  {
  }

  lemma OrphanLeaves(t: Tree, a: AttemptId, ok: bool, canceled: bool, inputs: seq<Path>, made: AttemptId)
    requires a in t.underWay && t.underWay[a].output !in t.commands
    ensures SameReads(Settling(t, a, ok, inputs), AfterSettle(t, a, ok, canceled, inputs, made))
  {
    hide Settling;
  }

  lemma DeclaredLeaves(t: Tree, a: AttemptId, ok: bool, canceled: bool, inputs: seq<Path>, made: AttemptId)
    requires a in t.underWay && t.underWay[a].output in t.commands && Settling(t, a, ok, inputs).commands == t.commands
    ensures SameReads(Settling(t, a, ok, inputs), AfterSettle(t, a, ok, canceled, inputs, made))
  {
    var output := t.underWay[a].output;
    var u := Settling(t, a, ok, inputs);
    hide Settling, Claimed, Rebuilds, AttemptsAt;
    ClaimLeaves(u.(stale := if ok then u.stale else u.stale + {output}), output, made);
  }

  lemma SettleLeaves(t: Tree, a: AttemptId, ok: bool, canceled: bool, inputs: seq<Path>, made: AttemptId)
    requires a in t.underWay
    ensures var u := AfterSettle(t, a, ok, canceled, inputs, made);
      && u.commands == t.commands && u.invalidations == t.invalidations
      && (u.dependencies == t.dependencies || u.dependencies == t.dependencies[t.underWay[a].output := inputs])
  {
    hide Settling, AfterSettle;
    SettlingLeaves(t, a, ok, inputs);
    if t.underWay[a].output in t.commands {
      DeclaredLeaves(t, a, ok, canceled, inputs, made);
    } else {
      OrphanLeaves(t, a, ok, canceled, inputs, made);
    }
  }

  lemma StoreLeaves(t: Tree, stamped: bool, ok: bool)
    requires t.keeping.Some? && t.keeping.value.a in t.keeps
    ensures var u := AfterStore(t, t.keeping.value, stamped, ok);
      u.commands == t.commands && u.invalidations == t.invalidations && u.dependencies == t.dependencies
  {
  }

  lemma ForgetLeaves(t: Tree, id: int, ok: bool)
    requires id in t.forgets
    ensures var u := AfterForget(t, id, ok);
      u.commands == t.commands && u.invalidations == t.invalidations && u.dependencies == t.dependencies
  {
  }

  lemma InvalidationGrows(t: Tree, from: seq<Path>, id: int, o: Path)
    requires Enabled(t, Step.Invalidate(from, id))
    ensures CountAt(Next(t, Step.Invalidate(from, id)), o) >= CountAt(t, o)
  {
    hide Affected;
  }

  lemma RulesGrow(t: Tree, commands: map<Path, Command>, watched: set<Path>, id: int, o: Path)
    requires Enabled(t, ApplyRules(commands, watched, id))
    ensures CountAt(Next(t, ApplyRules(commands, watched, id)), o) >= CountAt(t, o)
  {
  }

  lemma CountGrows(t: Tree, step: Step, o: Path)
    requires Enabled(t, step)
    ensures CountAt(Next(t, step), o) >= CountAt(t, o)
  {
    hide Enabled, Next;
    if step.ApplyRules? {
      RulesGrow(t, step.commands, step.watched, step.id, o);
    } else {
      StepLeaves(t, step);
      if step.Invalidate? {
        InvalidationGrows(t, step.from, step.id, o);
      }
    }
  }

  lemma {:induction false} CountsGrowAlong(states: seq<Tree>, steps: seq<Step>, j: nat, i: nat, o: Path)
    requires IsRun(states, steps) && j <= i < |states|
    ensures CountAt(states[i], o) >= CountAt(states[j], o)
    decreases i - j
  {
    hide Enabled, Next;
    if j < i {
      CountsGrowAlong(states, steps, j, i - 1, o);
      CountGrows(states[i - 1], steps[i - 1], o);
      assert states[i - 1 + 1] == Next(states[i - 1], steps[i - 1]);
    }
  }

  // ---- What an open waits for ------------------------------------------------------------------

  /** An open after a change waits for a build that comes after it too: one not begun, or begun at the count of the open. */
  lemma OpenWaitsForLatest(t: Tree, output: Path, made: AttemptId)
    requires Inv(t) && made !in t.created && OpenTarget(t, output, made).Some?
    ensures var u, a := AfterOpen(t, output, made), OpenTarget(t, output, made).value;
      && CountAt(u, output) == CountAt(t, output)
      && (if a in u.claims then u.claims[a].output == output && u.claims[a].count == CountAt(t, output)
          else AttemptsAt(u, output).next == Some(a))
  {
    OpenLeaves(t, output, made);
    NextIsUnclaimed(t, output, made);
    assert FlightOk(t, output) && FreshOk(t, output);
    if output in t.inFlight {
      CurrentIsClaimed(t, output);
      hide Inv;
      FlightWaitsForLatest(t, output, made);
    } else {
      hide Inv;
      IdleWaitsForLatest(t, output, made);
    }
  }

  lemma CurrentIsClaimed(t: Tree, output: Path)
    requires Waiters(t) && output in t.inFlight
    ensures var a := AttemptsAt(t, output).current;
      && a.Some? && a.value in t.claims && t.claims[a.value].output == output
      && t.claims[a.value].count == AttemptsAt(t, output).claim
  {
    assert FlightOk(t, output);
    assert AttemptOk(t, t.attempts[output].current.value);
  }

  lemma FlightWaitsForLatest(t: Tree, output: Path, made: AttemptId)
    requires output in t.inFlight && FreshOk(t, output) && made !in t.claims && OpenTarget(t, output, made).Some?
    requires AttemptsAt(t, output).next.Some? ==> AttemptsAt(t, output).next.value !in t.claims
    requires AttemptsAt(t, output).current.Some? && AttemptsAt(t, output).current.value in t.claims
    requires t.claims[AttemptsAt(t, output).current.value].output == output
    requires t.claims[AttemptsAt(t, output).current.value].count == AttemptsAt(t, output).claim
    ensures var u, a := AfterOpen(t, output, made), OpenTarget(t, output, made).value;
      if a in u.claims then u.claims[a].output == output && u.claims[a].count == CountAt(t, output)
      else AttemptsAt(u, output).next == Some(a)
  {
    hide Claimed;
  }

  lemma IdleWaitsForLatest(t: Tree, output: Path, made: AttemptId)
    requires output !in t.inFlight && OpenTarget(t, output, made).Some?
    ensures var u, a := AfterOpen(t, output, made), OpenTarget(t, output, made).value;
      a in u.claims && u.claims[a].output == output && u.claims[a].count == CountAt(t, output)
  {
    hide WithNext;
  }

  lemma NextIsUnclaimed(t: Tree, output: Path, made: AttemptId)
    requires Waiters(t) && made !in t.created
    ensures made !in t.claims
    ensures AttemptsAt(t, output).next.Some? ==> AttemptsAt(t, output).next.value !in t.claims
  {
    assert AttemptOk(t, made);
    if AttemptsAt(t, output).next.Some? {
      assert IsNext(t, AttemptsAt(t, output).next.value);
      assert AttemptOk(t, AttemptsAt(t, output).next.value);
    }
  }

  /** `a` builds `output` as it is after `count` invalidations, or is to, or will never build anything. */
  predicate Latest(t: Tree, a: AttemptId, output: Path, count: nat) {
    if a in t.claims then t.claims[a].output == output && t.claims[a].count >= count
    else (AttemptsAt(t, output).next == Some(a) && CountAt(t, output) >= count) || a in t.toComplete || t.completions[a] > 0
  }

  /** Where an attempt not claimed is, it was made. */
  lemma LatestIsMade(t: Tree, a: AttemptId, output: Path, count: nat, settling: Option<Path>)
    requires WaitersBut(t, settling) && Latest(t, a, output, count)
    ensures a in t.created
    ensures a in t.toComplete || t.completions[a] > 0 ==> !IsNext(t, a)
  {
    assert AttemptOk(t, a);
    if AttemptsAt(t, output).next == Some(a) {
      assert IsNext(t, a);
    }
  }

  /** Whose attempt a claim takes: nobody's that has claimed or is over, and of those to come only the output's own. */
  lemma ClaimTakes(t: Tree, o: Path, made: AttemptId, a: AttemptId, output: Path)
    requires WaitersBut(t, Some(o)) && made !in t.created && a in t.created
    ensures a in t.claims || a in t.toComplete || t.completions[a] > 0 ==> ToClaim(t, o, made) != a
    ensures AttemptsAt(t, output).next == Some(a) && ToClaim(t, o, made) == a ==> o == output
  {
    var next := AttemptsAt(t, o).next;
    assert AttemptOk(t, a);
    if next == Some(a) {
      assert IsNext(t, a);
      if AttemptsAt(t, output).next == Some(a) {
        assert o in t.attempts && output in t.attempts;
      }
    }
    hide AttemptOk;
  }

  lemma ClaimKeepsLatest(t: Tree, o: Path, made: AttemptId, a: AttemptId, output: Path, count: nat)
    requires WaitersBut(t, Some(o)) && o in t.commands && made !in t.created && Latest(t, a, output, count)
    ensures Latest(Claimed(t, o, made), a, output, count)
  {
    LatestIsMade(t, a, output, count, Some(o));
    ClaimTakes(t, o, made, a, output);
    hide WaitersBut;
  }

  lemma OpenKeepsLatest(t: Tree, o: Path, made: AttemptId, a: AttemptId, output: Path, count: nat)
    requires Waiters(t) && made !in t.created && Latest(t, a, output, count)
    ensures Latest(AfterOpen(t, o, made), a, output, count)
  {
    if o in t.commands {
      var u := Opened(t, o);
      OpenedKeepsWaiters(t, o);
      OpenedLatest(t, o, a, output, count);
      if AttemptsAt(u, o).next.None? {
        NextLatest(u, o, made, a, output, count);
      }
      hide Waiters, WaitersBut, Latest, Opened, WithNext, Claimed, AttemptsAt;
      if o !in u.inFlight && o in u.stale {
        WaitersAreWaitersBut(u, o);
        ClaimKeepsLatest(u, o, made, a, output, count);
      }
    }
  }

  lemma OpenedLatest(t: Tree, o: Path, a: AttemptId, output: Path, count: nat)
    requires o in t.commands && Latest(t, a, output, count)
    ensures Latest(Opened(t, o), a, output, count) && Opened(t, o).created == t.created && Opened(t, o).commands == t.commands
  {
  }

  lemma NextLatest(t: Tree, o: Path, made: AttemptId, a: AttemptId, output: Path, count: nat)
    requires Latest(t, a, output, count) && AttemptsAt(t, o).next.None?
    ensures Latest(WithNext(t, o, made), a, output, count)
  {
  }

  lemma SettleKeepsLatest(t: Tree, b: AttemptId, ok: bool, canceled: bool, inputs: seq<Path>, made: AttemptId,
                          a: AttemptId, output: Path, count: nat)
    requires Waiters(t) && Enabled(t, Settle(b, ok, canceled, inputs, made)) && Latest(t, a, output, count)
    ensures Latest(AfterSettle(t, b, ok, canceled, inputs, made), a, output, count)
  {
    var o := t.underWay[b].output;
    var u := Settling(t, b, ok, inputs);
    var v := u.(stale := if ok then u.stale else u.stale + {o});
    SettlingLatest(t, b, ok, inputs, a, output, count);
    if o !in t.commands {
      hide Waiters, WaitersBut, Settling;
      OrphanKeepsLatest(u, o, a, output, count);
    } else {
      SettlingKeepsWaiters(t, b, ok, inputs);
      hide Waiters, WaitersBut, Claimed, Rebuilds, Latest, AttemptsAt;
      StalerKeepsWaiters(u, v, o);
      if Rebuilds(t, o, ok, canceled) {
        ClaimKeepsLatest(v, o, made, a, output, count);
      }
    }
  }

  lemma SettlingLatest(t: Tree, b: AttemptId, ok: bool, inputs: seq<Path>, a: AttemptId, output: Path, count: nat)
    requires b in t.underWay && Latest(t, a, output, count)
    ensures var u := Settling(t, b, ok, inputs);
      Latest(u, a, output, count) && Latest(u.(stale := if ok then u.stale else u.stale + {t.underWay[b].output}), a, output, count)
      && u.commands == t.commands && u.created == t.created && u.attempts == t.attempts
  {
  }

  lemma OrphanKeepsLatest(t: Tree, o: Path, a: AttemptId, output: Path, count: nat)
    requires Latest(t, a, output, count)
    ensures var next := AttemptsAt(t, o).next;
      Latest(t.(toComplete := t.toComplete + (if next.Some? then {next.value} else {}), attempts := t.attempts - {o}), a, output, count)
  {
  }

  lemma StepKeepsLatest(t: Tree, step: Step, a: AttemptId, output: Path, count: nat)
    requires Inv(t) && Enabled(t, step) && Latest(t, a, output, count)
    ensures Latest(Next(t, step), a, output, count)
  {
    hide Freshness, Cached, WaitersBut, AfterOpen, AfterSettle, AfterRules, AfterInvalidate, AfterRecord, AfterWrite, AfterStore, AfterForget, Claimed, Latest;
    match step
    case Open(o, made) => OpenKeepsLatest(t, o, made, a, output, count);
    case Start(o, made) =>
      if Claimable(t, o) {
        WaitersAreWaitersBut(t, o);
        ClaimKeepsLatest(t, o, made, a, output, count);
      }
    case Settle(b, ok, canceled, inputs, made) => SettleKeepsLatest(t, b, ok, canceled, inputs, made, a, output, count);
    case _ => RestKeepsLatest(t, step, a, output, count);
  }

  lemma RestKeepsLatest(t: Tree, step: Step, a: AttemptId, output: Path, count: nat)
    requires Waiters(t) && Enabled(t, step) && Latest(t, a, output, count) && !step.Open? && !step.Start? && !step.Settle?
    ensures Latest(Next(t, step), a, output, count)
  {
    CountGrows(t, step, output);
    if step.ApplyRules? {
      RulesKeepNexts(t, step.commands, step.watched, step.id);
    }
    hide Waiters, Affected, Bump, Raised;
  }

  /** What an open waits for, if it ever begins a build, begins one that no change before the open made out of date. */
  lemma {:induction false} OpensGetTheirChanges(states: seq<Tree>, steps: seq<Step>, j: nat, i: nat)
    requires IsRun(states, steps) && j < i < |states| && steps[j].Open? && OpenTarget(states[j], steps[j].output, steps[j].made).Some?
    ensures var a, output := OpenTarget(states[j], steps[j].output, steps[j].made).value, steps[j].output;
      Latest(states[i], a, output, CountAt(states[j], output))
  {
    hide Next, Enabled, OpenTarget, Inv, Latest;
    RunKeeps(states, steps, i - 1);
    assert Enabled(states[i - 1], steps[i - 1]) && states[i - 1 + 1] == Next(states[i - 1], steps[i - 1]);
    if i == j + 1 {
      OpensLatest(states[j], steps[j]);
    } else {
      OpensGetTheirChanges(states, steps, j, i - 1);
      StepKeepsLatest(states[i - 1], steps[i - 1], OpenTarget(states[j], steps[j].output, steps[j].made).value,
                      steps[j].output, CountAt(states[j], steps[j].output));
    }
  }

  lemma OpensLatest(t: Tree, step: Step)
    requires Inv(t) && Enabled(t, step) && step.Open? && OpenTarget(t, step.output, step.made).Some?
    ensures Latest(Next(t, step), OpenTarget(t, step.output, step.made).value, step.output, CountAt(t, step.output))
  {
    OpenWaitsForLatest(t, step.output, step.made);
    hide Inv, OpenTarget, AfterOpen;
  }
}
