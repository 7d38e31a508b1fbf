/** What each step of the build tree notes of what an output read, and what that comes to over runs. */
module BuildTreeReads {
  import opened Paths
  import opened Expand
  import opened BuildTree
  import opened BuildTreeInvariant
  import opened BuildTreeLaw

  /** The step notes what the build `a` of `o` read: its finish, if it succeeded, or, if it read anything, its failure. */
  predicate NotesReads(t: Tree, step: Step, o: Path, a: AttemptId, inputs: seq<Path>) {
    && o in t.commands && a in t.underWay && t.underWay[a].output == o
    && ((step.Record? && step.a == a && step.inputs == inputs)
        || (step.Settle? && step.a == a && !step.ok && step.inputs == inputs && inputs != []))
  }

  /** What an output read, and of which build, is as it was, unless the output has gone or a step notes it anew. */
  predicate ReadsGo(t: Tree, step: Step, u: Tree, o: Path) {
    if step.ApplyRules? && o in t.commands && o !in step.commands then o !in u.dependencies && o !in u.recorded
    else if (step.Record? || (step.Settle? && !step.ok && step.inputs != [])) && NotesReads(t, step, o, step.a, step.inputs) then
      && o in u.dependencies && u.dependencies[o] == step.inputs
      && o in u.recorded && u.recorded[o] == Built(step.a)
    else SameAt(t, u, o)
  }

  predicate SameAt(t: Tree, u: Tree, o: Path) {
    && (o in u.dependencies <==> o in t.dependencies) && (o in t.dependencies ==> u.dependencies[o] == t.dependencies[o])
    && (o in u.recorded <==> o in t.recorded) && (o in t.recorded ==> u.recorded[o] == t.recorded[o])
  }

  lemma StepsReads(t: Tree, step: Step, o: Path)
    requires Enabled(t, step)
    ensures ReadsGo(t, step, Next(t, step), o)
  {
    hide AfterOpen, AfterSettle, AfterRecord, AfterWrite, AfterRules, AfterInvalidate, Claimed, AfterStore, AfterForget, ReadsGo;
    match step
    case Open(output, made) => OpenReads(t, output, made, o);
      SameReadsGo(t, step, o);
    case Start(output, made) =>
      if Claimable(t, output) {
        ClaimReads(t, output, made, o);
      }
      SameReadsGo(t, step, o);
    case Settle(a, ok, canceled, inputs, made) => SettleReads(t, a, ok, canceled, inputs, made, o);
    case Record(a, inputs) => RecordReads(t, a, inputs, o);
    case ApplyRules(commands, watched, id) => RulesReads(t, commands, watched, id, o);
    case _ => RestReads(t, step, o);
      SameReadsGo(t, step, o);
  }

  lemma SameReadsGo(t: Tree, step: Step, o: Path)
    requires Enabled(t, step) && SameAt(t, Next(t, step), o) && !step.Settle? && !step.Record? && !step.ApplyRules?
    ensures ReadsGo(t, step, Next(t, step), o)
  {
    hide Next;
  }

  lemma RecordReads(t: Tree, a: AttemptId, inputs: seq<Path>, o: Path)
    requires a in t.underWay
    ensures ReadsGo(t, Step.Record(a, inputs), AfterRecord(t, a, inputs), o)
  {
  }

  lemma RulesReads(t: Tree, commands: map<Path, Command>, watched: set<Path>, id: int, o: Path)
    ensures ReadsGo(t, Step.ApplyRules(commands, watched, id), AfterRules(t, commands, watched, id), o)
  {
  }

  lemma RestReads(t: Tree, step: Step, o: Path)
    requires Enabled(t, step) && (step.Write? || step.Release? || step.Check? || step.Store? || step.Invalidate? || step.Forget?)
    ensures SameAt(t, Next(t, step), o)
  {
    hide AfterStore, AfterForget, Affected, Bump;
    match step
    case Store(a, stamped, ok) => StoreReads(t, stamped, ok, o);
    case Forget(id, ok) => ForgetReads(t, id, ok, o);
    case _ =>
  }

  lemma ClaimReads(t: Tree, output: Path, made: AttemptId, o: Path)
    requires output in t.commands
    ensures SameAt(t, Claimed(t, output, made), o)
  {
  }

  lemma OpenedReads(t: Tree, output: Path, made: AttemptId, o: Path)
    requires output in t.commands
    ensures SameAt(t, Opened(t, output), o) && SameAt(t, WithNext(Opened(t, output), output, made), o)
  {
  }

  lemma OpenReads(t: Tree, output: Path, made: AttemptId, o: Path)
    ensures SameAt(t, AfterOpen(t, output, made), o)
  {
    if output in t.commands {
      OpenIs(t, output, made);
      OpenedReads(t, output, made, o);
      OpenedLeaves(t, output, made);
      hide Claimed, Opened, WithNext, AfterOpen, AttemptsAt;
      ClaimReads(Opened(t, output), output, made, o);
    }
  }

  lemma StoreReads(t: Tree, stamped: bool, ok: bool, o: Path)
    requires t.keeping.Some? && t.keeping.value.a in t.keeps
    ensures SameAt(t, AfterStore(t, t.keeping.value, stamped, ok), o)
  {
  }

  lemma ForgetReads(t: Tree, id: int, ok: bool, o: Path)
    requires id in t.forgets
    ensures SameAt(t, AfterForget(t, id, ok), o)
  {
  }

  lemma SettlingReads(t: Tree, a: AttemptId, ok: bool, inputs: seq<Path>, o: Path)
    requires a in t.underWay
    ensures var u := Settling(t, a, ok, inputs);
      && u.commands == t.commands
      && if !ok && inputs != [] && o in t.commands && o == t.underWay[a].output then
           o in u.dependencies && u.dependencies[o] == inputs && o in u.recorded && u.recorded[o] == Built(a)
         else SameAt(t, u, o)
  {
  }

  lemma SettledReads(t: Tree, a: AttemptId, ok: bool, inputs: seq<Path>, o: Path)
    requires a in t.underWay
    ensures var u := Settling(t, a, ok, inputs);
      && Settled(t, a, ok, inputs).commands == u.commands
      && SameAt(u, Settled(t, a, ok, inputs), o) && SameAt(u, Orphaned(u, t.underWay[a].output), o)
  {
    hide Settling;
  }

  lemma SettleReads(t: Tree, a: AttemptId, ok: bool, canceled: bool, inputs: seq<Path>, made: AttemptId, o: Path)
    requires a in t.underWay
    ensures ReadsGo(t, Settle(a, ok, canceled, inputs, made), AfterSettle(t, a, ok, canceled, inputs, made), o)
  {
    hide Settling, Settled, Orphaned, AfterSettle, Claimed, Rebuilds, AttemptsAt;
    var output := t.underWay[a].output;
    SettlingReads(t, a, ok, inputs, o);
    SettledReads(t, a, ok, inputs, o);
    SettleIs(t, a, ok, canceled, inputs, made);
    if output in t.commands {
      ClaimReads(Settled(t, a, ok, inputs), output, made, o);
    }
  }

  /** What is recorded of an output as read by a build is what that build's finish noted of it, or its failure. */
  lemma {:induction false} ReadsForCause(states: seq<Tree>, steps: seq<Step>, i: nat, o: Path) returns (j: nat)
    requires IsRun(states, steps) && i < |states| && o in states[i].recorded && states[i].recorded[o].Built?
    ensures j < i && o in states[i].dependencies
    ensures NotesReads(states[j], steps[j], o, states[i].recorded[o].attempt, states[i].dependencies[o])
  {
    hide Next, Enabled;
    assert i > 0;
    assert Enabled(states[i - 1], steps[i - 1]) && states[i - 1 + 1] == Next(states[i - 1], steps[i - 1]);
    StepsReads(states[i - 1], steps[i - 1], o);
    if SameAt(states[i - 1], states[i], o) {
      j := ReadsForCause(states, steps, i - 1, o);
    } else {
      j := i - 1;
    }
  }

  /** What was restored is recorded with what it was restored with. */
  lemma {:induction false} RestoredReads(states: seq<Tree>, steps: seq<Step>, i: nat, o: Path)
    requires IsRun(states, steps) && i < |states| && o in states[i].recorded && states[i].recorded[o] == Restored
    ensures o in states[i].dependencies <==> o in states[0].dependencies
    ensures o in states[i].dependencies ==> states[i].dependencies[o] == states[0].dependencies[o]
  {
    hide Next, Enabled;
    if i > 0 {
      assert Enabled(states[i - 1], steps[i - 1]) && states[i - 1 + 1] == Next(states[i - 1], steps[i - 1]);
      StepsReads(states[i - 1], steps[i - 1], o);
      RestoredReads(states, steps, i - 1, o);
    }
  }

  /** What an output that is up to date serves comes of a build that read just what is recorded, so a change of that reaches it. */
  lemma FreshServesWhatItRead(states: seq<Tree>, steps: seq<Step>, i: nat, o: Path) returns (j: nat)
    requires IsRun(states, steps) && i < |states|
    requires o in states[i].commands && o !in states[i].stale && o !in states[i].inFlight
    requires o in states[i].served && states[i].served[o].Built?
    ensures j < i && o in states[i].dependencies
    ensures NotesReads(states[j], steps[j], o, states[i].served[o].attempt, states[i].dependencies[o])
  {
    NothingStaleIsServedAsFresh(states, steps, i, o);
    j := ReadsForCause(states, steps, i, o);
  }
}
