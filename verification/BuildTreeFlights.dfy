/** When a build of an output begins, and when one is called for, step by step and over runs. */
module BuildTreeFlights {
  import opened Paths
  import opened Wrappers
  import opened Manifest
  import opened Expand
  import opened BuildTree
  import opened BuildTreeInvariant
  import opened BuildTreeLaw

  /** A build of `o` begins: for an open, an eager rebuild, or, as one settles, a change or an open that came meanwhile. */
  predicate Begins(t: Tree, step: Step, o: Path) {
    o in t.commands &&
    match step
    case Open(output, _) => output == o && o !in t.inFlight && (o in t.stale || t.commands[o].action == Action.Tracing)
    case Start(output, _) => output == o && o !in t.inFlight && o in t.stale
    case Settle(a, ok, canceled, _, _) =>
      && a in t.underWay && t.underWay[a].output == o
      && (AttemptsAt(t, o).next.Some? || (o in t.stale && o in t.materialized && (ok || !canceled)))
    case _ => false
  }

  predicate Settles(t: Tree, step: Step, o: Path) {
    step.Settle? && step.a in t.underWay && t.underWay[step.a].output == o
  }

  /** `o` is called for again: invalidated, newly declared, or its build failed. */
  ghost predicate Calls(t: Tree, step: Step, o: Path) {
    match step
    case Invalidate(from, _) => o in Affected(t, from)
    case ApplyRules(commands, _, _) => o in commands && o !in t.commands
    case Settle(_, ok, _, _, _) => !ok && o in t.commands && Settles(t, step, o)
    case _ => false
  }

  predicate Stays(step: Step, t: Tree, o: Path) {
    o in t.commands && (step.ApplyRules? ==> o in step.commands)
  }

  /** When an output is being built, is to be, and counts as opened. */
  ghost predicate FlightGoes(t: Tree, step: Step, u: Tree, o: Path) {
    && (o in u.inFlight <==> Begins(t, step, o) || (o in t.inFlight && !Settles(t, step, o)))
    && (o in u.stale <==> !Begins(t, step, o) && (Calls(t, step, o) || (o in t.stale && Stays(step, t, o))))
    && (o in u.materialized <==>
          (step.Open? && step.output == o && o in t.commands) || (step.ApplyRules? && o in step.watched)
          || (o in t.materialized && !(step.ApplyRules? && o in t.commands && o !in step.commands)))
    && (if Begins(t, step, o) then
          && AttemptsAt(u, o).current.Some? && AttemptsAt(u, o).current.value in u.claims
          && u.claims[AttemptsAt(u, o).current.value] == Claim(o, CountAt(t, o), t.commands[o])
          && AttemptsAt(u, o).next.None?
        else o in t.inFlight && !Settles(t, step, o) ==> AttemptsAt(u, o).current == AttemptsAt(t, o).current)
  }

  predicate SameFlight(t: Tree, u: Tree, o: Path) {
    && (o in u.inFlight <==> o in t.inFlight) && (o in u.stale <==> o in t.stale) && (o in u.materialized <==> o in t.materialized)
    && AttemptsAt(u, o).current == AttemptsAt(t, o).current
  }

  /** As it is once a build of `output` begins. */
  predicate BegunAt(t: Tree, u: Tree, output: Path, o: Path)
    requires output in t.commands
  {
    && (o in u.materialized <==> o in t.materialized)
    && if o != output then SameFlight(t, u, o)
       else
         && o in u.inFlight && o !in u.stale && AttemptsAt(u, o).current.Some? && AttemptsAt(u, o).current.value in u.claims
         && u.claims[AttemptsAt(u, o).current.value] == Claim(o, CountAt(t, o), t.commands[o]) && AttemptsAt(u, o).next.None?
  }

  lemma ClaimFlight(t: Tree, output: Path, made: AttemptId, o: Path)
    requires output in t.commands
    ensures BegunAt(t, Claimed(t, output, made), output, o)
  {
  }

  lemma StepsFlight(t: Tree, step: Step, o: Path)
    requires Waiters(t) && Enabled(t, step)
    ensures FlightGoes(t, step, Next(t, step), o)
  {
    StaleIsDeclared(t);
    hide Waiters, AfterOpen, AfterSettle, AfterRecord, AfterWrite, AfterRules, AfterInvalidate, Claimed, AfterStore, AfterForget, FlightGoes, Affected;
    match step
    case Open(output, made) => OpenFlight(t, output, made, o);
    case Start(output, made) => StartFlight(t, output, made, o);
    case Settle(a, ok, canceled, inputs, made) => SettleFlight(t, a, ok, canceled, inputs, made, o);
    case Invalidate(from, id) => InvalidateFlight(t, from, id, o);
    case ApplyRules(commands, watched, id) => RulesFlight(t, commands, watched, id, o);
    case _ => RestFlight(t, step, o);
  }

  lemma RestFlight(t: Tree, step: Step, o: Path)
    requires Enabled(t, step) && (step.Record? || step.Write? || step.Release? || step.Check? || step.Store? || step.Forget?)
    requires o in t.stale ==> o in t.commands
    ensures FlightGoes(t, step, Next(t, step), o)
  {
    hide Raised;
  }

  lemma InvalidateFlight(t: Tree, from: seq<Path>, id: int, o: Path)
    requires Enabled(t, Step.Invalidate(from, id)) && (o in t.stale ==> o in t.commands)
    ensures FlightGoes(t, Step.Invalidate(from, id), AfterInvalidate(t, from, id), o)
  {
    hide Affected, Bump;
  }

  lemma RulesFlight(t: Tree, commands: map<Path, Command>, watched: set<Path>, id: int, o: Path)
    requires Enabled(t, Step.ApplyRules(commands, watched, id)) && (o in t.stale ==> o in t.commands)
    ensures FlightGoes(t, Step.ApplyRules(commands, watched, id), AfterRules(t, commands, watched, id), o)
  {
    hide Bump;
  }

  lemma StartFlight(t: Tree, output: Path, made: AttemptId, o: Path)
    requires Enabled(t, Step.Start(output, made)) && (o in t.stale ==> o in t.commands)
    ensures FlightGoes(t, Step.Start(output, made), Next(t, Step.Start(output, made)), o)
  {
    hide Claimed;
    if Claimable(t, output) {
      ClaimFlight(t, output, made, o);
    }
  }

  lemma OpenedFlight(t: Tree, output: Path, o: Path)
    requires output in t.commands
    ensures var u := Opened(t, output);
      && u.commands == t.commands && u.invalidations == t.invalidations && u.inFlight == t.inFlight
      && (o in u.stale <==> o in t.stale || (o == output && t.commands[output].action == Action.Tracing && output !in t.inFlight))
      && (o in u.materialized <==> o in t.materialized || o == output)
      && AttemptsAt(u, o) == AttemptsAt(t, o)
  {
  }

  lemma NextFlight(t: Tree, output: Path, made: AttemptId, o: Path)
    ensures SameFlight(t, WithNext(t, output, made), o)
  {
  }

  lemma OpenFlight(t: Tree, output: Path, made: AttemptId, o: Path)
    requires Enabled(t, Step.Open(output, made)) && (o in t.stale ==> o in t.commands)
    ensures FlightGoes(t, Step.Open(output, made), AfterOpen(t, output, made), o)
  {
    if output in t.commands {
      hide Opened, Claimed, WithNext, AfterOpen, AttemptsAt;
      OpenIs(t, output, made);
      OpenedFlight(t, output, o);
      OpenedFlight(t, output, output);
      NextFlight(Opened(t, output), output, made, o);
      ClaimFlight(Opened(t, output), output, made, o);
    }
  }

  lemma SettledFlight(t: Tree, a: AttemptId, ok: bool, inputs: seq<Path>, o: Path)
    requires a in t.underWay
    ensures var output := t.underWay[a].output;
      var v := Settled(t, a, ok, inputs);
      && v.commands == t.commands && v.invalidations == t.invalidations
      && (o in v.inFlight <==> o in t.inFlight && o != output)
      && (o in v.stale <==> o in t.stale || (o == output && !ok))
      && (o in v.materialized <==> o in t.materialized) && AttemptsAt(v, o) == AttemptsAt(t, o)
  {
  }

  lemma OrphanedFlight(t: Tree, a: AttemptId, ok: bool, inputs: seq<Path>, o: Path)
    requires a in t.underWay
    ensures var output := t.underWay[a].output;
      var v := Orphaned(Settling(t, a, ok, inputs), output);
      && (o in v.inFlight <==> o in t.inFlight && o != output) && (o in v.stale <==> o in t.stale)
      && (o in v.materialized <==> o in t.materialized) && (o != output ==> AttemptsAt(v, o) == AttemptsAt(t, o))
  {
  }

  lemma SettleFlight(t: Tree, a: AttemptId, ok: bool, canceled: bool, inputs: seq<Path>, made: AttemptId, o: Path)
    requires Enabled(t, Settle(a, ok, canceled, inputs, made)) && (o in t.stale ==> o in t.commands)
    requires AttemptsAt(t, t.underWay[a].output).next.Some? && t.underWay[a].output in t.commands ==> t.underWay[a].output in t.stale
    ensures FlightGoes(t, Settle(a, ok, canceled, inputs, made), AfterSettle(t, a, ok, canceled, inputs, made), o)
  {
    hide Settling, Settled, Orphaned, AfterSettle, Claimed, AttemptsAt;
    var output := t.underWay[a].output;
    SettleIs(t, a, ok, canceled, inputs, made);
    if output in t.commands {
      SettledFlight(t, a, ok, inputs, o);
      SettledFlight(t, a, ok, inputs, output);
      ClaimFlight(Settled(t, a, ok, inputs), output, made, o);
    } else {
      OrphanedFlight(t, a, ok, inputs, o);
    }
  }

  /** What was opened counts as opened for as long as it is declared. */
  lemma {:induction false} OpenedStays(states: seq<Tree>, steps: seq<Step>, j: nat, i: nat, o: Path)
    requires IsRun(states, steps) && j < i < |states| && steps[j].Open? && steps[j].output == o
    requires forall k :: j <= k <= i ==> o in states[k].commands
    ensures o in states[i].materialized
    decreases i
  {
    hide Next, Enabled, Inv;
    RunKeeps(states, steps, i - 1);
    assert Enabled(states[i - 1], steps[i - 1]) && states[i - 1 + 1] == Next(states[i - 1], steps[i - 1]);
    StepsFlightOf(states[i - 1], steps[i - 1], o);
    if i > j + 1 {
      OpenedStays(states, steps, j, i - 1, o);
      RulesAre(states[i - 1], steps[i - 1]);
    }
  }

  lemma RulesAre(t: Tree, step: Step)
    requires Enabled(t, step)
    ensures step.ApplyRules? ==> Next(t, step).commands == step.commands
    ensures !step.ApplyRules? ==> Next(t, step).commands == t.commands
  {
    if !step.ApplyRules? {
      StepLeaves(t, step);
    }
    hide AfterOpen, AfterSettle, AfterRecord, AfterWrite, AfterInvalidate, Claimed, AfterStore, AfterForget;
  }

  lemma StepsFlightOf(t: Tree, step: Step, o: Path)
    requires Inv(t) && Enabled(t, step)
    ensures FlightGoes(t, step, Next(t, step), o)
  {
    hide Next, Enabled;
    StepsFlight(t, step, o);
  }

  /** What is invalidated while it is built is built again at once, if it was opened and the build was not stopped. */
  lemma RebuiltAtOnce(states: seq<Tree>, steps: seq<Step>, j: nat, i: nat, o: Path)
    requires IsRun(states, steps) && j < i < |steps| && steps[j].Open? && steps[j].output == o
    requires forall k :: j <= k <= i ==> o in states[k].commands
    requires Settles(states[i], steps[i], o) && (steps[i].ok || !steps[i].canceled)
    requires steps[i].a in states[i].claims && states[i].claims[steps[i].a].count < CountAt(states[i], o)
    ensures var u := states[i + 1];
      && o in u.inFlight && AttemptsAt(u, o).current.Some? && AttemptsAt(u, o).current.value in u.claims
      && u.claims[AttemptsAt(u, o).current.value] == Claim(o, CountAt(states[i], o), states[i].commands[o])
  {
    RunKeeps(states, steps, i);
    OpenedStays(states, steps, j, i, o);
    StepsFlightOf(states[i], steps[i], o);
    assert states[i + 1] == Next(states[i], steps[i]);
    SettlesItsClaim(states[i], steps[i].a, o);
    hide IsRun, Inv, Next;
  }

  /** The build that settles is the one its output was claimed for last; nothing stale is the count of its claim. */
  lemma SettlesItsClaim(t: Tree, a: AttemptId, o: Path)
    requires Inv(t) && a in t.underWay && t.underWay[a].output == o
    ensures o in t.inFlight && AttemptsAt(t, o).current == Some(a)
    ensures a in t.claims && t.claims[a].output == o && t.claims[a].count == AttemptsAt(t, o).claim
    ensures o in t.commands && t.claims[a].count != CountAt(t, o) ==> o in t.stale
  {
    assert AttemptOk(t, a) && FreshOk(t, o);
  }

  /** What is being built is called for again only by what has invalidated it since its claim. */
  ghost predicate CalledForCause(t: Tree, o: Path) {
    o in t.inFlight && o in t.stale ==>
      && AttemptsAt(t, o).current.Some? && AttemptsAt(t, o).current.value in t.claims
      && t.claims[AttemptsAt(t, o).current.value].count < CountAt(t, o)
  }

  lemma StepKeepsCause(t: Tree, step: Step, o: Path)
    requires Inv(t) && Enabled(t, step) && CalledForCause(t, o)
    ensures CalledForCause(Next(t, step), o)
  {
    var u := Next(t, step);
    StepsFlightOf(t, step, o);
    CountGrows(t, step, o);
    if o in u.inFlight && o in u.stale {
      assert o in t.inFlight && !Begins(t, step, o) && !Settles(t, step, o);
      CurrentIsClaimed(t, o);
      var a: AttemptId := AttemptsAt(t, o).current.value;
      StepKeepsClaims(t, step, a);
      assert ClaimOk(t, a) by { assert Cached(t); }
      if step.Invalidate? {
        InvalidationCounts(t, step.from, step.id, o);
      }
    }
    hide Inv, Next, Enabled, Affected;
  }

  lemma InvalidationCounts(t: Tree, from: seq<Path>, id: int, o: Path)
    requires Enabled(t, Step.Invalidate(from, id))
    ensures o in Affected(t, from) ==> CountAt(Next(t, Step.Invalidate(from, id)), o) == CountAt(t, o) + 1
  {
    hide Affected;
  }

  lemma {:induction false} RunKeepsCause(states: seq<Tree>, steps: seq<Step>, i: nat, o: Path)
    requires IsRun(states, steps) && i < |states|
    ensures CalledForCause(states[i], o)
  {
    hide Next, Enabled, Inv, CalledForCause;
    if i == 0 {
      InitCause(states[0], o);
    } else {
      RunKeeps(states, steps, i - 1);
      RunKeepsCause(states, steps, i - 1, o);
      assert Enabled(states[i - 1], steps[i - 1]) && states[i - 1 + 1] == Next(states[i - 1], steps[i - 1]);
      StepKeepsCause(states[i - 1], steps[i - 1], o);
    }
  }

  lemma InitCause(t: Tree, o: Path)
    requires IsInit(t)
    ensures CalledForCause(t, o)
  {
  }

  /** A build that settles is followed by another only if something invalidated its output since its claim. */
  lemma RebuiltForCause(states: seq<Tree>, steps: seq<Step>, i: nat, o: Path)
    requires IsRun(states, steps) && i < |steps| && Settles(states[i], steps[i], o) && o in states[i + 1].inFlight
    ensures o in states[i].commands && steps[i].a in states[i].claims && states[i].claims[steps[i].a].count < CountAt(states[i], o)
  {
    RunKeeps(states, steps, i);
    RunKeepsCause(states, steps, i, o);
    StepsFlightOf(states[i], steps[i], o);
    assert states[i + 1] == Next(states[i], steps[i]);
    SettlesItsClaim(states[i], steps[i].a, o);
    assert NextOk(states[i], o);
    hide IsRun, Inv, Next;
  }
}
