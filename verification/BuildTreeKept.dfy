/** Which builds succeed, are served and are kept, and for what cause. */
module BuildTreeKept {
  import opened Paths
  import opened Wrappers
  import opened Manifest
  import opened Expand
  import opened BuildTree
  import opened BuildTreeInvariant
  import opened BuildTreeLaw

  /** The builds that succeeded, what is kept of builds, what a keep has found, and what is served. */
  predicate KeptGoes(t: Tree, step: Step, u: Tree, a: AttemptId) {
    && (a in u.succeeded <==> a in t.succeeded || (step.Settle? && step.a == a && step.ok))
    && (if step.Record? && step.a == a && a in t.underWay && Keepable(t, t.underWay[a].output) then
          var o := t.underWay[a].output;
          a in u.keeps && u.keeps[a] == Claim(o, AttemptsAt(t, o).claim, t.commands[o])
        else if step.Store? && step.a == a then a !in u.keeps
        else (a in u.keeps <==> a in t.keeps) && (a in t.keeps ==> u.keeps[a] == t.keeps[a]))
  }

  /** A trace is never kept. */
  predicate Keepable(t: Tree, o: Path) {
    o in t.commands && t.commands[o].action != Action.Tracing
  }

  predicate SameKept(t: Tree, u: Tree) {
    u.succeeded == t.succeeded && u.keeps == t.keeps && u.keeping == t.keeping && u.cache == t.cache && u.served == t.served
  }

  predicate KeepingGoes(t: Tree, step: Step, u: Tree) {
    match step
    case Check(a, known) => a in t.keeps && u.keeping == Some(Keeping(a, known && CountAt(t, t.keeps[a].output) == t.keeps[a].count))
    case Store(_, _, _) => u.keeping.None?
    case _ => u.keeping == t.keeping
  }

  predicate ServedGoes(t: Tree, step: Step, u: Tree, o: Path) {
    if step.Write? && step.a in t.underWay && t.underWay[step.a].output == o && o in t.commands then
      o in u.served && u.served[o] == Built(step.a)
    else if step.ApplyRules? then
      (o in u.served <==> o in step.commands)
      && (o in step.commands ==> u.served[o] == if o in t.commands && o in t.served then t.served[o] else Placeholder)
    else (o in u.served <==> o in t.served) && (o in t.served ==> u.served[o] == t.served[o])
  }

  lemma StepsKept(t: Tree, step: Step, a: AttemptId, o: Path)
    requires Enabled(t, step)
    ensures KeptGoes(t, step, Next(t, step), a) && KeepingGoes(t, step, Next(t, step)) && ServedGoes(t, step, Next(t, step), o)
  {
    hide AfterOpen, AfterSettle, AfterRules, AfterInvalidate, AfterForget, Claimed, KeptGoes, KeepingGoes, ServedGoes;
    match step
    case Open(output, made) =>
      OpenKept(t, output, made);
      SameKeptGoes(t, step, Next(t, step), a, o);
    case Start(output, made) =>
      if Claimable(t, output) {
        ClaimKept(t, output, made);
      }
      SameKeptGoes(t, step, Next(t, step), a, o);
    case Settle(b, ok, canceled, inputs, made) =>
      SettleKept(t, b, ok, canceled, inputs, made);
      SettledKeptGoes(t, step, Next(t, step), a, o);
    case Invalidate(from, id) =>
      InvalidateKept(t, from, id);
      SameKeptGoes(t, step, Next(t, step), a, o);
    case Forget(id, ok) =>
      ForgetKept(t, id, ok);
      SameKeptGoes(t, step, Next(t, step), a, o);
    case ApplyRules(commands, watched, id) =>
      RulesKept(t, commands, watched, id);
      RulesKeptGoes(t, step, Next(t, step), a, o);
    case _ => RestKept(t, step, a, o);
  }

  lemma RestKept(t: Tree, step: Step, a: AttemptId, o: Path)
    requires Enabled(t, step) && (step.Record? || step.Write? || step.Release? || step.Check? || step.Store?)
    ensures KeptGoes(t, step, Next(t, step), a) && KeepingGoes(t, step, Next(t, step)) && ServedGoes(t, step, Next(t, step), o)
  {
  }

  lemma SameKeptGoes(t: Tree, step: Step, u: Tree, a: AttemptId, o: Path)
    requires step.Open? || step.Start? || step.Invalidate? || step.Forget?
    requires u.succeeded == t.succeeded && u.keeps == t.keeps && u.keeping == t.keeping && u.served == t.served
    ensures KeptGoes(t, step, u, a) && KeepingGoes(t, step, u) && ServedGoes(t, step, u, o)
  {
  }

  lemma SettledKeptGoes(t: Tree, step: Step, u: Tree, a: AttemptId, o: Path)
    requires step.Settle? && SameKept(t.(succeeded := if step.ok then t.succeeded + {step.a} else t.succeeded), u)
    ensures KeptGoes(t, step, u, a) && KeepingGoes(t, step, u) && ServedGoes(t, step, u, o)
  {
  }

  lemma RulesKeptGoes(t: Tree, step: Step, u: Tree, a: AttemptId, o: Path)
    requires step.ApplyRules? && SameKept(t.(served := u.served), u)
    requires u.served == map q | q in step.commands :: if q in t.commands && q in t.served then t.served[q] else Placeholder
    ensures KeptGoes(t, step, u, a) && KeepingGoes(t, step, u) && ServedGoes(t, step, u, o)
  {
  }

  lemma ClaimKept(t: Tree, output: Path, made: AttemptId)
    requires output in t.commands
    ensures SameKept(t, Claimed(t, output, made))
  {
  }

  lemma OpenKept(t: Tree, output: Path, made: AttemptId)
    ensures SameKept(t, AfterOpen(t, output, made))
  {
    if output in t.commands {
      hide Opened, Claimed, WithNext, AfterOpen, AttemptsAt;
      OpenIs(t, output, made);
      OpenedKept(t, output, made);
      ClaimKept(Opened(t, output), output, made);
    }
  }

  lemma OpenedKept(t: Tree, output: Path, made: AttemptId)
    requires output in t.commands
    ensures SameKept(t, Opened(t, output)) && SameKept(t, WithNext(Opened(t, output), output, made)) && Opened(t, output).commands == t.commands
  {
  }

  lemma SettleKept(t: Tree, b: AttemptId, ok: bool, canceled: bool, inputs: seq<Path>, made: AttemptId)
    requires b in t.underWay
    ensures SameKept(t.(succeeded := if ok then t.succeeded + {b} else t.succeeded), AfterSettle(t, b, ok, canceled, inputs, made))
  {
    hide Settling, Settled, Orphaned, AfterSettle, Claimed, AttemptsAt, Rebuilds;
    var output := t.underWay[b].output;
    SettleIs(t, b, ok, canceled, inputs, made);
    SettledKept(t, b, ok, inputs);
    if output in t.commands {
      ClaimKept(Settled(t, b, ok, inputs), output, made);
    }
  }

  lemma SettledKept(t: Tree, b: AttemptId, ok: bool, inputs: seq<Path>)
    requires b in t.underWay
    ensures var was := t.(succeeded := if ok then t.succeeded + {b} else t.succeeded);
      && SameKept(was, Settled(t, b, ok, inputs)) && Settled(t, b, ok, inputs).commands == t.commands
      && SameKept(was, Orphaned(Settling(t, b, ok, inputs), t.underWay[b].output))
  {
  }

  lemma InvalidateKept(t: Tree, from: seq<Path>, id: int)
    ensures SameKept(t, AfterInvalidate(t, from, id))
  {
    hide Affected;
  }

  lemma ForgetKept(t: Tree, id: int, ok: bool)
    requires id in t.forgets
    ensures var u := AfterForget(t, id, ok);
      u.succeeded == t.succeeded && u.keeps == t.keeps && u.keeping == t.keeping && u.served == t.served
  {
    hide Raised;
  }

  lemma RulesKept(t: Tree, commands: map<Path, Command>, watched: set<Path>, id: int)
    ensures var u := AfterRules(t, commands, watched, id);
      && SameKept(t.(served := u.served), u)
      && u.served == map o | o in commands :: if o in t.commands && o in t.served then t.served[o] else Placeholder
  {
    hide Bump;
  }

  /** A build counts as a success just if it settled as one, its bytes written. */
  lemma {:induction false} SucceededForCause(states: seq<Tree>, steps: seq<Step>, i: nat, a: AttemptId) returns (j: nat)
    requires IsRun(states, steps) && i < |states| && a in states[i].succeeded
    ensures j < i && steps[j].Settle? && steps[j].a == a && steps[j].ok
    ensures a in states[j].underWay && states[j].underWay[a].stage == Stage.Written
  {
    hide Next, Enabled;
    assert i > 0;
    assert Enabled(states[i - 1], steps[i - 1]) && states[i - 1 + 1] == Next(states[i - 1], steps[i - 1]);
    StepsKept(states[i - 1], steps[i - 1], a, []);
    if a in states[i - 1].succeeded {
      j := SucceededForCause(states, steps, i - 1, a);
    } else {
      j := i - 1;
      SettlesWritten(states[j], steps[j]);
    }
  }

  lemma SettlesWritten(t: Tree, step: Step)
    requires Enabled(t, step) && step.Settle? && step.ok
    ensures step.a in t.underWay && t.underWay[step.a].stage == Stage.Written
  {
  }

  /** Whatever a build is served as was written by it. */
  lemma {:induction false} ServedForCause(states: seq<Tree>, steps: seq<Step>, i: nat, o: Path) returns (j: nat)
    requires IsRun(states, steps) && i < |states| && o in states[i].served && states[i].served[o].Built?
    ensures j < i && steps[j] == Write(states[i].served[o].attempt) && o in states[j].commands
    ensures steps[j].a in states[j].underWay && states[j].underWay[steps[j].a].output == o
  {
    hide Next, Enabled;
    assert i > 0;
    assert Enabled(states[i - 1], steps[i - 1]) && states[i - 1 + 1] == Next(states[i - 1], steps[i - 1]);
    StepsKept(states[i - 1], steps[i - 1], 0, o);
    if o in states[i - 1].served && states[i - 1].served[o] == states[i].served[o] {
      j := ServedForCause(states, steps, i - 1, o);
    } else {
      j := i - 1;
    }
  }

  /** What is kept, and so what is recorded, is never a trace. */
  lemma TracesAreNotKept(states: seq<Tree>, steps: seq<Step>, i: nat, o: Path)
    requires IsRun(states, steps) && i < |states| && o in states[i].cache && states[i].cache[o].Of?
    ensures states[i].cache[o].command.action != Action.Tracing
  {
    KeptIsNoTrace(states, steps, i, o);
  }

  lemma {:induction false} KeptIsNoTrace(states: seq<Tree>, steps: seq<Step>, i: nat, o: Path)
    requires IsRun(states, steps) && i < |states|
    ensures forall a :: a in states[i].keeps ==> states[i].keeps[a].command.action != Action.Tracing
    ensures o in states[i].cache && states[i].cache[o].Of? ==> states[i].cache[o].command.action != Action.Tracing
  {
    hide Next, Enabled, Inv;
    if i > 0 {
      KeptIsNoTrace(states, steps, i - 1, o);
      RunKeeps(states, steps, i - 1);
      assert Enabled(states[i - 1], steps[i - 1]) && states[i - 1 + 1] == Next(states[i - 1], steps[i - 1]);
      forall a | a in states[i].keeps ensures states[i].keeps[a].command.action != Action.Tracing {
        StepsKept(states[i - 1], steps[i - 1], a, o);
      }
      if o in states[i].cache && !(o in states[i - 1].cache && states[i - 1].cache[o] == states[i].cache[o]) {
        RecordsAnew(states[i - 1], steps[i - 1], o);
      }
    }
  }

  /** Kept, and to be stored as fit: by the time it is, nothing has changed that. */
  ghost predicate Fit(t: Tree, a: AttemptId, claim: Claim) {
    a in t.keeps && t.keeps[a] == claim && t.keeping == Some(Keeping(a, true))
  }

  /** A build noted as it finished, found fit by a check, and stamped and stored without a failure, is what is recorded then. */
  lemma {:induction false} FitBuildsAreRecorded(states: seq<Tree>, steps: seq<Step>, j: nat, k: nat, i: nat, a: AttemptId)
    requires IsRun(states, steps) && j < k < i < |states| && a in states[j].underWay
    requires steps[j].Record? && steps[j].a == a && Keepable(states[j], states[j].underWay[a].output)
    requires steps[k] == Check(a, true) && CountAt(states[k], states[j].underWay[a].output) == AttemptsAt(states[j], states[j].underWay[a].output).claim
    requires forall m :: j < m < i && steps[m].Store? ==> steps[m].a != a
    requires forall m :: j < m < i && steps[m].Record? ==> steps[m].a != a
    ensures var o := states[j].underWay[a].output;
      Fit(states[i], a, Claim(o, AttemptsAt(states[j], o).claim, states[j].commands[o]))
    decreases i
  {
    hide Next, Enabled, Keepable;
    var o := states[j].underWay[a].output;
    if i == k + 1 {
      KeepStays(states, steps, j, k, a);
      assert Enabled(states[k], steps[k]) && states[k + 1] == Next(states[k], steps[k]);
      StepsKept(states[k], steps[k], a, o);
    } else {
      FitBuildsAreRecorded(states, steps, j, k, i - 1, a);
      assert Enabled(states[i - 1], steps[i - 1]) && states[i - 1 + 1] == Next(states[i - 1], steps[i - 1]);
      StepsKept(states[i - 1], steps[i - 1], a, o);
      OnlyItStores(states[i - 1], steps[i - 1], a);
    }
  }

  lemma OnlyItStores(t: Tree, step: Step, a: AttemptId)
    requires Enabled(t, step) && t.keeping.Some? && t.keeping.value.a == a
    ensures !step.Check? && (step.Store? ==> step.a == a)
  {
  }

  lemma {:induction false} KeepStays(states: seq<Tree>, steps: seq<Step>, j: nat, i: nat, a: AttemptId)
    requires IsRun(states, steps) && j < i < |states| && a in states[j].underWay
    requires steps[j].Record? && steps[j].a == a && Keepable(states[j], states[j].underWay[a].output)
    requires forall m :: j < m < i && steps[m].Store? ==> steps[m].a != a
    requires forall m :: j < m < i && steps[m].Record? ==> steps[m].a != a
    ensures var o := states[j].underWay[a].output;
      a in states[i].keeps && states[i].keeps[a] == Claim(o, AttemptsAt(states[j], o).claim, states[j].commands[o])
    decreases i
  {
    hide Next, Enabled;
    if i > j + 1 {
      KeepStays(states, steps, j, i - 1, a);
    }
    assert Enabled(states[i - 1], steps[i - 1]) && states[i - 1 + 1] == Next(states[i - 1], steps[i - 1]);
    StepsKept(states[i - 1], steps[i - 1], a, []);
  }

  lemma FitIsRecorded(t: Tree, a: AttemptId, claim: Claim)
    requires Fit(t, a, claim)
    ensures Enabled(t, Store(a, true, true))
    ensures claim.output in Next(t, Store(a, true, true)).cache && Next(t, Store(a, true, true)).cache[claim.output] == Of(a, claim.command)
  {
  }

  /** A store that does not fail leaves the record of its build, if that was found fit and stamped throughout, and otherwise
      none; seeing to an invalidation leaves none of what it reached; and nothing else changes a record. */
  predicate CacheGoes(t: Tree, step: Step, u: Tree, o: Path) {
    if step.Store? && step.ok && step.a in t.keeps && t.keeps[step.a].output == o then
      if step.stamped && t.keeping == Some(Keeping(step.a, true)) then o in u.cache && u.cache[o] == Of(step.a, t.keeps[step.a].command)
      else o !in u.cache
    else if step.Forget? && step.ok && step.id in t.forgets && o in t.forgets[step.id] then o !in u.cache
    else (o in u.cache <==> o in t.cache) && (o in t.cache ==> u.cache[o] == t.cache[o])
  }

  lemma StepsCache(t: Tree, step: Step, o: Path)
    requires Enabled(t, step)
    ensures CacheGoes(t, step, Next(t, step), o)
  {
    hide AfterOpen, AfterSettle, AfterRules, AfterInvalidate, Claimed;
    match step
    case Open(output, made) => OpenKept(t, output, made);
    case Start(output, made) =>
      if Claimable(t, output) {
        ClaimKept(t, output, made);
      }
    case Settle(b, ok, canceled, inputs, made) => SettleKept(t, b, ok, canceled, inputs, made);
    case Invalidate(from, id) => InvalidateKept(t, from, id);
    case ApplyRules(commands, watched, id) => RulesKept(t, commands, watched, id);
    case _ => hide Raised;
  }

  /** What is recorded was stored as it was found: with its output invalidated no more often than as its build was claimed, and
      what it read known, when a check looked, and stamped throughout. */
  lemma {:induction false} RecordedForCause(states: seq<Tree>, steps: seq<Step>, i: nat, o: Path) returns (k: nat, j: nat)
    requires IsRun(states, steps) && i < |states| && o in states[i].cache && states[i].cache[o].Of?
    ensures var a := states[i].cache[o].a;
      && k < j < i && steps[j] == Store(a, true, true) && steps[k] == Check(a, true)
      && a in states[k].keeps && CountAt(states[k], states[k].keeps[a].output) == states[k].keeps[a].count
  {
    hide Next, Enabled;
    assert i > 0 by {
      RestoredIfAny(states[0], o);
    }
    assert Enabled(states[i - 1], steps[i - 1]) && states[i - 1 + 1] == Next(states[i - 1], steps[i - 1]);
    StepsCache(states[i - 1], steps[i - 1], o);
    if o in states[i - 1].cache && states[i - 1].cache[o] == states[i].cache[o] {
      k, j := RecordedForCause(states, steps, i - 1, o);
    } else {
      j := i - 1;
      k := FitForCause(states, steps, i - 1, states[i].cache[o].a);
    }
  }

  lemma RestoredIfAny(t: Tree, o: Path)
    ensures IsInit(t) && o in t.cache ==> t.cache[o] == Before
  {
  }

  lemma {:induction false} FitForCause(states: seq<Tree>, steps: seq<Step>, i: nat, a: AttemptId) returns (k: nat)
    requires IsRun(states, steps) && i < |states| && states[i].keeping == Some(Keeping(a, true))
    ensures k < i && steps[k] == Check(a, true)
    ensures a in states[k].keeps && CountAt(states[k], states[k].keeps[a].output) == states[k].keeps[a].count
  {
    hide Next, Enabled;
    assert i > 0;
    assert Enabled(states[i - 1], steps[i - 1]) && states[i - 1 + 1] == Next(states[i - 1], steps[i - 1]);
    StepsKept(states[i - 1], steps[i - 1], a, []);
    if states[i - 1].keeping == Some(Keeping(a, true)) && !steps[i - 1].Check? {
      k := FitForCause(states, steps, i - 1, a);
    } else {
      k := i - 1;
    }
  }

  // ---- How far builds have got -----------------------------------------------------------------

  /** What has been claimed is under way once, and only gets further. */
  predicate StageGoes(t: Tree, u: Tree, a: AttemptId) {
    a in t.claims && a in u.underWay ==>
      && a in t.underWay && u.underWay[a].output == t.underWay[a].output
      && (u.underWay[a].stage == Launched ==> t.underWay[a].stage == Launched)
  }

  lemma ClaimStage(t: Tree, output: Path, made: AttemptId, a: AttemptId)
    requires WaitersBut(t, Some(output)) && output in t.commands && made !in t.created
    ensures StageGoes(t, Claimed(t, output, made), a)
  {
    var next := AttemptsAt(t, output).next;
    assert AttemptOk(t, a);
    if next == Some(a) {
      assert IsNext(t, a);
    }
  }

  lemma StepsStage(t: Tree, step: Step, a: AttemptId)
    requires Waiters(t) && Enabled(t, step)
    ensures StageGoes(t, Next(t, step), a)
  {
    hide WaitersBut, AfterOpen, AfterSettle, AfterRules, AfterInvalidate, AfterForget, AfterStore, Claimed;
    match step
    case Open(output, made) => OpenStage(t, output, made, a);
    case Start(output, made) =>
      if Claimable(t, output) {
        WaitersAreWaitersBut(t, output);
        ClaimStage(t, output, made, a);
      }
    case Settle(b, ok, canceled, inputs, made) => SettleStage(t, b, ok, canceled, inputs, made, a);
    case _ => RestStage(t, step, a);
  }

  lemma OpenStage(t: Tree, output: Path, made: AttemptId, a: AttemptId)
    requires Waiters(t) && made !in t.created
    ensures StageGoes(t, AfterOpen(t, output, made), a)
  {
    if output in t.commands {
      var u := Opened(t, output);
      OpenedKeepsWaiters(t, output);
      hide WaitersBut, Opened, Claimed, WithNext, AfterOpen, AttemptsAt;
      OpenIs(t, output, made);
      OpenedStage(t, output, made);
      if output !in t.inFlight && output in u.stale {
        WaitersAreWaitersBut(u, output);
        ClaimStage(u, output, made, a);
      }
    }
  }

  lemma OpenedStage(t: Tree, output: Path, made: AttemptId)
    requires output in t.commands
    ensures var u := Opened(t, output);
      && u.underWay == t.underWay && u.claims == t.claims && u.created == t.created && u.commands == t.commands
      && WithNext(u, output, made).underWay == t.underWay
  {
  }

  lemma SettleStage(t: Tree, b: AttemptId, ok: bool, canceled: bool, inputs: seq<Path>, made: AttemptId, a: AttemptId)
    requires Waiters(t) && Enabled(t, Settle(b, ok, canceled, inputs, made))
    ensures StageGoes(t, AfterSettle(t, b, ok, canceled, inputs, made), a)
  {
    var output := t.underWay[b].output;
    var v := Settled(t, b, ok, inputs);
    SettledStage(t, b, ok, inputs);
    SettleIs(t, b, ok, canceled, inputs, made);
    if output in t.commands {
      SettlingKeepsWaiters(t, b, ok, inputs);
      StalerKeepsWaiters(Settling(t, b, ok, inputs), v, output);
      hide Waiters, WaitersBut, Settling, Settled, Orphaned, AfterSettle, Claimed, AttemptsAt, Rebuilds;
      ClaimStage(v, output, made, a);
    }
    hide Waiters, WaitersBut, Settling, Settled, Orphaned, AfterSettle, Claimed, AttemptsAt, Rebuilds;
  }

  lemma SettledStage(t: Tree, b: AttemptId, ok: bool, inputs: seq<Path>)
    requires b in t.underWay
    ensures var v := Settled(t, b, ok, inputs);
      && v.underWay == t.underWay - {b} && v.claims == t.claims && v.created == t.created && v.commands == t.commands
      && Orphaned(Settling(t, b, ok, inputs), t.underWay[b].output).underWay == t.underWay - {b}
  {
  }

  lemma RestStage(t: Tree, step: Step, a: AttemptId)
    requires Enabled(t, step) && !step.Open? && !step.Start? && !step.Settle?
    ensures StageGoes(t, Next(t, step), a)
  {
    hide Affected, Bump, Raised;
  }
}
