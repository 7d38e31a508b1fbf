/** The hashes kept for the builds that read an output, and the content they are of, through every step of the tree. */
module ContentHashes {
  import opened Paths
  import opened Wrappers
  import opened Expand
  import opened CacheRecords
  import opened BuildTree
  import opened BuildTreeInvariant

  /** What was ever served: the output of an attempt, or, at first, what the cache held. */
  datatype Contents = Contents(built: AttemptId -> Bytes, restored: Path -> Bytes, hash: Bytes -> Hash)

  /** Where an output's content comes from: the build writing it, or what is served. */
  function ContentFrom(t: Tree, o: Path): Origin
    requires o in t.served
  {
    if t.layout.Some? && t.layout.value in t.underWay && t.underWay[t.layout.value].output == o then Built(t.layout.value)
    else t.served[o]
  }

  function ContentOf(c: Contents, o: Path, from: Origin): Bytes {
    match from
    case Placeholder => []
    case Restored => c.restored(o)
    case Built(a) => c.built(a)
  }

  /** What is declared and has content has the hash of that content, and nothing else has one. */
  predicate HashOk(t: Tree, c: Contents, hashes: map<Path, Hash>, o: Path) {
    && (o in hashes <==> o in t.commands && o in t.served && ContentFrom(t, o) != Placeholder)
    && (o in hashes ==> o in t.served && hashes[o] == c.hash(ContentOf(c, o, ContentFrom(t, o))))
  }

  ghost predicate HashesOk(t: Tree, c: Contents, hashes: map<Path, Hash>) {
    forall o :: HashOk(t, c, hashes, o)
  }

  /** What a step of the tree does to them: a build that comes back adds its own, and rules that go take theirs along. */
  function HashesAfter(t: Tree, c: Contents, hashes: map<Path, Hash>, step: Step): map<Path, Hash> {
    match step
    case Record(a, _) =>
      if a in t.underWay && t.underWay[a].output in t.commands then hashes[t.underWay[a].output := c.hash(c.built(a))] else hashes
    case ApplyRules(commands, _, _) => hashes - (t.commands.Keys - commands.Keys)
    case _ => hashes
  }

  lemma InitHashes(t: Tree, c: Contents, hashes: map<Path, Hash>)
    requires IsInit(t) && forall o :: o in hashes <==> o in t.served && t.served[o] == Restored
    requires forall o :: o in hashes ==> hashes[o] == c.hash(c.restored(o))
    ensures HashesOk(t, c, hashes)
  {
    forall o ensures HashOk(t, c, hashes, o) {
    }
  }

  // ---- Steps -----------------------------------------------------------------------------------

  /** Neither what is served, nor what is being written, nor the rules change. */
  predicate SameContent(t: Tree, u: Tree) {
    && u.commands == t.commands && u.served == t.served && u.layout == t.layout
    && (t.layout.Some? ==> t.layout.value in t.underWay && t.layout.value in u.underWay
                           && u.underWay[t.layout.value].output == t.underWay[t.layout.value].output)
  }

  lemma SameContentKeeps(t: Tree, u: Tree, c: Contents, hashes: map<Path, Hash>)
    requires HashesOk(t, c, hashes) && SameContent(t, u)
    ensures HashesOk(u, c, hashes)
  {
    forall o ensures HashOk(u, c, hashes, o) {
      assert HashOk(t, c, hashes, o);
    }
  }

  lemma ClaimSame(t: Tree, output: Path, made: AttemptId)
    requires WaitersBut(t, Some(output)) && Claimable(t, output) && made !in t.created
    ensures SameContent(t, Claimed(t, output, made))
  {
    var a := if AttemptsAt(t, output).next.Some? then AttemptsAt(t, output).next.value else made;
    assert AttemptOk(t, a);
    assert AttemptsAt(t, output).next.Some? ==> IsNext(t, a);
  }

  lemma OpenSame(t: Tree, output: Path, made: AttemptId)
    requires Waiters(t) && made !in t.created
    ensures SameContent(t, AfterOpen(t, output, made))
  {
    assert LayoutOk(t);
    if output in t.commands {
      var u := Opened(t, output);
      OpenedKeepsWaiters(t, output);
      OpenedSame(t, output);
      NextSame(u, output, made);
      hide Waiters, WaitersBut, Claimed, Opened, WithNext, AttemptsAt;
      if output !in u.inFlight && output in u.stale {
        WaitersAreWaitersBut(u, output);
        ClaimSame(u, output, made);
      }
    }
  }

  lemma OpenedSame(t: Tree, output: Path)
    requires LayoutOk(t) && output in t.commands
    ensures var u := Opened(t, output);
      SameContent(t, u) && u.created == t.created && u.inFlight == t.inFlight && u.commands == t.commands && LayoutOk(u)
  {
    hide AttemptsAt;
  }

  lemma NextSame(t: Tree, output: Path, made: AttemptId)
    requires LayoutOk(t)
    ensures SameContent(t, WithNext(t, output, made))
  {
    hide AttemptsAt;
  }

  lemma SettleSame(t: Tree, a: AttemptId, ok: bool, canceled: bool, inputs: seq<Path>, made: AttemptId)
    requires Waiters(t) && Enabled(t, Settle(a, ok, canceled, inputs, made))
    ensures SameContent(t, AfterSettle(t, a, ok, canceled, inputs, made))
  {
    var output := t.underWay[a].output;
    var u := Settling(t, a, ok, inputs);
    var v := u.(stale := if ok then u.stale else u.stale + {output});
    assert LayoutOk(t);
    SettlingSame(t, a, ok, inputs);
    if output in t.commands && Rebuilds(t, output, ok, canceled) {
      SettlingKeepsWaiters(t, a, ok, inputs);
      RebuildIsClaimable(t, a, ok, canceled, inputs);
      hide WaitersBut;
      StalerKeepsWaiters(u, v, output);
      ClaimSame(v, output, made);
    }
    hide Waiters, WaitersBut, Claimed, Settling, Rebuilds, AttemptsAt;
  }

  lemma SettlingSame(t: Tree, a: AttemptId, ok: bool, inputs: seq<Path>)
    requires LayoutOk(t) && a in t.underWay && t.underWay[a].stage != Stage.Recorded
    ensures SameContent(t, Settling(t, a, ok, inputs)) && Settling(t, a, ok, inputs).created == t.created
  {
  }

  lemma RecordKeepsHashes(t: Tree, c: Contents, hashes: map<Path, Hash>, a: AttemptId, inputs: seq<Path>)
    requires HashesOk(t, c, hashes) && Freshness(t) && Enabled(t, Step.Record(a, inputs))
    ensures HashesOk(AfterRecord(t, a, inputs), c, HashesAfter(t, c, hashes, Step.Record(a, inputs)))
  {
    var u := AfterRecord(t, a, inputs);
    forall o ensures HashOk(u, c, HashesAfter(t, c, hashes, Step.Record(a, inputs)), o) {
      assert HashOk(t, c, hashes, o) && FreshOk(t, o);
    }
  }

  lemma WriteKeepsHashes(t: Tree, c: Contents, hashes: map<Path, Hash>, a: AttemptId)
    requires HashesOk(t, c, hashes) && Freshness(t) && Enabled(t, Write(a))
    ensures HashesOk(AfterWrite(t, a), c, hashes)
  {
    forall o ensures HashOk(AfterWrite(t, a), c, hashes, o) {
      assert HashOk(t, c, hashes, o) && FreshOk(t, o);
    }
  }

  lemma RulesKeepHashes(t: Tree, c: Contents, hashes: map<Path, Hash>, commands: map<Path, Command>, watched: set<Path>, id: int)
    requires HashesOk(t, c, hashes) && Freshness(t) && Enabled(t, ApplyRules(commands, watched, id))
    ensures HashesOk(AfterRules(t, commands, watched, id), c, HashesAfter(t, c, hashes, ApplyRules(commands, watched, id)))
  {
    var u := AfterRules(t, commands, watched, id);
    forall o ensures HashOk(u, c, HashesAfter(t, c, hashes, ApplyRules(commands, watched, id)), o) {
      assert HashOk(t, c, hashes, o) && FreshOk(t, o);
    }
  }

  /** Whatever step is taken, each hash is that of the content its output has, or is about to have. */
  lemma StepKeepsHashes(t: Tree, c: Contents, hashes: map<Path, Hash>, step: Step)
    requires Inv(t) && Enabled(t, step) && HashesOk(t, c, hashes)
    ensures HashesOk(Next(t, step), c, HashesAfter(t, c, hashes, step))
  {
    assert LayoutOk(t);
    hide Waiters, WaitersBut, Freshness, Cached, HashesOk, AfterOpen, AfterRecord, AfterSettle, AfterRules, AfterWrite, Claimed, Affected, Bump;
    match step
    case Open(output, made) => OpenSame(t, output, made);
      SameContentKeeps(t, Next(t, step), c, hashes);
    case Start(output, made) =>
      if Claimable(t, output) {
        WaitersAreWaitersBut(t, output);
        ClaimSame(t, output, made);
      }
      SameContentKeeps(t, Next(t, step), c, hashes);
    case Record(a, inputs) => RecordKeepsHashes(t, c, hashes, a, inputs);
    case Write(a) => WriteKeepsHashes(t, c, hashes, a);
    case Settle(a, ok, canceled, inputs, made) =>
      SettleSame(t, a, ok, canceled, inputs, made);
      SameContentKeeps(t, Next(t, step), c, hashes);
    case ApplyRules(commands, watched, id) => RulesKeepHashes(t, c, hashes, commands, watched, id);
    case _ => SameContentKeeps(t, Next(t, step), c, hashes);
  }

  /** A run, and the hashes kept along it. */
  ghost predicate IsHashed(states: seq<Tree>, steps: seq<Step>, c: Contents, hashes: seq<map<Path, Hash>>) {
    && IsRun(states, steps) && |hashes| == |states| && HashesOk(states[0], c, hashes[0])
    && forall i :: 0 <= i < |steps| ==> hashes[i + 1] == HashesAfter(states[i], c, hashes[i], steps[i])
  }

  lemma {:induction false} RunKeepsHashes(states: seq<Tree>, steps: seq<Step>, c: Contents, hashes: seq<map<Path, Hash>>, i: nat)
    requires IsHashed(states, steps, c, hashes) && i < |states|
    ensures HashesOk(states[i], c, hashes[i])
  {
    hide HashesOk, HashesAfter, Next, Enabled, Inv;
    if i > 0 {
      RunKeepsHashes(states, steps, c, hashes, i - 1);
      RunKeeps(states, steps, i - 1);
      assert states[i - 1 + 1] == Next(states[i - 1], steps[i - 1]) && hashes[i - 1 + 1] == HashesAfter(states[i - 1], c, hashes[i - 1], steps[i - 1]);
      StepKeepsHashes(states[i - 1], c, hashes[i - 1], steps[i - 1]);
    }
  }

  /** With nothing being written, what is kept for a declared output is the hash of the bytes it serves, if it was ever built. */
  lemma HashesAreOfServed(states: seq<Tree>, steps: seq<Step>, c: Contents, hashes: seq<map<Path, Hash>>, i: nat, o: Path)
    requires IsHashed(states, steps, c, hashes) && i < |states| && states[i].layout.None?
    ensures o in hashes[i] <==> o in states[i].commands && o in states[i].served && states[i].served[o] != Placeholder
    ensures o in hashes[i] ==> hashes[i][o] == c.hash(ContentOf(c, o, states[i].served[o]))
  {
    RunKeepsHashes(states, steps, c, hashes, i);
    hide IsHashed;
    assert HashOk(states[i], c, hashes[i], o);
  }
}
