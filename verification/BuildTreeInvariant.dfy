/** What every step of the build tree keeps: no waiter is lost, and nothing invalidated is taken for fresh. */
module BuildTreeInvariant {
  import opened Paths
  import opened Wrappers
  import opened Manifest
  import opened Expand
  import opened CacheRecords
  import opened DependencyIndex
  import opened BuildTree

  // ---- Waiters ---------------------------------------------------------------------------------

  ghost predicate IsNext(t: Tree, a: AttemptId) {
    exists o :: o in t.attempts && t.attempts[o].next == Some(a)
  }

  /** In how many places an attempt is that see to its waiters: under way, next of an output, to be released, or released. */
  ghost function Places(t: Tree, a: AttemptId): nat {
    (if a in t.underWay then 1 else 0) + (if a in t.toComplete then 1 else 0) + (if IsNext(t, a) then 1 else 0)
    + t.completions[a]
  }

  ghost predicate AttemptOk(t: Tree, a: AttemptId) {
    && Places(t, a) == (if a in t.created then 1 else 0)
    && (a in t.underWay ==> UnderWayOk(t, a, t.underWay[a].output))
    && (a in t.claims ==> a in t.created && !IsNext(t, a))
  }

  predicate UnderWayOk(t: Tree, a: AttemptId, o: Path) {
    && o in t.inFlight && o in t.attempts && t.attempts[o].current == Some(a)
    && a in t.claims && t.claims[a].output == o && t.claims[a].count == t.attempts[o].claim
  }

  /** An output being built has one build under way; its next is for a change that came meanwhile. */
  predicate FlightOk(t: Tree, o: Path) {
    && (o in t.inFlight ==>
          && o in t.attempts && t.attempts[o].current.Some?
          && t.attempts[o].current.value in t.underWay && t.underWay[t.attempts[o].current.value].output == o)
    && (o in t.stale ==> o in t.commands)
  }

  predicate NextOk(t: Tree, o: Path) {
    o in t.attempts && t.attempts[o].next.Some? ==> o in t.inFlight && (o in t.commands ==> o in t.stale)
  }

  /** No two outputs have the same next attempt. */
  ghost predicate NextsDiffer(t: Tree) {
    forall o, p :: o in t.attempts && p in t.attempts && t.attempts[o].next.Some? && t.attempts[o].next == t.attempts[p].next ==> o == p
  }

  /** The layout's lock is held by the build that recorded its inputs and has still to write its bytes. */
  ghost predicate LayoutOk(t: Tree) {
    && (t.layout.Some? ==> t.layout.value in t.underWay && t.underWay[t.layout.value].stage == Stage.Recorded)
    && forall a :: a in t.underWay && t.underWay[a].stage == Stage.Recorded ==> t.layout == Some(a)
  }

  /** All but what `settling` keeps of a next attempt, if an output is settling. */
  ghost predicate WaitersBut(t: Tree, settling: Option<Path>) {
    && (forall a :: AttemptOk(t, a))
    && (forall o :: FlightOk(t, o))
    && (forall o :: settling != Some(o) ==> NextOk(t, o))
    && NextsDiffer(t) && LayoutOk(t)
  }

  ghost predicate Waiters(t: Tree) {
    WaitersBut(t, None)
  }

  // ---- Freshness -------------------------------------------------------------------------------

  /** What an output up to date serves: what was restored and never invalidated, or its last build, and nothing since. */
  predicate Fresh(t: Tree, o: Path) {
    && o in t.served && o in t.recorded && t.recorded[o] == t.served[o]
    && match t.served[o]
       case Placeholder => false
       case Restored => CountAt(t, o) == 0
       case Built(a) =>
         && a in t.succeeded && a in t.claims && t.claims[a].output == o && t.claims[a].count == CountAt(t, o)
         && AttemptsAt(t, o).current == Some(a)
  }

  /** A build that nothing invalidated since it was claimed serves, once it is done, what it built. */
  predicate FreshOnceDone(t: Tree, o: Path) {
    && AttemptsAt(t, o).claim == CountAt(t, o)
    && AttemptsAt(t, o).current.Some?
    && var a := AttemptsAt(t, o).current.value;
       a in t.underWay ==>
         && (t.underWay[a].stage != Launched ==> o in t.recorded && t.recorded[o] == Built(a))
         && (t.underWay[a].stage == Stage.Written ==> o in t.served && t.served[o] == Built(a))
  }

  predicate FreshOk(t: Tree, o: Path) {
    && (o in t.commands <==> o in t.served)
    && AttemptsAt(t, o).claim <= CountAt(t, o)
    && (o in t.commands && o !in t.stale ==> if o in t.inFlight then FreshOnceDone(t, o) else Fresh(t, o))
  }

  ghost predicate Freshness(t: Tree) {
    forall o :: FreshOk(t, o)
  }

  // ---- The cache -------------------------------------------------------------------------------

  /** The drop that follows the last invalidation of `o` is still to be made. */
  ghost predicate Pending(t: Tree, o: Path) {
    exists id :: id in t.forgets && o in t.forgets[id] && t.forgets[id][o] == CountAt(t, o)
  }

  /** How often `o` had been invalidated as the build recorded of it was claimed. */
  function KeptCount(t: Tree, o: Path): nat
    requires o in t.cache
  {
    match t.cache[o]
    case Before => 0
    case Of(a, _) => if a in t.claims then t.claims[a].count else 0
  }

  /** A record is of a build of its output, claimed since the last drop; that its command is another passes. */
  predicate RecordOk(t: Tree, o: Path)
    requires o in t.cache
  {
    && CountOf(t.dropped, o) <= KeptCount(t, o) <= CountAt(t, o)
    && (t.cache[o].Of? ==> t.cache[o].a in t.claims && t.claims[t.cache[o].a].output == o
                           && CommandOk(t, t.cache[o].a, t.cache[o].command))
  }

  /** What was kept under another command than it was claimed under is to be invalidated, or was. */
  predicate CommandOk(t: Tree, a: AttemptId, command: Command)
    requires a in t.claims
  {
    var claim := t.claims[a];
    command == claim.command || claim.output in t.changed || claim.count < CountAt(t, claim.output)
  }

  /** And so is what is claimed, if its command is another by now. */
  predicate ClaimOk(t: Tree, a: AttemptId)
    requires a in t.claims
  {
    var claim := t.claims[a];
    && claim.count <= CountAt(t, claim.output)
    && (claim.output in t.commands ==> CommandOk(t, a, t.commands[claim.output]))
    && (claim.output !in t.commands ==> claim.count < CountAt(t, claim.output))
  }

  ghost predicate CacheOk(t: Tree, o: Path) {
    && CountOf(t.dropped, o) <= CountAt(t, o)
    && (o in t.cache ==> RecordOk(t, o))
    && (CountOf(t.dropped, o) == CountAt(t, o) || o in t.failed || Pending(t, o))
    && forall id :: id in t.forgets && o in t.forgets[id] ==> 0 < t.forgets[id][o] <= CountAt(t, o)
  }

  /** A keep has the output and count of its build's claim. */
  predicate KeepOk(t: Tree, a: AttemptId)
    requires a in t.keeps
  {
    && a in t.claims && t.keeps[a].output == t.claims[a].output && t.keeps[a].count == t.claims[a].count
    && CommandOk(t, a, t.keeps[a].command)
  }

  ghost predicate KeepsOk(t: Tree) {
    && (forall a :: a in t.claims ==> ClaimOk(t, a))
    && (forall a :: a in t.keeps ==> KeepOk(t, a))
    && (t.keeping.Some? ==> t.keeping.value.a in t.keeps && t.completions[t.keeping.value.a] > 0)
    && (t.keeping.Some? && t.keeping.value.keepable ==>
          CountOf(t.dropped, t.keeps[t.keeping.value.a].output) <= t.keeps[t.keeping.value.a].count)
  }

  ghost predicate Cached(t: Tree) {
    KeepsOk(t) && forall o :: CacheOk(t, o)
  }

  ghost predicate Inv(t: Tree) {
    Waiters(t) && Freshness(t) && Cached(t)
  }

  lemma InitInv(t: Tree)
    requires IsInit(t)
    ensures Inv(t)
  {
    forall a ensures AttemptOk(t, a) {
    }
    forall o ensures FlightOk(t, o) && NextOk(t, o) && FreshOk(t, o) && CacheOk(t, o) {
    }
  }

  // ---- Waiters are kept ------------------------------------------------------------------------

  lemma ClaimKeepsWaiters(t: Tree, output: Path, made: AttemptId)
    requires WaitersBut(t, Some(output)) && Claimable(t, output) && made !in t.created
    ensures Waiters(Claimed(t, output, made))
  {
    var u := Claimed(t, output, made);
    var a := if AttemptsAt(t, output).next.Some? then AttemptsAt(t, output).next.value else made;
    assert AttemptOk(t, a);
    assert AttemptsAt(t, output).next.Some? ==> IsNext(t, a);
    forall b ensures AttemptOk(u, b) {
      ClaimKeepsAttempt(t, output, made, b);
    }
    hide AttemptOk;
    forall o ensures FlightOk(u, o) && NextOk(u, o) {
      assert FlightOk(t, o) && (o != output ==> NextOk(t, o));
    }
  }

  lemma ClaimKeepsAttempt(t: Tree, output: Path, made: AttemptId, b: AttemptId)
    requires WaitersBut(t, Some(output)) && Claimable(t, output) && made !in t.created
    ensures AttemptOk(Claimed(t, output, made), b)
  {
    var u := Claimed(t, output, made);
    var a := if AttemptsAt(t, output).next.Some? then AttemptsAt(t, output).next.value else made;
    assert AttemptOk(t, b) && AttemptOk(t, a);
    assert AttemptsAt(t, output).next.Some? ==> IsNext(t, a);
    if o :| o in u.attempts && u.attempts[o].next == Some(b) {
      assert o != output && t.attempts[o].next == Some(b);
      assert IsNext(t, b) && b != a;
    }
    if o :| o in t.attempts && t.attempts[o].next == Some(b) {
      assert o != output ==> u.attempts[o].next == Some(b);
    }
    assert b in t.underWay ==> t.underWay[b].output != output;
  }

  /** Attempts' places and what they are of are the same in `u` as in `t`. */
  ghost predicate SamePlaces(t: Tree, u: Tree) {
    && u.underWay == t.underWay && u.toComplete == t.toComplete && u.completions == t.completions
    && u.claims == t.claims && u.created == t.created && u.layout == t.layout && u.inFlight == t.inFlight
  }

  lemma SameNexts(t: Tree, u: Tree)
    requires forall o :: AttemptsAt(u, o).next == AttemptsAt(t, o).next
    ensures forall a :: IsNext(t, a) <==> IsNext(u, a)
    ensures NextsDiffer(t) ==> NextsDiffer(u)
  {
    forall a ensures IsNext(t, a) <==> IsNext(u, a) {
      if o :| o in t.attempts && t.attempts[o].next == Some(a) {
        assert AttemptsAt(u, o).next == Some(a);
      }
      if o :| o in u.attempts && u.attempts[o].next == Some(a) {
        assert AttemptsAt(t, o).next == Some(a);
      }
    }
    forall o, p | NextsDiffer(t) && o in u.attempts && p in u.attempts && u.attempts[o].next.Some? && u.attempts[o].next == u.attempts[p].next
      ensures o == p
    {
      assert AttemptsAt(t, o).next == AttemptsAt(u, o).next && AttemptsAt(t, p).next == AttemptsAt(u, p).next;
    }
  }

  /** Changes that leave places alone keep waiters, if staleness stays within what is declared. */
  lemma StalenessKeepsWaiters(t: Tree, u: Tree)
    requires Waiters(t) && SamePlaces(t, u)
    requires forall o :: o in t.attempts ==> o in u.attempts && u.attempts[o] == t.attempts[o]
    requires forall o :: o in u.attempts && o !in t.attempts ==> u.attempts[o].next.None?
    requires forall o :: o in u.stale ==> o in u.commands
    requires forall o :: o in t.inFlight && o in u.commands && o in t.attempts && t.attempts[o].next.Some? ==> o in u.stale
    ensures Waiters(u)
  {
    SameNexts(t, u);
    forall a ensures AttemptOk(u, a) {
      assert AttemptOk(t, a);
    }
    hide AttemptOk;
    forall o ensures FlightOk(u, o) && NextOk(u, o) {
      assert FlightOk(t, o) && NextOk(t, o);
    }
  }

  lemma StaleIsDeclared(t: Tree)
    requires Waiters(t)
    ensures forall o :: o in t.stale ==> o in t.commands
    ensures forall o :: o in t.attempts && t.attempts[o].next.Some? ==> o in t.inFlight && (o in t.commands ==> o in t.stale)
  {
    forall o | o in t.stale ensures o in t.commands {
      assert FlightOk(t, o);
    }
    forall o | o in t.attempts && t.attempts[o].next.Some? ensures o in t.inFlight && (o in t.commands ==> o in t.stale) {
      assert NextOk(t, o);
    }
  }

  lemma OpenedKeepsWaiters(t: Tree, output: Path)
    requires Waiters(t) && output in t.commands
    ensures Waiters(Opened(t, output))
  {
    StaleIsDeclared(t);
    hide Waiters;
    StalenessKeepsWaiters(t, Opened(t, output));
  }

  lemma NextKeepsWaiters(t: Tree, output: Path, made: AttemptId)
    requires Waiters(t) && output in t.inFlight && output in t.stale && AttemptsAt(t, output).next.None? && made !in t.created
    ensures Waiters(WithNext(t, output, made))
  {
    var u := WithNext(t, output, made);
    assert AttemptOk(t, made) && FlightOk(t, output);
    assert IsNext(u, made) by { assert u.attempts[output].next == Some(made); }
    assert !IsNext(t, made);
    forall a ensures AttemptOk(u, a) {
      NextKeepsAttempt(t, output, made, a);
    }
    hide AttemptOk;
    forall o ensures FlightOk(u, o) && NextOk(u, o) {
      assert FlightOk(t, o) && NextOk(t, o);
    }
    forall o, p | o in u.attempts && p in u.attempts && u.attempts[o].next.Some? && u.attempts[o].next == u.attempts[p].next
      ensures o == p
    {
      assert o != output && t.attempts[o].next == Some(made) ==> IsNext(t, made);
      assert p != output && t.attempts[p].next == Some(made) ==> IsNext(t, made);
    }
  }

  lemma NextKeepsAttempt(t: Tree, output: Path, made: AttemptId, a: AttemptId)
    requires Waiters(t) && output in t.inFlight && output in t.stale && AttemptsAt(t, output).next.None? && made !in t.created
    ensures AttemptOk(WithNext(t, output, made), a)
  {
    var u := WithNext(t, output, made);
    assert AttemptOk(t, a) && FlightOk(t, output);
    assert u.attempts[output].next == Some(made);
    if o :| o in u.attempts && u.attempts[o].next == Some(a) {
      assert a != made ==> o != output && t.attempts[o].next == Some(a);
    }
    if o :| o in t.attempts && t.attempts[o].next == Some(a) {
      assert o != output && u.attempts[o].next == Some(a);
    }
  }

  lemma OpenKeepsWaiters(t: Tree, output: Path, made: AttemptId)
    requires Waiters(t) && made !in t.created
    ensures Waiters(AfterOpen(t, output, made))
  {
    if output in t.commands {
      OpenedKeepsWaiters(t, output);
      var u := Opened(t, output);
      assert u.created == t.created && u.inFlight == t.inFlight && u.commands == t.commands;
      hide WaitersBut, Opened, WithNext, Claimed;
      if output in u.inFlight {
        if output in u.stale && AttemptsAt(u, output).next.None? {
          NextKeepsWaiters(u, output, made);
        }
      } else if output in u.stale {
        WaitersAreWaitersBut(u, output);
        ClaimKeepsWaiters(u, output, made);
      }
    }
  }

  lemma WaitersAreWaitersBut(t: Tree, output: Path)
    requires Waiters(t)
    ensures WaitersBut(t, Some(output))
  {
    hide AttemptOk, FlightOk, NextOk, LayoutOk, NextsDiffer;
  }

  /** A build under way gets further. */
  lemma StageKeepsWaiters(t: Tree, u: Tree, a: AttemptId, stage: Stage)
    requires Waiters(t) && a in t.underWay && SamePlaces(t.(underWay := t.underWay[a := Build(t.underWay[a].output, stage)], layout := u.layout), u)
    requires u.attempts == t.attempts && u.stale == t.stale && u.commands == t.commands
    requires if stage == Stage.Recorded then t.layout.None? && u.layout == Some(a)
             else t.layout == Some(a) && u.layout.None?
    ensures Waiters(u)
  {
    SameNexts(t, u);
    forall b ensures AttemptOk(u, b) {
      assert AttemptOk(t, b);
    }
    hide AttemptOk;
    forall o ensures FlightOk(u, o) && NextOk(u, o) {
      assert FlightOk(t, o) && NextOk(t, o);
    }
  }

  lemma SettlingKeepsWaiters(t: Tree, a: AttemptId, ok: bool, inputs: seq<Path>)
    requires Waiters(t) && a in t.underWay && t.underWay[a].stage != Stage.Recorded
    ensures WaitersBut(Settling(t, a, ok, inputs), Some(t.underWay[a].output))
  {
    var output := t.underWay[a].output;
    var u := Settling(t, a, ok, inputs);
    assert AttemptOk(t, a);
    SameNexts(t, u);
    forall b ensures AttemptOk(u, b) {
      assert AttemptOk(t, b);
    }
    hide AttemptOk, IsNext;
    forall o ensures FlightOk(u, o) && (o != output ==> NextOk(u, o)) {
      assert FlightOk(t, o) && NextOk(t, o);
    }
  }

  lemma OrphanKeepsWaiters(u: Tree, output: Path)
    requires WaitersBut(u, Some(output)) && output !in u.commands && output !in u.inFlight
    ensures var next := AttemptsAt(u, output).next;
      Waiters(u.(toComplete := u.toComplete + (if next.Some? then {next.value} else {}), attempts := u.attempts - {output}))
  {
    var next := AttemptsAt(u, output).next;
    var v := u.(toComplete := u.toComplete + (if next.Some? then {next.value} else {}), attempts := u.attempts - {output});
    forall b ensures AttemptOk(v, b) {
      assert AttemptOk(u, b);
      if o :| o in u.attempts && u.attempts[o].next == Some(b) {
        assert o != output ==> v.attempts[o].next == Some(b);
      }
      if o :| o in v.attempts && v.attempts[o].next == Some(b) {
        assert o != output && u.attempts[o].next == Some(b);
      }
      assert next == Some(b) ==> IsNext(u, b);
    }
    hide AttemptOk, IsNext;
    forall o ensures FlightOk(v, o) && NextOk(v, o) {
      assert FlightOk(u, o) && (o != output ==> NextOk(u, o));
    }
  }

  lemma SettleKeepsWaiters(t: Tree, a: AttemptId, ok: bool, canceled: bool, inputs: seq<Path>, made: AttemptId)
    requires Waiters(t) && a in t.underWay && t.underWay[a].stage != Stage.Recorded && made !in t.created
    ensures Waiters(AfterSettle(t, a, ok, canceled, inputs, made))
  {
    var output := t.underWay[a].output;
    var u := Settling(t, a, ok, inputs);
    SettlingKeepsWaiters(t, a, ok, inputs);
    assert AttemptOk(t, a) && NextOk(t, output);
    if output !in t.commands {
      hide WaitersBut;
      OrphanKeepsWaiters(u, output);
    } else {
      var v := u.(stale := if ok then u.stale else u.stale + {output});
      StalerKeepsWaiters(u, v, output);
      if Rebuilds(t, output, ok, canceled) {
        RebuildIsClaimable(t, a, ok, canceled, inputs);
        hide WaitersBut;
        ClaimKeepsWaiters(v, output, made);
      } else {
        SettledKeepsWaiters(v, output);
      }
    }
  }

  lemma StalerKeepsWaiters(u: Tree, v: Tree, output: Path)
    requires WaitersBut(u, Some(output)) && output in u.commands && v == u.(stale := v.stale)
    requires u.stale <= v.stale <= u.stale + {output}
    ensures WaitersBut(v, Some(output))
  {
    SameNexts(u, v);
    forall b ensures AttemptOk(v, b) {
      assert AttemptOk(u, b);
    }
    hide AttemptOk;
    forall o ensures FlightOk(v, o) && (o != output ==> NextOk(v, o)) {
      assert FlightOk(u, o) && (o != output ==> NextOk(u, o));
    }
  }

  lemma SettledKeepsWaiters(t: Tree, output: Path)
    requires WaitersBut(t, Some(output)) && AttemptsAt(t, output).next.None?
    ensures Waiters(t)
  {
    hide AttemptOk, FlightOk, LayoutOk, NextsDiffer;
    forall o ensures NextOk(t, o) {
      assert o != output ==> NextOk(t, o);
    }
  }

  /** What is built again as it settles is declared, stale and idle, as claiming it takes. */
  lemma RebuildIsClaimable(t: Tree, a: AttemptId, ok: bool, canceled: bool, inputs: seq<Path>)
    requires Waiters(t) && a in t.underWay && t.underWay[a].output in t.commands && Rebuilds(t, t.underWay[a].output, ok, canceled)
    ensures var u := Settling(t, a, ok, inputs);
      Claimable(u.(stale := if ok then u.stale else u.stale + {t.underWay[a].output}), t.underWay[a].output)
  {
    assert NextOk(t, t.underWay[a].output);
  }

  lemma ReleaseKeepsWaiters(t: Tree, a: AttemptId)
    requires Waiters(t) && a in t.toComplete
    ensures Waiters(t.(toComplete := t.toComplete - {a}, completions := t.completions + multiset{a}))
  {
    var u := t.(toComplete := t.toComplete - {a}, completions := t.completions + multiset{a});
    SameNexts(t, u);
    forall b ensures AttemptOk(u, b) {
      assert AttemptOk(t, b);
    }
    hide AttemptOk;
    forall o ensures FlightOk(u, o) && NextOk(u, o) {
      assert FlightOk(t, o) && NextOk(t, o);
    }
  }

  lemma InvalidateKeepsWaiters(t: Tree, from: seq<Path>, id: int)
    requires Waiters(t)
    ensures Waiters(AfterInvalidate(t, from, id))
  {
    StaleIsDeclared(t);
    hide Waiters, Reached, DependentsOf;
    StalenessKeepsWaiters(t, AfterInvalidate(t, from, id));
  }

  lemma RulesKeepWaiters(t: Tree, commands: map<Path, Command>, watched: set<Path>, id: int)
    requires Waiters(t) && t.layout.None?
    ensures Waiters(AfterRules(t, commands, watched, id))
  {
    var u := AfterRules(t, commands, watched, id);
    StaleIsDeclared(t);
    RulesKeepNexts(t, commands, watched, id);
    SameNexts(t, u);
    forall a ensures AttemptOk(u, a) {
      assert AttemptOk(t, a);
    }
    hide AttemptOk, IsNext;
    forall o ensures FlightOk(u, o) && NextOk(u, o) {
      assert FlightOk(t, o) && NextOk(t, o);
    }
  }

  /** What is forgotten of an output whose rule is gone, unless it is being built, is no next attempt. */
  lemma RulesKeepNexts(t: Tree, commands: map<Path, Command>, watched: set<Path>, id: int)
    requires Waiters(t)
    ensures forall o :: AttemptsAt(AfterRules(t, commands, watched, id), o).next == AttemptsAt(t, o).next
  {
    StaleIsDeclared(t);
    hide Waiters;
  }

  /** Steps of the cache alone leave waiters alone. */
  lemma CacheStepKeepsWaiters(t: Tree, u: Tree)
    requires Waiters(t) && SamePlaces(t, u) && u.attempts == t.attempts && u.stale == t.stale && u.commands == t.commands
    ensures Waiters(u)
  {
    StaleIsDeclared(t);
    hide Waiters;
    StalenessKeepsWaiters(t, u);
  }

  lemma RecordKeepsWaiters(t: Tree, a: AttemptId, inputs: seq<Path>)
    requires Waiters(t) && Enabled(t, Step.Record(a, inputs))
    ensures Waiters(AfterRecord(t, a, inputs))
  {
    hide Waiters;
    StageKeepsWaiters(t, AfterRecord(t, a, inputs), a, Stage.Recorded);
  }

  lemma WriteKeepsWaiters(t: Tree, a: AttemptId)
    requires Waiters(t) && Enabled(t, Write(a))
    ensures Waiters(AfterWrite(t, a))
  {
    hide Waiters;
    StageKeepsWaiters(t, AfterWrite(t, a), a, Stage.Written);
  }

  lemma CacheStepsKeepWaiters(t: Tree, step: Step)
    requires Waiters(t) && Enabled(t, step) && (step.Check? || step.Store? || step.Forget?)
    ensures Waiters(Next(t, step))
  {
    CacheStepsLeave(t, step);
    hide Waiters, Next, Enabled;
    CacheStepKeepsWaiters(t, Next(t, step));
  }

  lemma CacheStepsLeave(t: Tree, step: Step)
    requires Enabled(t, step) && (step.Check? || step.Store? || step.Forget?)
    ensures var u := Next(t, step);
      && SamePlaces(t, u) && u.attempts == t.attempts && u.stale == t.stale && u.commands == t.commands
      && u.succeeded == t.succeeded && u.served == t.served && u.recorded == t.recorded && u.invalidations == t.invalidations
  {
  }

  lemma StartKeepsWaiters(t: Tree, output: Path, made: AttemptId)
    requires Waiters(t) && made !in t.created && Claimable(t, output)
    ensures Waiters(Claimed(t, output, made))
  {
    hide Waiters, WaitersBut, Claimed;
    WaitersAreWaitersBut(t, output);
    ClaimKeepsWaiters(t, output, made);
  }

  lemma StepKeepsWaiters(t: Tree, step: Step)
    requires Waiters(t) && Enabled(t, step)
    ensures Waiters(Next(t, step))
  {
    hide Waiters, AfterOpen, AfterSettle, AfterInvalidate, AfterRules, Claimed, AfterRecord, AfterWrite;
    match step
    case Open(output, made) => OpenKeepsWaiters(t, output, made);
    case Start(output, made) => if Claimable(t, output) { StartKeepsWaiters(t, output, made); }
    case Record(a, inputs) => RecordKeepsWaiters(t, a, inputs);
    case Write(a) => WriteKeepsWaiters(t, a);
    case Settle(a, ok, canceled, inputs, made) => SettleKeepsWaiters(t, a, ok, canceled, inputs, made);
    case Release(a) => ReleaseKeepsWaiters(t, a);
    case Invalidate(from, id) => InvalidateKeepsWaiters(t, from, id);
    case ApplyRules(commands, watched, id) => RulesKeepWaiters(t, commands, watched, id);
    case _ => CacheStepsKeepWaiters(t, step);
  }

  // ---- Freshness is kept -----------------------------------------------------------------------

  lemma ClaimKeepsFresh(t: Tree, output: Path, made: AttemptId)
    requires Freshness(t) && WaitersBut(t, Some(output)) && Claimable(t, output) && made !in t.created
    ensures Freshness(Claimed(t, output, made))
  {
    var u := Claimed(t, output, made);
    var a := if AttemptsAt(t, output).next.Some? then AttemptsAt(t, output).next.value else made;
    assert AttemptsAt(t, output).next.Some? ==> IsNext(t, a);
    assert AttemptOk(t, a);
    forall o ensures FreshOk(u, o) {
      ClaimKeepsFreshAt(t, output, made, a, o);
    }
  }

  lemma ClaimKeepsFreshAt(t: Tree, output: Path, made: AttemptId, a: AttemptId, o: Path)
    requires FreshOk(t, o) && Claimable(t, output)
    requires a == if AttemptsAt(t, output).next.Some? then AttemptsAt(t, output).next.value else made
    requires FreshOk(t, output) && a !in t.underWay && a !in t.claims && FlightOk(t, o)
    ensures FreshOk(Claimed(t, output, made), o)
  {
  }

  lemma OpenedKeepsFresh(t: Tree, output: Path)
    requires Freshness(t) && output in t.commands
    ensures Freshness(Opened(t, output))
  {
    forall o ensures FreshOk(Opened(t, output), o) {
      assert FreshOk(t, o);
    }
  }

  lemma NextKeepsFresh(t: Tree, output: Path, made: AttemptId)
    requires Freshness(t)
    ensures Freshness(WithNext(t, output, made))
  {
    forall o ensures FreshOk(WithNext(t, output, made), o) {
      assert FreshOk(t, o);
    }
  }

  lemma OpenKeepsFresh(t: Tree, output: Path, made: AttemptId)
    requires Waiters(t) && Freshness(t) && made !in t.created
    ensures Freshness(AfterOpen(t, output, made))
  {
    if output in t.commands {
      OpenedKeepsWaiters(t, output);
      OpenedKeepsFresh(t, output);
      var u := Opened(t, output);
      assert u.created == t.created && u.inFlight == t.inFlight && u.commands == t.commands;
      hide WaitersBut, Waiters, Freshness, Opened, WithNext, Claimed;
      if output in u.inFlight {
        NextKeepsFresh(u, output, made);
      } else if output in u.stale {
        StartKeepsFresh(u, output, made);
      }
    }
  }

  lemma StartKeepsFresh(t: Tree, output: Path, made: AttemptId)
    requires Waiters(t) && Freshness(t) && made !in t.created && Claimable(t, output)
    ensures Freshness(Claimed(t, output, made))
  {
    WaitersAreWaitersBut(t, output);
    hide WaitersBut, Waiters, Freshness, Claimed;
    ClaimKeepsFresh(t, output, made);
  }

  lemma RecordKeepsFresh(t: Tree, a: AttemptId, inputs: seq<Path>)
    requires Waiters(t) && Freshness(t) && a in t.underWay
    ensures Freshness(AfterRecord(t, a, inputs))
  {
    var u := AfterRecord(t, a, inputs);
    assert AttemptOk(t, a);
    forall o ensures FreshOk(u, o) {
      assert FreshOk(t, o) && FlightOk(t, o);
    }
  }

  lemma WriteKeepsFresh(t: Tree, a: AttemptId)
    requires Waiters(t) && Freshness(t) && a in t.underWay && t.underWay[a].stage == Stage.Recorded
    ensures Freshness(AfterWrite(t, a))
  {
    var u := AfterWrite(t, a);
    assert AttemptOk(t, a);
    forall o ensures FreshOk(u, o) {
      assert FreshOk(t, o) && FlightOk(t, o);
    }
  }

  /** A declared output as its build settles: fresh, or stale. */
  lemma SettlingKeepsFresh(t: Tree, a: AttemptId, ok: bool, inputs: seq<Path>)
    requires Waiters(t) && Freshness(t) && a in t.underWay && (ok ==> t.underWay[a].stage == Stage.Written)
    requires t.underWay[a].output in t.commands
    ensures var u := Settling(t, a, ok, inputs);
      Freshness(u.(stale := if ok then u.stale else u.stale + {t.underWay[a].output}))
  {
    var output := t.underWay[a].output;
    var u := Settling(t, a, ok, inputs);
    var v := u.(stale := if ok then u.stale else u.stale + {output});
    assert AttemptOk(t, a);
    forall o ensures FreshOk(v, o) {
      assert FreshOk(t, o) && FlightOk(t, o);
    }
  }

  lemma OrphanKeepsFresh(t: Tree, a: AttemptId, ok: bool, canceled: bool, inputs: seq<Path>, made: AttemptId)
    requires Waiters(t) && Freshness(t) && a in t.underWay && t.underWay[a].output !in t.commands
    ensures Freshness(AfterSettle(t, a, ok, canceled, inputs, made))
  {
    var u := AfterSettle(t, a, ok, canceled, inputs, made);
    assert AttemptOk(t, a);
    forall o ensures FreshOk(u, o) {
      assert FreshOk(t, o) && FlightOk(t, o);
    }
  }

  lemma SettleKeepsFresh(t: Tree, a: AttemptId, ok: bool, canceled: bool, inputs: seq<Path>, made: AttemptId)
    requires Waiters(t) && Freshness(t) && Enabled(t, Settle(a, ok, canceled, inputs, made))
    ensures Freshness(AfterSettle(t, a, ok, canceled, inputs, made))
  {
    var output := t.underWay[a].output;
    if output !in t.commands {
      OrphanKeepsFresh(t, a, ok, canceled, inputs, made);
    } else {
      SettlingKeepsFresh(t, a, ok, inputs);
      var u := Settling(t, a, ok, inputs);
      var v := u.(stale := if ok then u.stale else u.stale + {output});
      if Rebuilds(t, output, ok, canceled) {
        SettlingKeepsWaiters(t, a, ok, inputs);
        StalerKeepsWaiters(u, v, output);
        RebuildIsClaimable(t, a, ok, canceled, inputs);
        hide Waiters, WaitersBut, Freshness;
        ClaimKeepsFresh(v, output, made);
      }
    }
  }

  lemma InvalidateKeepsFresh(t: Tree, from: seq<Path>, id: int)
    requires Freshness(t)
    ensures Freshness(AfterInvalidate(t, from, id))
  {
    hide Reached, DependentsOf;
    var u := AfterInvalidate(t, from, id);
    forall o ensures FreshOk(u, o) {
      assert FreshOk(t, o);
      assert o !in Affected(t, from) ==> CountAt(u, o) == CountAt(t, o);
    }
  }

  lemma RulesKeepFresh(t: Tree, commands: map<Path, Command>, watched: set<Path>, id: int)
    requires Freshness(t)
    ensures Freshness(AfterRules(t, commands, watched, id))
  {
    var u := AfterRules(t, commands, watched, id);
    forall o ensures FreshOk(u, o) {
      assert FreshOk(t, o);
      assert o in commands ==> CountAt(u, o) == CountAt(t, o);
    }
  }

  lemma CacheStepsKeepFresh(t: Tree, step: Step)
    requires Freshness(t) && Enabled(t, step) && (step.Check? || step.Store? || step.Forget?)
    ensures Freshness(Next(t, step))
  {
    CacheStepsLeave(t, step);
    var u := Next(t, step);
    hide Next, Enabled;
    forall o ensures FreshOk(u, o) {
      assert FreshOk(t, o);
    }
  }

  lemma ReleaseKeepsFresh(t: Tree, a: AttemptId)
    requires Freshness(t)
    ensures Freshness(t.(toComplete := t.toComplete - {a}, completions := t.completions + multiset{a}))
  {
    forall o ensures FreshOk(t.(toComplete := t.toComplete - {a}, completions := t.completions + multiset{a}), o) {
      assert FreshOk(t, o);
    }
  }

  lemma StepKeepsFresh(t: Tree, step: Step)
    requires Waiters(t) && Freshness(t) && Enabled(t, step)
    ensures Freshness(Next(t, step))
  {
    hide Waiters, Freshness, AfterOpen, AfterSettle, AfterInvalidate, AfterRules, Claimed, AfterRecord, AfterWrite;
    match step
    case Open(output, made) => OpenKeepsFresh(t, output, made);
    case Start(output, made) => if Claimable(t, output) { StartKeepsFresh(t, output, made); }
    case Record(a, inputs) => RecordKeepsFresh(t, a, inputs);
    case Write(a) => WriteKeepsFresh(t, a);
    case Settle(a, ok, canceled, inputs, made) => SettleKeepsFresh(t, a, ok, canceled, inputs, made);
    case Release(a) => ReleaseKeepsFresh(t, a);
    case Invalidate(from, id) => InvalidateKeepsFresh(t, from, id);
    case ApplyRules(commands, watched, id) => RulesKeepFresh(t, commands, watched, id);
    case _ => CacheStepsKeepFresh(t, step);
  }

  // ---- The cache is kept -----------------------------------------------------------------------

  /** Nothing of the cache, or of what tells whether it is out of date, changes. */
  predicate SameCacheAs(t: Tree, u: Tree) {
    && u.cache == t.cache && u.dropped == t.dropped && u.failed == t.failed && u.forgets == t.forgets
    && u.invalidations == t.invalidations && u.keeping == t.keeping && u.commands == t.commands && u.changed == t.changed
  }

  /** Claims stay, and those made meanwhile are as they should be. */
  ghost predicate ClaimsGrow(t: Tree, u: Tree) {
    forall a :: a in t.claims || a in u.claims ==> a in u.claims && if a in t.claims then u.claims[a] == t.claims[a] else ClaimOk(u, a)
  }

  predicate KeptAlike(t: Tree, u: Tree, a: AttemptId) {
    a in t.keeps && a in u.keeps && u.keeps[a] == t.keeps[a] && u.completions[a] >= t.completions[a]
  }

  ghost predicate SameCache(t: Tree, u: Tree) {
    && SameCacheAs(t, u) && ClaimsGrow(t, u)
    && (forall a :: a in u.keeps ==> KeepOk(u, a))
    && (t.keeping.Some? ==> KeptAlike(t, u, t.keeping.value.a))
  }

  lemma SameCacheKeeps(t: Tree, u: Tree)
    requires Cached(t) && SameCache(t, u)
    ensures Cached(u)
  {
    forall o ensures CacheOk(u, o) {
      assert CacheOk(t, o);
      if Pending(t, o) {
        var id :| id in t.forgets && o in t.forgets[id] && t.forgets[id][o] == CountAt(t, o);
        assert u.forgets[id][o] == CountAt(u, o);
      }
    }
  }

  /** Nor do keeps, or completions. */
  ghost predicate LeavesCache(t: Tree, u: Tree) {
    SameCacheAs(t, u) && ClaimsGrow(t, u) && u.keeps == t.keeps && u.completions == t.completions
  }

  /** What a claim of `output` would be for. */
  function ToClaim(t: Tree, output: Path, made: AttemptId): AttemptId {
    if AttemptsAt(t, output).next.Some? then AttemptsAt(t, output).next.value else made
  }

  /** An attempt to be claimed was not before. */
  lemma ClaimsAnew(t: Tree, output: Path, made: AttemptId)
    requires Waiters(t) && made !in t.created
    ensures ToClaim(t, output, made) !in t.claims
  {
    var a := ToClaim(t, output, made);
    assert AttemptOk(t, a);
    assert AttemptsAt(t, output).next.Some? ==> IsNext(t, a);
  }

  lemma LeavesCacheTwice(t: Tree, u: Tree, v: Tree)
    requires LeavesCache(t, u) && LeavesCache(u, v)
    ensures LeavesCache(t, v)
  {
  }

  lemma NextLeavesCache(t: Tree, output: Path, made: AttemptId)
    ensures LeavesCache(t, t) && LeavesCache(t, WithNext(t, output, made))
  {
  }

  lemma OpenedLeavesCache(t: Tree, output: Path)
    requires output in t.commands
    ensures LeavesCache(t, Opened(t, output))
    ensures Opened(t, output).claims == t.claims && Opened(t, output).commands == t.commands
    ensures forall made :: ToClaim(Opened(t, output), output, made) == ToClaim(t, output, made)
  {
  }

  lemma ClaimedLeavesCache(t: Tree, output: Path, made: AttemptId)
    requires output in t.commands && ToClaim(t, output, made) !in t.claims
    ensures LeavesCache(t, Claimed(t, output, made))
  {
  }

  lemma OpenLeavesCache(t: Tree, output: Path, made: AttemptId)
    requires Waiters(t) && made !in t.created
    ensures LeavesCache(t, AfterOpen(t, output, made))
  {
    hide Waiters, LeavesCache, Opened, WithNext, Claimed, ToClaim, AttemptsAt;
    NextLeavesCache(t, output, made);
    if output in t.commands {
      var u := Opened(t, output);
      ClaimsAnew(t, output, made);
      OpenedLeavesCache(t, output);
      NextLeavesCache(u, output, made);
      ClaimedLeavesCache(u, output, made);
      LeavesCacheTwice(t, u, AfterOpen(t, output, made));
    }
  }

  lemma SettlingLeavesCache(t: Tree, a: AttemptId, ok: bool, inputs: seq<Path>, stale: set<Path>)
    requires a in t.underWay
    ensures LeavesCache(t, Settling(t, a, ok, inputs).(stale := stale))
    ensures var v := Settling(t, a, ok, inputs).(stale := stale);
      && v.claims == t.claims && v.commands == t.commands && v.attempts == t.attempts
      && forall o, made :: ToClaim(v, o, made) == ToClaim(t, o, made)
  {
  }

  lemma OrphanLeavesCache(t: Tree, a: AttemptId, ok: bool, inputs: seq<Path>, toComplete: set<AttemptId>, attempts: map<Path, Attempts>)
    requires a in t.underWay
    ensures LeavesCache(t, Settling(t, a, ok, inputs).(toComplete := toComplete, attempts := attempts))
  {
  }

  lemma SettleLeavesCache(t: Tree, a: AttemptId, ok: bool, canceled: bool, inputs: seq<Path>, made: AttemptId)
    requires Waiters(t) && made !in t.created && a in t.underWay
    ensures LeavesCache(t, AfterSettle(t, a, ok, canceled, inputs, made))
  {
    var output := t.underWay[a].output;
    ClaimsAnew(t, output, made);
    hide Waiters, LeavesCache, Settling, Claimed, AttemptsAt, Rebuilds, ToClaim;
    var u := Settling(t, a, ok, inputs);
    if output !in t.commands {
      var next := AttemptsAt(t, output).next;
      OrphanLeavesCache(t, a, ok, inputs, u.toComplete + (if next.Some? then {next.value} else {}), u.attempts - {output});
    } else {
      var stale := if ok then u.stale else u.stale + {output};
      var v := u.(stale := stale);
      SettlingLeavesCache(t, a, ok, inputs, stale);
      ClaimedLeavesCache(v, output, made);
      LeavesCacheTwice(t, v, Claimed(v, output, made));
    }
  }

  lemma SameAsIsSame(t: Tree, u: Tree)
    requires KeepsOk(t) && LeavesCache(t, u)
    ensures SameCache(t, u)
  {
  }

  lemma RecordLeavesCache(t: Tree, a: AttemptId, inputs: seq<Path>)
    requires Waiters(t) && Freshness(t) && KeepsOk(t) && a in t.underWay
    ensures SameCache(t, AfterRecord(t, a, inputs))
  {
    assert AttemptOk(t, a) && FreshOk(t, t.underWay[a].output) && ClaimOk(t, a);
  }

  /** The counts of what is marked went up, and nothing else changes but commands of what is marked, or yet to be. */
  ghost predicate Marks(t: Tree, u: Tree, marked: set<Path>, id: int) {
    && id !in t.forgets
    && u.cache == t.cache && u.dropped == t.dropped && u.failed == t.failed && u.keeps == t.keeps && u.keeping == t.keeping
    && u.completions == t.completions && u.claims == t.claims
    && u.invalidations == Bump(t.invalidations, marked)
    && u.forgets == t.forgets[id := map o | o in marked :: CountOf(u.invalidations, o)]
    && forall o :: o !in marked ==>
         && (o in t.changed ==> o in u.changed)
         && (o in t.commands ==> o in u.commands && (u.commands[o] == t.commands[o] || o in u.changed))
  }

  lemma BumpKeepsCache(t: Tree, u: Tree, marked: set<Path>, id: int)
    requires Cached(t) && Marks(t, u, marked, id)
    ensures Cached(u)
  {
    forall o ensures CacheOk(u, o) {
      BumpKeepsCacheAt(t, u, marked, id, o);
    }
    forall a | a in u.claims ensures ClaimOk(u, a) {
      BumpKeepsClaim(t, u, marked, id, a);
    }
    forall a | a in u.keeps ensures KeepOk(u, a) {
      assert KeepOk(t, a) && ClaimOk(t, a);
      BumpKeepsCommand(t, u, marked, id, a, t.keeps[a].command);
    }
    hide ClaimOk, KeepOk, Marks, CacheOk;
  }

  lemma BumpKeepsCommand(t: Tree, u: Tree, marked: set<Path>, id: int, a: AttemptId, command: Command)
    requires Marks(t, u, marked, id) && a in t.claims && ClaimOk(t, a) && CommandOk(t, a, command)
    ensures CommandOk(u, a, command)
  {
  }

  lemma BumpKeepsClaim(t: Tree, u: Tree, marked: set<Path>, id: int, a: AttemptId)
    requires Marks(t, u, marked, id) && a in t.claims && ClaimOk(t, a)
    ensures ClaimOk(u, a)
  {
  }

  lemma BumpKeepsCacheAt(t: Tree, u: Tree, marked: set<Path>, id: int, o: Path)
    requires CacheOk(t, o) && Marks(t, u, marked, id) && forall a :: a in t.claims ==> ClaimOk(t, a)
    ensures CacheOk(u, o)
  {
    if o in t.cache && t.cache[o].Of? {
      BumpKeepsCommand(t, u, marked, id, t.cache[o].a, t.cache[o].command);
    }
    hide CommandOk, ClaimOk;
    if o in marked {
      assert u.forgets[id][o] == CountAt(u, o);
    } else if Pending(t, o) {
      var other :| other in t.forgets && o in t.forgets[other] && t.forgets[other][o] == CountAt(t, o);
      assert u.forgets[other][o] == CountAt(u, o);
    }
  }

  lemma InvalidateKeepsCache(t: Tree, from: seq<Path>, id: int)
    requires Cached(t) && id !in t.forgets
    ensures Cached(AfterInvalidate(t, from, id))
  {
    hide Cached, Affected, Bump;
    BumpKeepsCache(t, AfterInvalidate(t, from, id), Affected(t, from), id);
  }

  lemma RulesKeepCache(t: Tree, commands: map<Path, Command>, watched: set<Path>, id: int)
    requires Cached(t) && id !in t.forgets
    ensures Cached(AfterRules(t, commands, watched, id))
  {
    hide Cached, Bump;
    BumpKeepsCache(t, AfterRules(t, commands, watched, id), t.commands.Keys - commands.Keys, id);
  }

  lemma ForgetKeepsCache(t: Tree, id: int, ok: bool)
    requires Cached(t) && id in t.forgets && t.keeping.None?
    ensures Cached(AfterForget(t, id, ok))
  {
    var u := AfterForget(t, id, ok);
    forall o ensures CacheOk(u, o) {
      ForgetKeepsCacheAt(t, id, ok, o);
    }
  }

  lemma ForgetKeepsCacheAt(t: Tree, id: int, ok: bool, o: Path)
    requires CacheOk(t, o) && KeepsOk(t) && id in t.forgets
    ensures CacheOk(AfterForget(t, id, ok), o)
  {
    var u := AfterForget(t, id, ok);
    if Pending(t, o) && CountOf(t.dropped, o) != CountAt(t, o) {
      var other :| other in t.forgets && o in t.forgets[other] && t.forgets[other][o] == CountAt(t, o);
      if other != id {
        assert u.forgets[other][o] == CountAt(u, o);
      }
    }
  }

  lemma CheckKeepsCache(t: Tree, a: AttemptId, stamped: bool)
    requires Cached(t) && Enabled(t, Check(a, stamped))
    ensures Cached(Next(t, Check(a, stamped)))
  {
    var u := Next(t, Check(a, stamped));
    assert CacheOk(t, t.keeps[a].output);
    forall o ensures CacheOk(u, o) {
      assert CacheOk(t, o);
      assert Pending(t, o) ==> Pending(u, o);
    }
  }

  lemma StoreKeepsCache(t: Tree, a: AttemptId, stamped: bool, ok: bool)
    requires Cached(t) && Enabled(t, Store(a, stamped, ok))
    ensures Cached(AfterStore(t, t.keeping.value, stamped, ok))
  {
    var u := AfterStore(t, t.keeping.value, stamped, ok);
    assert KeepOk(t, a) && ClaimOk(t, a);
    forall o ensures CacheOk(u, o) {
      assert CacheOk(t, o);
      assert Pending(t, o) ==> Pending(u, o);
    }
  }

  lemma OpenKeepsCache(t: Tree, output: Path, made: AttemptId)
    requires Waiters(t) && Cached(t) && made !in t.created
    ensures Cached(AfterOpen(t, output, made))
  {
    hide AfterOpen, CacheOk, SameCache, LeavesCache;
    OpenLeavesCache(t, output, made);
    SameAsIsSame(t, AfterOpen(t, output, made));
    SameCacheKeeps(t, AfterOpen(t, output, made));
  }

  lemma SettleKeepsCache(t: Tree, a: AttemptId, ok: bool, canceled: bool, inputs: seq<Path>, made: AttemptId)
    requires Waiters(t) && Cached(t) && a in t.underWay && made !in t.created
    ensures Cached(AfterSettle(t, a, ok, canceled, inputs, made))
  {
    hide AfterSettle, CacheOk, SameCache, LeavesCache;
    SettleLeavesCache(t, a, ok, canceled, inputs, made);
    SameAsIsSame(t, AfterSettle(t, a, ok, canceled, inputs, made));
    SameCacheKeeps(t, AfterSettle(t, a, ok, canceled, inputs, made));
  }

  lemma StepKeepsCache(t: Tree, step: Step)
    requires Inv(t) && Enabled(t, step)
    ensures Cached(Next(t, step))
  {
    hide Waiters, Freshness, AfterOpen, AfterSettle, AfterInvalidate, AfterRules, AfterRecord, AfterStore, AfterForget, CacheOk, SameCache;
    match step
    case Open(output, made) => OpenKeepsCache(t, output, made);
    case Record(a, inputs) => RecordLeavesCache(t, a, inputs); SameCacheKeeps(t, AfterRecord(t, a, inputs));
    case Settle(a, ok, canceled, inputs, made) => SettleKeepsCache(t, a, ok, canceled, inputs, made);
    case Check(a, stamped) => CheckKeepsCache(t, a, stamped);
    case Store(a, stamped, ok) => StoreKeepsCache(t, a, stamped, ok);
    case Invalidate(from, id) => InvalidateKeepsCache(t, from, id);
    case Forget(id, ok) => ForgetKeepsCache(t, id, ok);
    case ApplyRules(commands, watched, id) => RulesKeepCache(t, commands, watched, id);
    case _ => OthersKeepCache(t, step);
  }

  lemma OthersKeepCache(t: Tree, step: Step)
    requires Waiters(t) && Cached(t) && Enabled(t, step) && (step.Start? || step.Write? || step.Release?)
    ensures Cached(Next(t, step))
  {
    OthersLeaveCache(t, step);
    hide Cached, SameCache, Next, Enabled;
    SameCacheKeeps(t, Next(t, step));
  }

  lemma OthersLeaveCache(t: Tree, step: Step)
    requires Waiters(t) && Cached(t) && Enabled(t, step) && (step.Start? || step.Write? || step.Release?)
    ensures SameCache(t, Next(t, step))
  {
    if step.Start? {
      ClaimsAnew(t, step.output, step.made);
      hide Waiters, LeavesCache, SameCache, Claimed;
      NextLeavesCache(t, step.output, step.made);
      if Claimable(t, step.output) {
        ClaimedLeavesCache(t, step.output, step.made);
      }
      SameAsIsSame(t, Next(t, step));
    } else {
      WrittenLeavesCache(t, step);
    }
  }

  lemma WrittenLeavesCache(t: Tree, step: Step)
    requires KeepsOk(t) && Enabled(t, step) && (step.Write? || step.Release?)
    ensures SameCache(t, Next(t, step))
  {
  }

  lemma StepKeeps(t: Tree, step: Step)
    requires Inv(t) && Enabled(t, step)
    ensures Inv(Next(t, step))
  {
    hide Waiters, Freshness, Cached, Next, Enabled;
    StepKeepsWaiters(t, step);
    StepKeepsFresh(t, step);
    StepKeepsCache(t, step);
  }

  // ---- Runs ------------------------------------------------------------------------------------

  ghost predicate IsRun(states: seq<Tree>, steps: seq<Step>) {
    && |states| == |steps| + 1 && IsInit(states[0])
    && forall i :: 0 <= i < |steps| ==> Enabled(states[i], steps[i]) && states[i + 1] == Next(states[i], steps[i])
  }

  lemma {:induction false} RunKeeps(states: seq<Tree>, steps: seq<Step>, i: nat)
    requires IsRun(states, steps) && i < |states|
    ensures Inv(states[i])
  {
    hide Inv, Next, Enabled, IsInit;
    if i == 0 {
      InitInv(states[0]);
    } else {
      RunKeeps(states, steps, i - 1);
      StepKeeps(states[i - 1], steps[i - 1]);
      assert states[i - 1 + 1] == Next(states[i - 1], steps[i - 1]);
    }
  }

  /** Every attempt handed out has been completed, once, or will be: it is under way, or about to be released, or next. */
  lemma NoWaiterIsLost(states: seq<Tree>, steps: seq<Step>, i: nat, a: AttemptId)
    requires IsRun(states, steps) && i < |states| && a in states[i].created
    ensures var t := states[i];
      && t.completions[a] <= 1
      && (t.completions[a] == 1 || a in t.toComplete || a in t.underWay
          || exists o :: o in t.attempts && t.attempts[o].next == Some(a) && o in t.inFlight && (o in t.commands ==> o in t.stale))
  {
    RunKeeps(states, steps, i);
    var t := states[i];
    assert AttemptOk(t, a);
    if o :| o in t.attempts && t.attempts[o].next == Some(a) {
      assert NextOk(t, o);
    }
  }

  /** An output in flight has just one build under way. */
  lemma OneBuildEach(states: seq<Tree>, steps: seq<Step>, i: nat, o: Path)
    requires IsRun(states, steps) && i < |states| && o in states[i].inFlight
    ensures exists a :: a in states[i].underWay && states[i].underWay[a].output == o
                        && forall b :: b in states[i].underWay && states[i].underWay[b].output == o ==> b == a
  {
    RunKeeps(states, steps, i);
    var t := states[i];
    assert FlightOk(t, o);
    var a := t.attempts[o].current.value;
    forall b | b in t.underWay && t.underWay[b].output == o ensures b == a {
      assert AttemptOk(t, b);
    }
    assert a in t.underWay && t.underWay[a].output == o;
  }

  /** What an open is given to wait on has been handed out, and nothing to wait on means nothing to wait for. */
  lemma OpenWaitsOrIsFresh(t: Tree, output: Path, made: AttemptId)
    requires Inv(t) && made !in t.created
    ensures var u := AfterOpen(t, output, made);
      match OpenTarget(t, output, made)
      case Some(a) => a in u.created && u.completions[a] == 0
      case None => output !in t.commands || (output !in t.inFlight && Fresh(t, output) && t.commands[output].action != Action.Tracing)
  {
    OpenKeepsWaiters(t, output, made);
    assert FlightOk(t, output) && NextOk(t, output) && FreshOk(t, output);
    hide Inv, Waiters, Freshness, Cached;
    if output in t.commands {
      OpenFindsTarget(t, output, made);
    }
  }

  lemma OpenFindsTarget(t: Tree, output: Path, made: AttemptId)
    requires output in t.commands && FlightOk(t, output) && NextOk(t, output) && FreshOk(t, output)
    requires Waiters(AfterOpen(t, output, made))
    ensures var u := AfterOpen(t, output, made);
      match OpenTarget(t, output, made)
      case Some(a) => a in u.created && u.completions[a] == 0
      case None => output !in t.inFlight && Fresh(t, output) && t.commands[output].action != Action.Tracing
  {
    TargetIsInPlace(t, output, made);
    var target := OpenTarget(t, output, made);
    if target.Some? {
      InPlaceIsOpen(AfterOpen(t, output, made), output, target.value);
    }
  }

  /** Of an output in flight, its attempt under way or the next. */
  predicate InPlace(u: Tree, output: Path, a: AttemptId) {
    && output in u.attempts && output in u.inFlight
    && (u.attempts[output].next == Some(a) || u.attempts[output].current == Some(a))
  }

  lemma InPlaceIsOpen(u: Tree, output: Path, a: AttemptId)
    requires Waiters(u) && InPlace(u, output, a)
    ensures a in u.created && u.completions[a] == 0
  {
    assert AttemptOk(u, a) && FlightOk(u, output);
    assert u.attempts[output].next == Some(a) ==> IsNext(u, a);
    hide Waiters;
  }

  lemma TargetIsInPlace(t: Tree, output: Path, made: AttemptId)
    requires output in t.commands && FlightOk(t, output) && NextOk(t, output) && FreshOk(t, output)
    ensures match OpenTarget(t, output, made)
      case Some(a) => InPlace(AfterOpen(t, output, made), output, a)
      case None => output !in t.inFlight && Fresh(t, output) && t.commands[output].action != Action.Tracing
  {
    hide Fresh, FreshOk, InPlace, AfterOpen, OpenTarget;
    if output in t.inFlight {
      FlightTarget(t, output, made);
    } else {
      IdleTarget(t, output, made);
    }
  }

  lemma FlightTarget(t: Tree, output: Path, made: AttemptId)
    requires output in t.commands && output in t.inFlight && FlightOk(t, output) && NextOk(t, output)
    ensures OpenTarget(t, output, made).Some? && InPlace(AfterOpen(t, output, made), output, OpenTarget(t, output, made).value)
  {
  }

  lemma IdleTarget(t: Tree, output: Path, made: AttemptId)
    requires output in t.commands && output !in t.inFlight && FlightOk(t, output) && FreshOk(t, output)
    ensures match OpenTarget(t, output, made)
      case Some(a) => InPlace(AfterOpen(t, output, made), output, a)
      case None => Fresh(t, output) && t.commands[output].action != Action.Tracing
  {
    hide FreshOnceDone, Fresh, InPlace, Claimed;
    var u := Opened(t, output);
    assert u.commands == t.commands && u.inFlight == t.inFlight;
    if output in u.stale {
      ClaimedInPlace(u, output, made);
    } else {
      assert output !in t.stale && t.commands[output].action != Action.Tracing;
    }
  }

  lemma ClaimedInPlace(u: Tree, output: Path, made: AttemptId)
    requires output in u.commands
    ensures var v := Claimed(u, output, made);
      output in v.inFlight && AttemptsAt(v, output).current.Some? && InPlace(v, output, AttemptsAt(v, output).current.value)
  {
  }

  /** Nothing invalidated is taken for fresh. */
  lemma NothingStaleIsServedAsFresh(states: seq<Tree>, steps: seq<Step>, i: nat, o: Path)
    requires IsRun(states, steps) && i < |states|
    requires o in states[i].commands && o !in states[i].stale && o !in states[i].inFlight
    ensures Fresh(states[i], o)
  {
    RunKeeps(states, steps, i);
    assert FreshOk(states[i], o);
  }

  /** A step never forgets a drop made. */
  lemma StepKeepsDrops(t: Tree, step: Step, o: Path)
    requires Inv(t) && Enabled(t, step)
    ensures CountOf(Next(t, step).dropped, o) >= CountOf(t.dropped, o)
  {
    if step.Settle? {
      SettleLeavesCache(t, step.a, step.ok, step.canceled, step.inputs, step.made);
    } else if step.Open? {
      OpenLeavesCache(t, step.output, step.made);
    }
    hide Inv, AfterOpen, AfterSettle;
  }

  lemma {:induction false} DropsStay(states: seq<Tree>, steps: seq<Step>, j: nat, i: nat, o: Path)
    requires IsRun(states, steps) && j <= i < |states|
    ensures CountOf(states[i].dropped, o) >= CountOf(states[j].dropped, o)
    decreases i - j
  {
    hide Inv, Next, Enabled, IsInit;
    if j < i {
      DropsStay(states, steps, j, i - 1, o);
      RunKeeps(states, steps, i - 1);
      StepKeepsDrops(states[i - 1], steps[i - 1], o);
      assert states[i - 1 + 1] == Next(states[i - 1], steps[i - 1]);
    }
  }

  /** Once a drop has been made, whatever is recorded of its output from then on is a build of it claimed since what it dropped. */
  lemma RecordsDoNotOutliveInvalidations(states: seq<Tree>, steps: seq<Step>, j: nat, i: nat, id: int, o: Path)
    requires IsRun(states, steps) && j < i < |states| && steps[j] == Forget(id, true)
    requires id in states[j].forgets && o in states[j].forgets[id] && o in states[i].cache
    ensures states[i].cache[o].Of?
    ensures var t, a := states[i], states[i].cache[o].a;
      && a in t.claims && t.claims[a].output == o && t.claims[a].count >= states[j].forgets[id][o]
  {
    RunKeeps(states, steps, j);
    RunKeeps(states, steps, i);
    DropsStay(states, steps, j + 1, i, o);
    hide Waiters, Freshness, Enabled, IsInit;
    var t := states[j];
    assert CacheOk(t, o) && CacheOk(states[i], o);
    assert states[j + 1] == AfterForget(t, id, true);
  }

  /** What a claim notes is not changed after. */
  lemma {:induction false} ClaimsStay(states: seq<Tree>, steps: seq<Step>, j: nat, i: nat, a: AttemptId)
    requires IsRun(states, steps) && j <= i < |states| && a in states[j].claims
    ensures a in states[i].claims && states[i].claims[a] == states[j].claims[a]
    decreases i - j
  {
    hide Inv, Next, Enabled, IsInit;
    if j < i {
      ClaimsStay(states, steps, j, i - 1, a);
      RunKeeps(states, steps, i - 1);
      StepKeepsClaims(states[i - 1], steps[i - 1], a);
      assert states[i - 1 + 1] == Next(states[i - 1], steps[i - 1]);
    }
  }

  lemma StepKeepsClaims(t: Tree, step: Step, a: AttemptId)
    requires Inv(t) && Enabled(t, step) && a in t.claims
    ensures a in Next(t, step).claims && Next(t, step).claims[a] == t.claims[a]
  {
    if step.Settle? {
      SettleLeavesCache(t, step.a, step.ok, step.canceled, step.inputs, step.made);
    } else if step.Open? {
      OpenLeavesCache(t, step.output, step.made);
    } else if step.Start? {
      ClaimsAnew(t, step.output, step.made);
    }
    hide Inv, AfterOpen, AfterSettle;
  }

  /** With no drop pending or failed, a record is of a build that nothing has invalidated since it was claimed. */
  lemma RecordsAreCurrent(states: seq<Tree>, steps: seq<Step>, i: nat, o: Path)
    requires IsRun(states, steps) && i < |states| && o in states[i].cache
    requires o !in states[i].failed && forall id :: id in states[i].forgets ==> o !in states[i].forgets[id]
    ensures var t := states[i];
      && KeptCount(t, o) == CountAt(t, o)
      && (t.cache[o].Of? && o !in t.changed ==> t.cache[o].a in t.claims && t.cache[o].command == t.claims[t.cache[o].a].command)
  {
    RunKeeps(states, steps, i);
    assert CacheOk(states[i], o);
  }

  /** Where the command came from that what is kept, or recorded, of a build has. */
  ghost predicate NotedAt(states: seq<Tree>, steps: seq<Step>, j: nat, a: AttemptId, o: Path, command: Command) {
    && j < |steps| < |states| && steps[j].Record? && steps[j].a == a
    && o in states[j].commands && states[j].commands[o] == command && a in states[j].claims
  }

  /** What is kept of a build is kept under the rule its finish found. */
  lemma {:induction false} KeptUnder(states: seq<Tree>, steps: seq<Step>, i: nat, a: AttemptId) returns (j: nat)
    requires IsRun(states, steps) && i < |states| && a in states[i].keeps
    ensures j < i && NotedAt(states, steps, j, a, states[i].keeps[a].output, states[i].keeps[a].command)
  {
    hide Inv, Next, Enabled;
    if i > 0 {
      RunKeeps(states, steps, i - 1);
      assert states[i - 1 + 1] == Next(states[i - 1], steps[i - 1]);
      if a in states[i - 1].keeps && states[i - 1].keeps[a] == states[i].keeps[a] {
        j := KeptUnder(states, steps, i - 1, a);
      } else {
        j := i - 1;
        KeepsAnew(states[j], steps[j], a);
      }
    }
  }

  /** Only a finish that notes what was read adds what is to be kept. */
  lemma KeepsAnew(t: Tree, step: Step, a: AttemptId)
    requires Inv(t) && Enabled(t, step)
    requires a in Next(t, step).keeps && !(a in t.keeps && t.keeps[a] == Next(t, step).keeps[a])
    ensures step.Record? && step.a == a && a in t.claims
    ensures var keep := Next(t, step).keeps[a]; keep.output in t.commands && t.commands[keep.output] == keep.command
  {
    if step.Settle? {
      SettleLeavesCache(t, step.a, step.ok, step.canceled, step.inputs, step.made);
    } else if step.Open? {
      OpenLeavesCache(t, step.output, step.made);
    } else if step.Record? {
      assert AttemptOk(t, step.a);
    }
    hide Inv, AfterOpen, AfterSettle;
  }

  lemma {:induction false} RecordNoted(states: seq<Tree>, steps: seq<Step>, i: nat, o: Path) returns (j: nat)
    requires IsRun(states, steps) && i < |states| && o in states[i].cache && states[i].cache[o].Of?
    ensures j < i && NotedAt(states, steps, j, states[i].cache[o].a, o, states[i].cache[o].command)
  {
    hide Inv, Next, Enabled, IsInit, NotedAt;
    if i == 0 {
      RestoredAtFirst(states[0], o);
      assert false;
    }
    RunKeeps(states, steps, i - 1);
    assert states[i - 1 + 1] == Next(states[i - 1], steps[i - 1]);
    if o in states[i - 1].cache && states[i - 1].cache[o] == states[i].cache[o] {
      j := RecordNoted(states, steps, i - 1, o);
    } else {
      RecordsAnew(states[i - 1], steps[i - 1], o);
      j := KeptUnder(states, steps, i - 1, states[i].cache[o].a);
    }
  }

  lemma RestoredAtFirst(t: Tree, o: Path)
    requires IsInit(t) && o in t.cache
    ensures t.cache[o] == Before
  {
  }

  /** A record has the command its build was claimed under if and only if that rule was still in force as the build finished. */
  lemma RecordedUnder(states: seq<Tree>, steps: seq<Step>, i: nat, o: Path) returns (j: nat)
    requires IsRun(states, steps) && i < |states| && o in states[i].cache && states[i].cache[o].Of?
    ensures var a := states[i].cache[o].a;
      && j < i && NotedAt(states, steps, j, a, o, states[i].cache[o].command) && a in states[i].claims
      && (states[i].cache[o].command == states[i].claims[a].command <==> states[j].commands[o] == states[j].claims[a].command)
  {
    j := RecordNoted(states, steps, i, o);
    hide Inv, Next, Enabled, IsInit, IsRun;
    ClaimsStay(states, steps, j, i, states[i].cache[o].a);
  }

  /** Only a keep that found everything as it was adds a record, of what it keeps. */
  lemma RecordsAnew(t: Tree, step: Step, o: Path)
    requires Inv(t) && Enabled(t, step)
    requires o in Next(t, step).cache && !(o in t.cache && t.cache[o] == Next(t, step).cache[o])
    ensures var kept := Next(t, step).cache[o];
      && kept.Of? && kept.a in t.keeps && t.keeps[kept.a].output == o && t.keeps[kept.a].command == kept.command
  {
    if step.Settle? {
      SettleLeavesCache(t, step.a, step.ok, step.canceled, step.inputs, step.made);
    } else if step.Open? {
      OpenLeavesCache(t, step.output, step.made);
    }
    hide Inv, AfterOpen, AfterSettle;
  }

  /** A build under way as its rule changes, kept before what the change is to invalidate has been. */
  function KeptTooSoon(o: Path, later: Command): seq<Step> {
    [Start(o, 1), ApplyRules(map[o := later], {}, 7), Step.Record(1, []), Write(1), Settle(1, true, false, [], 2),
     Release(1), Check(1, true), Store(1, true, true)]
  }

  /** The states of that run, from a tree with the one output `o`, to be built by `command`. */
  function KeptState(o: Path, command: Command, later: Command, k: nat): Tree {
    Tree(
      map[o := if k < 2 then command else later],
      if k == 0 then {o} else {},
      if 1 <= k < 5 then {o} else {},
      {},
      if k == 0 then map[] else map[o := Attempts(Some(1), None, 0)],
      map[],
      if k < 3 then map[] else map[o := []],
      if k == 3 then Some(1) else None,
      if 1 <= k < 5 then map[1 := Build(o, if k < 3 then Launched else if k == 3 then Stage.Recorded else Stage.Written)] else map[],
      if k == 5 then {1} else {},
      if k < 6 then multiset{} else multiset{1},
      if k == 0 then map[] else map[1 := Claim(o, 0, command)],
      if k == 0 then map[] else map[1 := o],
      if k < 5 then {} else {1},
      map[o := if k < 4 then Placeholder else Built(1)],
      if k < 3 then map[] else map[o := Built(1)],
      if 3 <= k < 8 then map[1 := Claim(o, 0, later)] else map[],
      if k == 7 then Some(Keeping(1, true)) else None,
      if k < 8 then map[] else map[o := Of(1, later)],
      if k < 2 then map[] else map[7 := map[]],
      map[],
      {},
      if k < 2 then {} else {o})
  }

  ghost predicate StepsTo(t: Tree, step: Step, u: Tree) {
    Enabled(t, step) && Next(t, step) == u
  }

  lemma KeptStart(o: Path, command: Command, later: Command)
    ensures StepsTo(KeptState(o, command, later, 0), Start(o, 1), KeptState(o, command, later, 1))
  {
  }

  lemma KeptRules(o: Path, command: Command, later: Command)
    requires command != later
    ensures StepsTo(KeptState(o, command, later, 1), ApplyRules(map[o := later], {}, 7), KeptState(o, command, later, 2))
  {
    var t := KeptState(o, command, later, 1);
    OneRuleChanges(t, o, later);
    RulesStep(t, map[o := later], {}, 7);
    hide Next, Enabled, AfterRules;
  }

  lemma RulesStep(t: Tree, commands: map<Path, Command>, watched: set<Path>, id: int)
    requires t.layout.None? && id !in t.forgets && watched <= commands.Keys - t.commands.Keys
    ensures Enabled(t, ApplyRules(commands, watched, id)) && Next(t, ApplyRules(commands, watched, id)) == AfterRules(t, commands, watched, id)
  {
    hide AfterRules;
  }

  lemma OneRuleChanges(t: Tree, o: Path, later: Command)
    requires t.commands.Keys == t.served.Keys == {o} && t.commands[o] != later
    ensures AfterRules(t, map[o := later], {}, 7)
      == t.(commands := map[o := later], forgets := t.forgets[7 := map[]], changed := t.changed + {o})
  {
    var commands := map[o := later];
    BumpNone(t.invalidations);
    assert t.commands.Keys - commands.Keys == {} && commands.Keys - t.commands.Keys == {};
    assert ChangedOf(t.commands, commands) == {o};
    hide Bump, ChangedOf, CountOf;
    NoneTaken(t.attempts, {} - t.inFlight);
    NoneTaken(t.dependencies, {});
    NoneTaken(t.recorded, {});
    assert t.stale - {} + {} == t.stale && t.materialized - {} + {} == t.materialized && t.changed - {} + {o} == t.changed + {o};
    assert (map p: Path | p in {} :: CountOf(t.invalidations, p)) == map[];
    assert (map p | p in commands :: if p in t.commands && p in t.served then t.served[p] else Placeholder) == t.served;
  }

  lemma NoneTaken<V>(m: map<Path, V>, none: set<Path>)
    requires none == {}
    ensures m - none == m
  {
  }

  lemma BumpNone(counts: map<Path, nat>)
    ensures Bump(counts, {}) == counts
  {
  }

  lemma KeptFinish(o: Path, command: Command, later: Command)
    requires later.action != Action.Tracing
    ensures StepsTo(KeptState(o, command, later, 2), Step.Record(1, []), KeptState(o, command, later, 3))
    ensures StepsTo(KeptState(o, command, later, 3), Write(1), KeptState(o, command, later, 4))
  {
  }

  lemma KeptSettle(o: Path, command: Command, later: Command)
    ensures StepsTo(KeptState(o, command, later, 4), Settle(1, true, false, [], 2), KeptState(o, command, later, 5))
    ensures StepsTo(KeptState(o, command, later, 5), Release(1), KeptState(o, command, later, 6))
  {
  }

  lemma KeptStored(o: Path, command: Command, later: Command)
    ensures StepsTo(KeptState(o, command, later, 6), Check(1, true), KeptState(o, command, later, 7))
    ensures StepsTo(KeptState(o, command, later, 7), Store(1, true, true), KeptState(o, command, later, 8))
  {
  }

  /** So a record may have a command its build was not run by, for as long as its invalidation is due. */
  lemma KeptUnderAnother(o: Path, command: Command, later: Command) returns (states: seq<Tree>)
    requires command != later && command.action != Action.Tracing && later.action != Action.Tracing
    ensures IsRun(states, KeptTooSoon(o, later)) && |states| == 9
    ensures var t := states[8];
      t.cache == map[o := Of(1, later)] && 1 in t.claims && t.claims[1].command == command && o in t.changed
  {
    hide Next, Enabled, IsInit, IsRun, StepsTo, KeptState;
    KeptStart(o, command, later);
    KeptRules(o, command, later);
    KeptFinish(o, command, later);
    KeptSettle(o, command, later);
    KeptStored(o, command, later);
    KeptEnds(o, command, later);
    states := seq(9, k requires 0 <= k < 9 => KeptState(o, command, later, k));
    RunOf(states, KeptTooSoon(o, later));
  }

  lemma RunOf(states: seq<Tree>, steps: seq<Step>)
    requires |states| == |steps| + 1 && IsInit(states[0])
    requires forall i :: 0 <= i < |steps| ==> StepsTo(states[i], steps[i], states[i + 1])
    ensures IsRun(states, steps)
  {
    hide Next, Enabled, IsInit;
    forall i | 0 <= i < |steps| ensures Enabled(states[i], steps[i]) && states[i + 1] == Next(states[i], steps[i]) {
      assert StepsTo(states[i], steps[i], states[i + 1]);
    }
  }

  lemma KeptEnds(o: Path, command: Command, later: Command)
    ensures IsInit(KeptState(o, command, later, 0))
    ensures var t := KeptState(o, command, later, 8);
      t.cache == map[o := Of(1, later)] && t.claims == map[1 := Claim(o, 0, command)] && t.changed == {o}
  {
  }

  /** An invalidation marks all it is asked for, and all that read what it marks. */
  lemma InvalidateMarksReaders(t: Tree, from: seq<Path>, id: int, o: Path, reader: Path)
    requires o in t.commands && reader in t.commands && reader in t.dependencies && AsInput(o) in t.dependencies[reader]
    requires o in Affected(t, from)
    ensures reader in Affected(t, from) && reader in AfterInvalidate(t, from, id).stale
    ensures CountAt(AfterInvalidate(t, from, id), reader) == CountAt(t, reader) + 1
  {
    DependentsOfIsInverse(t.dependencies);
    ReachedNext(t.commands.Keys, ReadersOf(t), from, o, reader);
  }
}
