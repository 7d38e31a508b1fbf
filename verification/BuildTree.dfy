/** The build tree's bookkeeping as a machine: every critical section a step, in every interleaving. */
module BuildTree {
  import opened Paths
  import opened Wrappers
  import opened Manifest
  import opened Expand
  import opened DependencyIndex

  type AttemptId = int

  /** Whose build of an output is current, done or not, and whose is to follow for the sake of a change meanwhile. */
  datatype Attempts = Attempts(current: Option<AttemptId>, next: Option<AttemptId>, claim: nat)

  /** How far the finish of a build has got: its inputs recorded, and then its bytes in place. */
  datatype Stage = Launched | Recorded | Written

  datatype Build = Build(output: Path, stage: Stage)

  /** Where what is served, or recorded as read, comes from. */
  datatype Origin = Placeholder | Restored | Built(attempt: AttemptId)

  /** The output a build is of, the count of its invalidations and its command: as it was claimed, or as they are kept. */
  datatype Claim = Claim(output: Path, count: nat, command: Command)

  /** What the cache records of an output: a build of an earlier run, or one of this, with the command it was kept under. */
  datatype Kept = Before | Of(a: AttemptId, command: Command)

  /** A keep under way holds the cache's lock; `keepable` is what it found of the counts under the other. */
  datatype Keeping = Keeping(a: AttemptId, keepable: bool)

  /** `toComplete` are attempts whose waiters are to be released; `forgets` are drops from the cache still to
      be made; `created`, the output each attempt is for; `changed`, outputs whose command changed, still to be invalidated. */
  datatype Tree = Tree(
    commands: map<Path, Command>,
    stale: set<Path>,
    inFlight: set<Path>,
    materialized: set<Path>,
    attempts: map<Path, Attempts>,
    invalidations: map<Path, nat>,
    dependencies: map<Path, seq<Path>>,
    layout: Option<AttemptId>,
    underWay: map<AttemptId, Build>,
    toComplete: set<AttemptId>,
    completions: multiset<AttemptId>,
    claims: map<AttemptId, Claim>,
    created: map<AttemptId, Path>,
    succeeded: set<AttemptId>,
    served: map<Path, Origin>,
    recorded: map<Path, Origin>,
    keeps: map<AttemptId, Claim>,
    keeping: Option<Keeping>,
    cache: map<Path, Kept>,
    forgets: map<int, map<Path, nat>>,
    dropped: map<Path, nat>,
    failed: set<Path>,
    changed: set<Path>)

  datatype Step =
    | Open(output: Path, made: AttemptId)
    | Start(output: Path, made: AttemptId)             // an eager rebuild
    | Record(a: AttemptId, inputs: seq<Path>)           // a success: its inputs, under both locks
    | Write(a: AttemptId)                               // then its bytes, under the layout's
    | Settle(a: AttemptId, ok: bool, canceled: bool, inputs: seq<Path>, made: AttemptId)
    | Release(a: AttemptId)                             // its waiters get its result
    | Check(a: AttemptId, known: bool)                  // a keep takes the cache's lock, and looks at the counts and hashes
    | Store(a: AttemptId, stamped: bool, ok: bool)      // then at the stamps of sources, and stores, or drops, the record
    | Invalidate(from: seq<Path>, id: int)
    | Forget(id: int, ok: bool)                         // the drop that follows, if it succeeds
    | ApplyRules(commands: map<Path, Command>, watched: set<Path>, id: int)

  // ---- The steps -------------------------------------------------------------------------------

  function CountAt(t: Tree, output: Path): nat {
    CountOf(t.invalidations, output)
  }

  function AttemptsAt(t: Tree, output: Path): Attempts {
    if output in t.attempts then t.attempts[output] else Attempts(None, None, 0)
  }

  /** What `claim_build` is given: a declared, stale output that is not being built. */
  predicate Claimable(t: Tree, output: Path) {
    output in t.commands && output in t.stale && output !in t.inFlight
  }

  /** A build begins, its attempt the one made to be next, if there is one. */
  function Claimed(t: Tree, output: Path, made: AttemptId): Tree
    requires output in t.commands
  {
    var a := if AttemptsAt(t, output).next.Some? then AttemptsAt(t, output).next.value else made;
    t.(attempts := t.attempts[output := Attempts(Some(a), None, CountAt(t, output))],
       stale := t.stale - {output},
       inFlight := t.inFlight + {output},
       underWay := t.underWay[a := Build(output, Launched)],
       claims := t.claims[a := Claim(output, CountAt(t, output), t.commands[output])],
       created := t.created[a := output])
  }

  /** An open of a declared output counts it as opened; a trace not being taken is taken again. */
  function Opened(t: Tree, output: Path): Tree
    requires output in t.commands
  {
    var traced := t.commands[output].action == Action.Tracing && output !in t.inFlight;
    t.(materialized := t.materialized + {output},
       stale := if traced then t.stale + {output} else t.stale,
       attempts := t.attempts[output := AttemptsAt(t, output)])
  }

  /** What an open that came after a change is to wait on. */
  function WithNext(t: Tree, output: Path, made: AttemptId): Tree {
    t.(attempts := t.attempts[output := AttemptsAt(t, output).(next := Some(made))], created := t.created[made := output])
  }

  /** An open of an output: what is to be built is, and what changed while being built is to be built next. */
  function AfterOpen(t: Tree, output: Path, made: AttemptId): Tree {
    if output !in t.commands then t
    else
      var u := Opened(t, output);
      if output in u.inFlight then
        if output in u.stale && AttemptsAt(u, output).next.None? then WithNext(u, output, made) else u
      else if output in u.stale then Claimed(u, output, made)
      else u
  }

  /** The attempt an open is to wait on; none if its output is up to date, or not declared. */
  function OpenTarget(t: Tree, output: Path, made: AttemptId): Option<AttemptId> {
    var u := AfterOpen(t, output, made);
    if output !in t.commands then None
    else if output in t.inFlight then
      if output in t.stale then AttemptsAt(u, output).next else AttemptsAt(u, output).current
    else if output in u.inFlight then AttemptsAt(u, output).current
    else None
  }

  function AfterRecord(t: Tree, a: AttemptId, inputs: seq<Path>): Tree
    requires a in t.underWay
  {
    var output := t.underWay[a].output;
    var declared := output in t.commands;
    t.(layout := Some(a), underWay := t.underWay[a := Build(output, Recorded)],
       dependencies := if declared then t.dependencies[output := inputs] else t.dependencies,
       recorded := if declared then t.recorded[output := Built(a)] else t.recorded,
       keeps := if declared && t.commands[output].action != Action.Tracing
                then t.keeps[a := Claim(output, AttemptsAt(t, output).claim, t.commands[output])] else t.keeps)
  }

  function AfterWrite(t: Tree, a: AttemptId): Tree
    requires a in t.underWay
  {
    var output := t.underWay[a].output;
    t.(layout := None, underWay := t.underWay[a := Build(output, Written)],
       served := if output in t.commands then t.served[output := Built(a)] else t.served)
  }

  /** A failure that read something notes what; the build is no longer in flight. */
  function Settling(t: Tree, a: AttemptId, ok: bool, inputs: seq<Path>): Tree
    requires a in t.underWay
  {
    var output := t.underWay[a].output;
    var noted := !ok && output in t.commands && inputs != [];
    t.(dependencies := if noted then t.dependencies[output := inputs] else t.dependencies,
       recorded := if noted then t.recorded[output := Built(a)] else t.recorded,
       inFlight := t.inFlight - {output},
       underWay := t.underWay - {a},
       toComplete := t.toComplete + {a},
       succeeded := if ok then t.succeeded + {a} else t.succeeded)
  }

  /** Whether an output settling is to be built again at once. */
  predicate Rebuilds(t: Tree, output: Path, ok: bool, canceled: bool) {
    AttemptsAt(t, output).next.Some?
    || (output in t.stale && (ok || !canceled) && output in t.materialized)
  }

  function AfterSettle(t: Tree, a: AttemptId, ok: bool, canceled: bool, inputs: seq<Path>, made: AttemptId): Tree
    requires a in t.underWay
  {
    var output := t.underWay[a].output;
    var u := Settling(t, a, ok, inputs);
    if output !in t.commands then
      // No longer declared, so there is to be no next build: its attempt, if made, is over too.
      var next := AttemptsAt(t, output).next;
      u.(toComplete := u.toComplete + (if next.Some? then {next.value} else {}), attempts := u.attempts - {output})
    else
      var v := u.(stale := if ok then u.stale else u.stale + {output});
      if Rebuilds(t, output, ok, canceled) then Claimed(v, output, made) else v
  }

  function AfterStore(t: Tree, k: Keeping, stamped: bool, ok: bool): Tree
    requires k.a in t.keeps
  {
    var keep := t.keeps[k.a];
    t.(keeping := None, keeps := t.keeps - {k.a},
       cache := if !ok then t.cache
                else if k.keepable && stamped then t.cache[keep.output := Of(k.a, keep.command)]
                else t.cache - {keep.output})
  }

  ghost function ReadersOf(t: Tree): map<Path, set<Path>> {
    DependentsOf(t.dependencies)
  }

  /** What an invalidation of `from` marks. */
  ghost function Affected(t: Tree, from: seq<Path>): set<Path> {
    set o | o in t.commands && Reached(t.commands.Keys, ReadersOf(t), from, o)
  }

  function Bump(counts: map<Path, nat>, outputs: set<Path>): map<Path, nat> {
    map o | o in counts.Keys + outputs :: CountOf(counts, o) + if o in outputs then 1 else 0
  }

  ghost function AfterInvalidate(t: Tree, from: seq<Path>, id: int): Tree {
    var seen := Affected(t, from);
    var counts := Bump(t.invalidations, seen);
    t.(stale := t.stale + seen, invalidations := counts, changed := t.changed - seen,
       forgets := t.forgets[id := map o | o in seen :: CountOf(counts, o)])
  }

  function AfterForget(t: Tree, id: int, ok: bool): Tree
    requires id in t.forgets
  {
    var gone := t.forgets[id];
    t.(forgets := t.forgets - {id},
       cache := if ok then t.cache - gone.Keys else t.cache,
       dropped := if ok then Raised(t.dropped, gone) else t.dropped,
       failed := if ok then t.failed else t.failed + gone.Keys)
  }

  function Raised(counts: map<Path, nat>, least: map<Path, nat>): map<Path, nat> {
    map o | o in counts.Keys + least.Keys :: if o in least && least[o] > CountOf(counts, o) then least[o] else CountOf(counts, o)
  }

  /** The outputs that stay, with another command. */
  function ChangedOf(before: map<Path, Command>, after: map<Path, Command>): set<Path> {
    set o | o in after && o in before && before[o] != after[o]
  }

  /** The rules change: outputs come, unbuilt, and go. `watched` are those added that count as opened. */
  function AfterRules(t: Tree, commands: map<Path, Command>, watched: set<Path>, id: int): Tree {
    var removed, added := t.commands.Keys - commands.Keys, commands.Keys - t.commands.Keys;
    var counts := Bump(t.invalidations, removed);
    t.(commands := commands,
       stale := t.stale - removed + added,
       materialized := t.materialized - removed + watched,
       attempts := t.attempts - (removed - t.inFlight),
       invalidations := counts,
       dependencies := t.dependencies - removed,
       served := map o | o in commands :: if o in t.commands && o in t.served then t.served[o] else Placeholder,
       recorded := t.recorded - removed,
       changed := t.changed - removed + ChangedOf(t.commands, commands),
       forgets := t.forgets[id := map o | o in removed :: CountOf(counts, o)])
  }

  /** When each step may be taken. */
  ghost predicate Enabled(t: Tree, step: Step) {
    match step
    case Open(_, made) => made !in t.created
    case Start(output, made) => made !in t.created
    case Record(a, _) => a in t.underWay && t.underWay[a].stage == Launched && t.layout.None?
    case Write(a) => a in t.underWay && t.underWay[a].stage == Recorded && t.layout == Some(a)
    case Settle(a, ok, _, _, made) =>
      a in t.underWay && t.underWay[a].stage == (if ok then Written else Launched) && made !in t.created
    case Release(a) => a in t.toComplete
    case Check(a, _) => a in t.keeps && t.completions[a] > 0 && t.keeping.None?
    case Store(a, _, _) => a in t.keeps && t.keeping.Some? && t.keeping.value.a == a
    case Invalidate(_, id) => id !in t.forgets
    case Forget(id, _) => id in t.forgets && t.keeping.None?
    case ApplyRules(commands, watched, id) => t.layout.None? && id !in t.forgets && watched <= commands.Keys - t.commands.Keys
  }

  ghost function Next(t: Tree, step: Step): Tree
    requires Enabled(t, step)
  {
    match step
    case Open(output, made) => AfterOpen(t, output, made)
    case Start(output, made) => if Claimable(t, output) then Claimed(t, output, made) else t
    case Record(a, inputs) => AfterRecord(t, a, inputs)
    case Write(a) => AfterWrite(t, a)
    case Settle(a, ok, canceled, inputs, made) => AfterSettle(t, a, ok, canceled, inputs, made)
    case Release(a) => t.(toComplete := t.toComplete - {a}, completions := t.completions + multiset{a})
    case Check(a, known) =>
      t.(keeping := Some(Keeping(a, known && CountAt(t, t.keeps[a].output) == t.keeps[a].count)))
    case Store(a, stamped, ok) => AfterStore(t, t.keeping.value, stamped, ok)
    case Invalidate(from, id) => AfterInvalidate(t, from, id)
    case Forget(id, ok) => AfterForget(t, id, ok)
    case ApplyRules(commands, watched, id) => AfterRules(t, commands, watched, id)
  }

  /** A tree just made: some of what it declares restored, the rest to be built. */
  ghost predicate IsInit(t: Tree) {
    && t.stale <= t.commands.Keys && t.served.Keys == t.commands.Keys && (forall o :: o in t.served ==> !t.served[o].Built?)
    && (forall o :: o in t.recorded ==> !t.recorded[o].Built?)
    && (forall o :: o in t.commands && o !in t.stale ==> t.served[o] == Restored && o in t.recorded && t.recorded[o] == Restored)
    && t.inFlight == {} && t.materialized == {} && t.attempts == map[] && t.invalidations == map[]
    && t.layout.None? && t.underWay == map[] && t.toComplete == {} && t.completions == multiset{}
    && t.claims == map[] && t.created == map[] && t.succeeded == {}
    && t.keeps == map[] && t.keeping.None? && t.forgets == map[] && t.dropped == map[] && t.failed == {} && t.changed == {}
    && forall o :: o in t.cache ==> t.cache[o] == Before
  }
}
