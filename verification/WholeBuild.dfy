/** The tree and the coordinator as one machine: what the tree asks of the coordinator is always to be had. */
module WholeBuild {
  import opened Paths
  import opened Wrappers
  import opened Expand
  import opened BuildAttempts
  import T = BuildTree
  import I = BuildTreeInvariant
  import opened BuildTreeLaw
  import C = CoordinatorModel
  import P = Permits
  import V = PermitsInvariant
  import R = PermitsRuns

  datatype Whole = Whole(t: Tree, s: System)

  /** A step of the coordinator or its queue, or one of the tree; `work` is what the attempt a release completes came to. */
  datatype Step = Own(own: P.Step) | Trees(step: T.Step, work: C.Code)

  // ---- The machine -----------------------------------------------------------------------------

  /** An attempt that is over without having gone is never to go. */
  function Retires(s: System, a: AttemptId): seq<P.Step> {
    if a in s.c.attempts && a in s.requests && Unstarted(s, a) then [P.Retire(a)] else []
  }

  /** A claim takes the attempt that waits to be next, or has one made. */
  function Creates(t: Tree, output: Path, made: AttemptId): seq<P.Step> {
    if T.AttemptsAt(t, output).next.None? then [P.Create(made, output, None)] else []
  }

  function AskedByOpen(t: Tree, output: Path, made: AttemptId): seq<P.Step> {
    if output !in t.commands then []
    else if output in t.inFlight then
      if output in t.stale && T.AttemptsAt(t, output).next.None? then [P.Create(made, output, T.AttemptsAt(t, output).current)] else []
    else if output in T.Opened(t, output).stale then Creates(t, output, made)
    else []
  }

  /** What settling asks for, once the attempt settling has been seen to. */
  function AskedThen(t: Tree, s: System, output: Path, ok: bool, canceled: bool, made: AttemptId): seq<P.Step> {
    var next := T.AttemptsAt(t, output).next;
    if output !in t.commands then (if next.Some? then Retires(s, next.value) else [])
    else if T.Rebuilds(t, output, ok, canceled) then Creates(t, output, made)
    else []
  }

  function AskedBySettle(t: Tree, s: System, a: AttemptId, ok: bool, canceled: bool, made: AttemptId): seq<P.Step>
    requires a in t.underWay
  {
    Retires(s, a) + AskedThen(t, s, t.underWay[a].output, ok, canceled, made)
  }

  /** What a step of the tree asks of the coordinator, in order. */
  function Asked(w: Whole, step: T.Step, work: C.Code): seq<P.Step>
    requires step.Settle? ==> step.a in w.t.underWay
  {
    match step
    case Open(output, made) => AskedByOpen(w.t, output, made)
    case Start(output, made) => if T.Claimable(w.t, output) then Creates(w.t, output, made) else []
    case Settle(a, ok, canceled, _, made) => AskedBySettle(w.t, w.s, a, ok, canceled, made)
    case Release(a) => [P.Finished(a, work)]
    case _ => []
  }

  ghost predicate MayTake(s: System, steps: seq<P.Step>)
    decreases |steps|
  {
    steps == [] || (P.Enabled(s, steps[0]) && MayTake(P.Next(s, steps[0]), steps[1..]))
  }

  ghost function Taken(s: System, steps: seq<P.Step>): System
    requires MayTake(s, steps)
    decreases |steps|
  {
    if steps == [] then s else Taken(P.Next(s, steps[0]), steps[1..])
  }

  /** An attempt runs once launched; its build goes on once it has come back, and with an output only if not doomed; what its
      waiters are told is whether it succeeded. */
  ghost predicate Enabled(w: Whole, step: Step) {
    match step
    case Own(own) =>
      && P.Enabled(w.s, own) && IsOwn(own)
      && (own.Start? ==> own.a in w.t.underWay && w.t.underWay[own.a].stage == T.Launched)
    case Trees(tree, work) =>
      && T.Enabled(w.t, tree)
      && (tree.Record? || tree.Settle? ==> tree.a in w.s.c.attempts && tree.a in w.s.requests && Returned(w.s, tree.a))
      && (tree.Record? ==> !w.s.c.attempts[tree.a].doomed)
      && (tree.Release? ==> (work == C.Success <==> tree.a in w.t.succeeded))
  }

  /** What a step of the tree asks for is not among its conditions: that it can be had is what is shown. */
  ghost predicate Goes(w: Whole, step: Step, v: Whole)
    requires Enabled(w, step)
  {
    match step
    case Own(own) => v == w.(s := P.Next(w.s, own))
    case Trees(tree, work) =>
      var asked := Asked(w, tree, work);
      MayTake(w.s, asked) && v == Whole(T.Next(w.t, tree), Taken(w.s, asked))
  }

  // ---- What the two keep between them ----------------------------------------------------------

  /** What is served was built by an attempt that came back, and was not doomed. */
  predicate ServedOk(t: Tree, s: System, o: Path)
    requires o in t.served
  {
    t.served[o].Built? ==>
      var a := t.served[o].attempt;
      && a in s.c.attempts && !s.c.attempts[a].doomed
      && a in t.claims && !(a in t.underWay && t.underWay[a].stage == T.Launched)
  }

  /** Nor is what is about to be served doomed. */
  predicate ComingOk(t: Tree, s: System, a: AttemptId)
    requires a in t.underWay
  {
    t.underWay[a].stage != T.Launched ==> a in s.c.attempts && !s.c.attempts[a].doomed
  }

  ghost predicate Undoomed(t: Tree, s: System) {
    && (forall o :: o in t.served ==> ServedOk(t, s, o))
    && (forall a :: a in t.underWay ==> ComingOk(t, s, a))
  }

  /** A next attempt waits behind the one under way, unless that had ended by then. */
  predicate FollowsAt(t: Tree, s: System, o: Path)
    requires o in t.attempts && t.attempts[o].next.Some?
  {
    var x := t.attempts[o];
    && x.current.Some? && x.current.value in s.c.attempts && x.next.value in s.c.attempts
    && (s.c.attempts[x.next.value].predecessor == x.current || s.c.attempts[x.current.value].phase == C.Ended)
  }

  ghost predicate Follows(t: Tree, s: System) {
    forall o :: o in t.attempts && t.attempts[o].next.Some? ==> FollowsAt(t, s, o)
  }

  ghost predicate Joint(t: Tree, s: System) {
    Owned(t) && Agree(t, s) && Undoomed(t, s) && Follows(t, s)
  }

  ghost predicate WholeInv(w: Whole, n: nat) {
    I.Inv(w.t) && V.SystemInv(w.s, n) && Joint(w.t, w.s)
  }

  // ---- Steps asked for, one after another ------------------------------------------------------

  lemma TakesOne(s: System, step: P.Step)
    requires P.Enabled(s, step)
    ensures MayTake(s, [step]) && Taken(s, [step]) == P.Next(s, step)
  {
    assert [step][1..] == [];
    assert MayTake(P.Next(s, step), []);
    assert Taken(P.Next(s, step), []) == P.Next(s, step);
    hide P.Enabled, P.Next;
  }

  lemma {:induction false} TakesBoth(s: System, first: seq<P.Step>, rest: seq<P.Step>)
    requires MayTake(s, first) && MayTake(Taken(s, first), rest)
    ensures MayTake(s, first + rest) && Taken(s, first + rest) == Taken(Taken(s, first), rest)
    decreases |first|
  {
    hide P.Enabled, P.Next;
    if first == [] {
      assert first + rest == rest;
    } else {
      TakesBoth(P.Next(s, first[0]), first[1..], rest);
      assert (first + rest)[1..] == first[1..] + rest;
    }
  }

  lemma {:induction false} TakenKeeps(s: System, n: nat, steps: seq<P.Step>)
    requires V.SystemInv(s, n) && MayTake(s, steps)
    ensures V.SystemInv(Taken(s, steps), n)
    decreases |steps|
  {
    hide P.Enabled, P.Next, V.SystemInv;
    if steps != [] {
      R.StepKeeps(s, n, steps[0]);
      TakenKeeps(P.Next(s, steps[0]), n, steps[1..]);
    }
  }

  lemma Known(s: System, n: nat)
    requires V.SystemInv(s, n)
    ensures P.Tracked(s) && forall a :: a in s.drained ==> a in s.c.attempts
  {
  }

  lemma RetiresTaken(s: System, n: nat, a: AttemptId)
    requires V.SystemInv(s, n) && a in s.c.attempts && a in s.requests
    ensures MayTake(s, Retires(s, a))
    ensures var u := Taken(s, Retires(s, a));
      u.c == s.c && u.drained == s.drained && u.requests == if Unstarted(s, a) then s.requests[a := P.Abandoned] else s.requests
  {
    Known(s, n);
    if Unstarted(s, a) {
      TakesOne(s, P.Retire(a));
    }
  }

  // ---- Places that change ----------------------------------------------------------------------

  /** No attempt is put in a place but those of `but`, and every output keeps its next, or has none. */
  ghost predicate SamePlacesBut(t: Tree, u: Tree, but: set<AttemptId>) {
    && (forall a :: a in u.underWay && a !in but ==> a in t.underWay && t.underWay[a] == u.underWay[a])
    && (forall a :: I.IsNext(u, a) && a !in but ==> I.IsNext(t, a))
    && (forall a :: a in u.toComplete && a !in but ==> a in t.toComplete)
    && (forall a :: a !in but ==> u.completions[a] == t.completions[a])
  }

  /** `a` is over, or about to be: it is to be completed, and never goes if it has not gone. */
  lemma EndsOne(t: Tree, u: Tree, s: System, n: nat, a: AttemptId)
    requires Agree(t, s) && V.SystemInv(s, n) && a in t.created && Returned(s, a)
    requires u.created == t.created && SamePlacesBut(t, u, {a})
    requires a !in u.underWay && !I.IsNext(u, a) && u.completions == t.completions
    ensures MayTake(s, Retires(s, a)) && Agree(u, Taken(s, Retires(s, a)))
    ensures Taken(s, Retires(s, a)).c == s.c
    ensures forall b :: b in t.created && b != a && Unstarted(s, b) ==> b in Taken(s, Retires(s, a)).requests && Unstarted(Taken(s, Retires(s, a)), b)
  {
    RetiresTaken(s, n, a);
    hide V.SystemInv, MayTake, Taken, Agree, Returned, SamePlacesBut;
    EndedAgrees(t, u, s, Taken(s, Retires(s, a)), a);
  }

  lemma EndedAgrees(t: Tree, u: Tree, s: System, v: System, a: AttemptId)
    requires Agree(t, s) && a in t.created && Returned(s, a)
    requires u.created == t.created && SamePlacesBut(t, u, {a})
    requires a !in u.underWay && !I.IsNext(u, a) && u.completions == t.completions
    requires v.c == s.c && v.drained == s.drained
    requires v.requests == if Unstarted(s, a) then s.requests[a := P.Abandoned] else s.requests
    ensures Agree(u, v)
  {
    hide I.IsNext;
    forall b | b in u.created ensures AgreeOn(u, v, b) {
      assert AgreeOn(t, s, b);
    }
  }

  lemma CreateAgrees(t: Tree, u: Tree, s: System, made: AttemptId, output: Path, predecessor: Option<AttemptId>)
    requires Agree(t, s) && I.AttemptOk(t, made) && made !in t.created && P.Enabled(s, P.Create(made, output, predecessor))
    requires predecessor.Some? ==> predecessor.value in s.c.attempts && s.c.attempts[predecessor.value].output == output
    requires u.created == t.created[made := output] && SamePlacesBut(t, u, {made})
    requires u.toComplete == t.toComplete && u.completions == t.completions
    requires made in u.underWay ==> u.underWay[made].stage == T.Launched
    ensures Agree(u, P.Next(s, P.Create(made, output, predecessor)))
  {
    var v := P.Next(s, P.Create(made, output, predecessor));
    assert made !in t.toComplete && t.completions[made] == 0;
    hide I.IsNext, I.AttemptOk;
    forall b | b in u.created ensures AgreeOn(u, v, b) {
      if b != made {
        assert AgreeOn(t, s, b);
      }
    }
  }

  /** What does not change what is asked of the coordinator. */
  lemma QuietAgrees(t: Tree, u: Tree, s: System, but: set<AttemptId>)
    requires Agree(t, s) && u.created == t.created && SamePlacesBut(t, u, but)
    requires u.toComplete == t.toComplete && u.completions == t.completions
    requires forall a :: a in but ==> !I.IsNext(u, a)
    requires forall a :: a in but && a in u.underWay && u.underWay[a].stage != T.Launched ==>
      a in s.c.attempts && a in s.requests && Returned(s, a)
    ensures Agree(u, s)
  {
    hide I.IsNext;
    forall b | b in u.created ensures AgreeOn(u, s, b) {
      assert AgreeOn(t, s, b);
    }
  }

  // ---- Steps of the tree -----------------------------------------------------------------------

  /** Whose waiters a claim is for. */
  lemma ClaimPlaces(t: Tree, output: Path, made: AttemptId)
    requires I.WaitersBut(t, Some(output)) && Owned(t) && T.Claimable(t, output) && made !in t.created
    ensures var u := T.Claimed(t, output, made);
      var a := I.ToClaim(t, output, made);
      && SamePlacesBut(t, u, {a}) && Owned(u) && !I.IsNext(u, a) && a !in t.claims && a !in t.underWay
      && u.created == if T.AttemptsAt(t, output).next.None? then t.created[made := output] else t.created
  {
    var u := T.Claimed(t, output, made);
    var a := I.ToClaim(t, output, made);
    assert I.AttemptOk(t, a);
    assert T.AttemptsAt(t, output).next.Some? ==> I.IsNext(t, a);
    forall b | I.IsNext(u, b) ensures I.IsNext(t, b) && b != a {
      var o :| o in u.attempts && u.attempts[o].next == Some(b);
      assert o != output && t.attempts[o].next == Some(b);
    }
  }

  /** Neither is doomed, nor served, what was not. */
  ghost predicate DoomsNone(s: System, v: System) {
    forall a :: a in s.c.attempts ==> a in v.c.attempts && (v.c.attempts[a].doomed ==> s.c.attempts[a].doomed)
  }

  lemma UndoomedStays(t: Tree, u: Tree, s: System, v: System)
    requires Undoomed(t, s) && DoomsNone(s, v)
    requires forall o :: o in u.served && u.served[o].Built? ==> o in t.served && t.served[o] == u.served[o]
    requires forall a :: a in t.claims ==> a in u.claims
    requires forall a :: a in u.underWay ==>
      (u.underWay[a].stage == T.Launched && a !in t.claims) || (a in t.underWay && t.underWay[a] == u.underWay[a])
    ensures Undoomed(u, v)
  {
    forall o | o in u.served ensures ServedOk(u, v, o) {
      assert o in t.served ==> ServedOk(t, s, o);
    }
    forall a | a in u.underWay ensures ComingOk(u, v, a) {
      assert a in t.underWay ==> ComingOk(t, s, a);
    }
  }

  /** What ended stays so, and what waits behind another does, but for those of `but`. */
  ghost predicate Orders(s: System, v: System, but: set<AttemptId>) {
    forall a :: a in s.c.attempts ==>
      && a in v.c.attempts && (s.c.attempts[a].phase == C.Ended ==> v.c.attempts[a].phase == C.Ended)
      && (a !in but ==> v.c.attempts[a].predecessor == s.c.attempts[a].predecessor)
  }

  lemma FollowsStays(t: Tree, u: Tree, s: System, v: System, but: set<AttemptId>)
    requires Follows(t, s) && Orders(s, v, but) && forall a :: a in but ==> !I.IsNext(u, a)
    requires forall o :: o in u.attempts && u.attempts[o].next.Some? ==> o in t.attempts && t.attempts[o] == u.attempts[o]
    ensures Follows(u, v)
  {
    forall o | o in u.attempts && u.attempts[o].next.Some? ensures FollowsAt(u, v, o) {
      var x := t.attempts[o];
      assert FollowsAt(t, s, o);
      var current: AttemptId, next: AttemptId := x.current.value, x.next.value;
      assert current in s.c.attempts && next in s.c.attempts && I.IsNext(u, next);
    }
  }

  lemma CreateOrders(s: System, made: AttemptId, output: Path, predecessor: Option<AttemptId>)
    requires P.Enabled(s, P.Create(made, output, predecessor))
    ensures Orders(s, P.Next(s, P.Create(made, output, predecessor)), {})
  {
  }

  lemma CreateDoomsNone(s: System, made: AttemptId, output: Path, predecessor: Option<AttemptId>)
    requires P.Enabled(s, P.Create(made, output, predecessor))
    ensures DoomsNone(s, P.Next(s, P.Create(made, output, predecessor)))
  {
  }

  /** A claim has all it asks for, and keeps what the two keep between them. */
  lemma ClaimKeeps(t: Tree, s: System, n: nat, output: Path, made: AttemptId)
    requires I.WaitersBut(t, Some(output)) && Joint(t, s) && V.SystemInv(s, n)
    requires T.Claimable(t, output) && made !in t.created
    ensures MayTake(s, Creates(t, output, made)) && Joint(T.Claimed(t, output, made), Taken(s, Creates(t, output, made)))
  {
    hide V.SystemInv, I.AttemptOk, Undoomed, I.FlightOk, I.NextOk, I.NextsDiffer, I.LayoutOk, MayTake, Taken, P.Next, P.Enabled;
    hide SamePlacesBut, I.IsNext, Agree, Owned;
    var u := T.Claimed(t, output, made);
    var a := I.ToClaim(t, output, made);
    ClaimPlaces(t, output, made);
    if T.AttemptsAt(t, output).next.None? {
      assert I.AttemptOk(t, made);
      assert I.Waiters(t) by { I.SettledKeepsWaiters(t, output); }
      ClaimMayCreate(t, s, n, output, made);
      TakesOne(s, P.Create(made, output, None));
      CreateAgrees(t, u, s, made, output, None);
      CreateDoomsNone(s, made, output, None);
      CreateOrders(s, made, output, None);
      UndoomedStays(t, u, s, P.Next(s, P.Create(made, output, None)));
      FollowsStays(t, u, s, P.Next(s, P.Create(made, output, None)), {});
    } else {
      NothingAsked(s);
      QuietAgrees(t, u, s, {a});
      UndoomedStays(t, u, s, s);
      FollowsStays(t, u, s, s, {});
    }
  }

  /** Changes that move no attempt, or bring one further. */
  lemma QuietKeeps(t: Tree, u: Tree, s: System, but: set<AttemptId>)
    requires Joint(t, s) && u.created == t.created && u.toComplete == t.toComplete && u.completions == t.completions
    requires u.claims == t.claims
    requires forall o :: T.AttemptsAt(u, o).next == T.AttemptsAt(t, o).next
    requires forall o :: T.AttemptsAt(u, o).next.Some? ==> T.AttemptsAt(u, o) == T.AttemptsAt(t, o)
    requires u.underWay.Keys == t.underWay.Keys
    requires forall a :: a in t.underWay ==> u.underWay[a].output == t.underWay[a].output
    requires forall a :: a in t.underWay && a !in but ==> u.underWay[a] == t.underWay[a]
    requires forall a :: a in but ==> a in t.underWay && !I.IsNext(t, a) && a in s.c.attempts && a in s.requests && Returned(s, a)
    requires forall a :: a in but ==> u.underWay[a].stage != T.Launched && !s.c.attempts[a].doomed
    requires forall o :: o in u.served && u.served[o].Built? ==>
      (o in t.served && t.served[o] == u.served[o]) || (u.served[o].attempt in but && u.served[o].attempt in t.claims)
    ensures Joint(u, s)
  {
    I.SameNexts(t, u);
    assert Agree(u, s) by {
      hide I.IsNext, Agree, AgreeOn, Undoomed, Owned, T.AttemptsAt;
      QuietAgrees(t, u, s, but);
    }
    assert Owned(u) by {
      forall o | o in u.attempts && u.attempts[o].next.Some?
        ensures u.attempts[o].next.value in u.created && u.created[u.attempts[o].next.value] == o
      {
        assert T.AttemptsAt(u, o).next == T.AttemptsAt(t, o).next;
      }
    }
    hide I.IsNext, Agree;
    FollowsStays(t, u, s, s, {}) by {
      forall o | o in u.attempts && u.attempts[o].next.Some? ensures o in t.attempts && t.attempts[o] == u.attempts[o] {
        assert T.AttemptsAt(u, o) == T.AttemptsAt(t, o) && T.AttemptsAt(t, o).next.Some?;
      }
    }
    forall o | o in u.served ensures ServedOk(u, s, o) {
      assert o in t.served ==> ServedOk(t, s, o);
    }
    forall a | a in u.underWay ensures ComingOk(u, s, a) {
      assert ComingOk(t, s, a);
    }
  }

  lemma UnderWayIsNotNext(t: Tree, a: AttemptId)
    requires I.Waiters(t) && a in t.underWay
    ensures !I.IsNext(t, a) && a in t.claims && a in t.created && a !in t.toComplete && t.completions[a] == 0
  {
    assert I.AttemptOk(t, a);
  }

  lemma NothingAsked(s: System)
    ensures MayTake(s, []) && Taken(s, []) == s
  {
  }

  lemma RecordKeeps(t: Tree, s: System, a: AttemptId, inputs: seq<Path>)
    requires I.Waiters(t) && Joint(t, s) && T.Enabled(t, T.Step.Record(a, inputs))
    requires a in s.c.attempts && a in s.requests && Returned(s, a) && !s.c.attempts[a].doomed
    ensures Joint(T.AfterRecord(t, a, inputs), s)
  {
    UnderWayIsNotNext(t, a);
    hide Joint, I.Waiters, Returned, I.IsNext;
    QuietKeeps(t, T.AfterRecord(t, a, inputs), s, {a});
  }

  lemma WriteKeeps(t: Tree, s: System, a: AttemptId)
    requires I.Waiters(t) && Joint(t, s) && T.Enabled(t, T.Write(a))
    ensures Joint(T.AfterWrite(t, a), s)
  {
    UnderWayIsNotNext(t, a);
    assert AgreeOn(t, s, a) && ComingOk(t, s, a);
    hide Joint, I.Waiters, Returned, I.IsNext;
    QuietKeeps(t, T.AfterWrite(t, a), s, {a});
  }

  lemma RulesKeep(t: Tree, s: System, commands: map<Path, Command>, watched: set<Path>, id: int)
    requires I.Waiters(t) && Joint(t, s)
    ensures Joint(T.AfterRules(t, commands, watched, id), s)
  {
    I.RulesKeepNexts(t, commands, watched, id);
    hide Joint, I.Waiters, I.IsNext, T.AttemptsAt;
    QuietKeeps(t, T.AfterRules(t, commands, watched, id), s, {});
  }

  lemma OpenedKeeps(t: Tree, s: System, output: Path)
    requires Joint(t, s) && output in t.commands
    ensures Joint(T.Opened(t, output), s)
  {
    hide Joint, I.IsNext;
    QuietKeeps(t, T.Opened(t, output), s, {});
  }

  lemma NextPlaces(t: Tree, output: Path, made: AttemptId)
    requires I.Waiters(t) && Owned(t) && made !in t.created
    ensures var u := T.WithNext(t, output, made);
      SamePlacesBut(t, u, {made}) && Owned(u) && made !in u.underWay
  {
    var u := T.WithNext(t, output, made);
    assert I.AttemptOk(t, made);
    forall b | I.IsNext(u, b) && b != made ensures I.IsNext(t, b) {
      var o :| o in u.attempts && u.attempts[o].next == Some(b);
      assert o != output && t.attempts[o].next == Some(b);
    }
  }

  lemma WithNextKeeps(t: Tree, s: System, n: nat, output: Path, made: AttemptId)
    requires I.Waiters(t) && Joint(t, s) && V.SystemInv(s, n) && made !in t.created
    requires output in t.inFlight && T.AttemptsAt(t, output).next.None?
    ensures var step := P.Create(made, output, T.AttemptsAt(t, output).current);
      P.Enabled(s, step) && Joint(T.WithNext(t, output, made), P.Next(s, step))
  {
    var current := T.AttemptsAt(t, output).current;
    var step := P.Create(made, output, current);
    var u := T.WithNext(t, output, made);
    assert I.AttemptOk(t, made) && I.FlightOk(t, output);
    assert AgreeOn(t, s, current.value);
    NextPlaces(t, output, made);
    NextMayCreate(t, s, n, output, made);
    hide V.SystemInv, I.WaitersBut, I.AttemptOk, I.FlightOk, Undoomed, P.Enabled, P.Next, SamePlacesBut, I.IsNext, Owned;
    CreateDoomsNone(s, made, output, current);
    CreateAgrees(t, u, s, made, output, current);
    UndoomedStays(t, u, s, P.Next(s, step));
    WithNextFollows(t, s, output, made);
  }

  lemma WithNextFollows(t: Tree, s: System, output: Path, made: AttemptId)
    requires Follows(t, s) && T.AttemptsAt(t, output).current.Some? && P.Enabled(s, P.Create(made, output, T.AttemptsAt(t, output).current))
    ensures Follows(T.WithNext(t, output, made), P.Next(s, P.Create(made, output, T.AttemptsAt(t, output).current)))
  {
    var u, v := T.WithNext(t, output, made), P.Next(s, P.Create(made, output, T.AttemptsAt(t, output).current));
    forall o | o in u.attempts && u.attempts[o].next.Some? ensures FollowsAt(u, v, o) {
      assert o != output ==> FollowsAt(t, s, o);
    }
  }

  lemma OpenKeeps(t: Tree, s: System, n: nat, output: Path, made: AttemptId)
    requires I.Waiters(t) && Joint(t, s) && V.SystemInv(s, n) && made !in t.created
    ensures MayTake(s, AskedByOpen(t, output, made))
    ensures Joint(T.AfterOpen(t, output, made), Taken(s, AskedByOpen(t, output, made)))
  {
    NothingAsked(s);
    if output in t.commands {
      var u := T.Opened(t, output);
      OpenedKeeps(t, s, output);
      I.OpenedKeepsWaiters(t, output);
      assert T.AttemptsAt(u, output) == T.AttemptsAt(t, output);
      hide V.SystemInv, Joint, I.WaitersBut, MayTake, Taken, P.Enabled, P.Next, T.WithNext, T.Claimed;
      if output in u.inFlight && output in u.stale && T.AttemptsAt(u, output).next.None? {
        WithNextKeeps(u, s, n, output, made);
        TakesOne(s, P.Create(made, output, T.AttemptsAt(u, output).current));
      } else if output !in u.inFlight && output in u.stale {
        I.WaitersAreWaitersBut(u, output);
        ClaimKeeps(u, s, n, output, made);
      }
    }
  }

  lemma SettlingPlaces(t: Tree, a: AttemptId, ok: bool, inputs: seq<Path>)
    requires I.Waiters(t) && Owned(t) && a in t.underWay
    ensures var u := T.Settling(t, a, ok, inputs);
      SamePlacesBut(t, u, {a}) && Owned(u) && a !in u.underWay && !I.IsNext(u, a)
  {
    UnderWayIsNotNext(t, a);
    I.SameNexts(t, T.Settling(t, a, ok, inputs));
    hide I.WaitersBut;
  }

  lemma EndsKeeps(t: Tree, u: Tree, s: System, n: nat, a: AttemptId)
    requires Joint(t, s) && Owned(u) && V.SystemInv(s, n) && a in t.created && Returned(s, a)
    requires u.created == t.created && SamePlacesBut(t, u, {a})
    requires a !in u.underWay && !I.IsNext(u, a) && u.completions == t.completions
    requires u.served == t.served && u.claims == t.claims && forall b :: b in u.underWay ==> b in t.underWay && t.underWay[b] == u.underWay[b]
    requires forall o :: o in u.attempts && u.attempts[o].next.Some? ==> o in t.attempts && t.attempts[o] == u.attempts[o]
    ensures MayTake(s, Retires(s, a)) && Joint(u, Taken(s, Retires(s, a))) && Taken(s, Retires(s, a)).c == s.c
    ensures forall b :: b in t.created && b != a && Unstarted(s, b) ==> b in Taken(s, Retires(s, a)).requests && Unstarted(Taken(s, Retires(s, a)), b)
  {
    hide V.SystemInv, MayTake, Taken, SamePlacesBut, I.IsNext, Owned, Undoomed, Follows, Agree, Returned, Unstarted;
    EndsOne(t, u, s, n, a);
    UndoomedStays(t, u, s, Taken(s, Retires(s, a)));
    FollowsStays(t, u, s, Taken(s, Retires(s, a)), {});
  }

  lemma SettlingKeeps(t: Tree, s: System, n: nat, a: AttemptId, ok: bool, inputs: seq<Path>)
    requires I.Waiters(t) && Joint(t, s) && V.SystemInv(s, n) && a in t.underWay
    requires a in s.c.attempts && a in s.requests && Returned(s, a)
    ensures MayTake(s, Retires(s, a)) && Joint(T.Settling(t, a, ok, inputs), Taken(s, Retires(s, a))) && Taken(s, Retires(s, a)).c == s.c
    ensures forall b :: b in t.created && b != a && Unstarted(s, b) ==> b in Taken(s, Retires(s, a)).requests && Unstarted(Taken(s, Retires(s, a)), b)
  {
    var u := T.Settling(t, a, ok, inputs);
    SettlingPlaces(t, a, ok, inputs);
    hide V.SystemInv, I.WaitersBut, MayTake, Taken, P.Enabled, P.Next, SamePlacesBut, I.IsNext, Owned, Undoomed, Returned, Unstarted, T.Rebuilds;
    EndsKeeps(t, u, s, n, a);
  }

  lemma OrphanPlaces(t: Tree, output: Path)
    requires I.WaitersBut(t, Some(output)) && Owned(t)
    ensures var u := Orphaned(t, output);
      var next := T.AttemptsAt(t, output).next;
      && Owned(u) && SamePlacesBut(t, u, if next.Some? then {next.value} else {})
      && (next.Some? ==> next.value in t.created && !I.IsNext(u, next.value) && I.IsNext(t, next.value) && next.value !in u.underWay)
  {
    var u := Orphaned(t, output);
    var next := T.AttemptsAt(t, output).next;
    if next.Some? {
      assert I.IsNext(t, next.value);
      assert I.AttemptOk(t, next.value);
    }
    forall b | I.IsNext(u, b) ensures I.IsNext(t, b) && next != Some(b) {
      var o :| o in u.attempts && u.attempts[o].next == Some(b);
      assert o != output && t.attempts[o].next == Some(b);
    }
  }

  lemma OrphanKeeps(t: Tree, s: System, n: nat, output: Path)
    requires I.WaitersBut(t, Some(output)) && Joint(t, s) && V.SystemInv(s, n)
    ensures var next := T.AttemptsAt(t, output).next;
      var steps := if next.Some? then Retires(s, next.value) else [];
      MayTake(s, steps) && Joint(Orphaned(t, output), Taken(s, steps))
  {
    var next := T.AttemptsAt(t, output).next;
    var u := Orphaned(t, output);
    OrphanPlaces(t, output);
    NothingAsked(s);
    hide V.SystemInv, I.WaitersBut, MayTake, Taken, P.Enabled, P.Next, SamePlacesBut, I.IsNext, Owned, Undoomed;
    if next.Some? {
      assert AgreeOn(t, s, next.value);
      EndsKeeps(t, u, s, n, next.value);
    } else {
      QuietAgrees(t, u, s, {});
      UndoomedStays(t, u, s, s);
      FollowsStays(t, u, s, s, {});
    }
  }

  lemma SettledKeeps(t: Tree, s: System, a: AttemptId, ok: bool, inputs: seq<Path>)
    requires a in t.underWay && Joint(T.Settling(t, a, ok, inputs), s)
    ensures Joint(Settled(t, a, ok, inputs), s)
  {
    var u, v := T.Settling(t, a, ok, inputs), Settled(t, a, ok, inputs);
    hide T.Settling, Joint;
    QuietKeeps(u, v, s, {});
  }

  lemma SettledWaits(t: Tree, a: AttemptId, ok: bool, inputs: seq<Path>)
    requires I.Waiters(t) && a in t.underWay && t.underWay[a].stage != T.Recorded
    requires t.underWay[a].output in t.commands
    ensures I.WaitersBut(Settled(t, a, ok, inputs), Some(t.underWay[a].output))
  {
    I.SettlingKeepsWaiters(t, a, ok, inputs);
    hide I.WaitersBut;
    I.StalerKeepsWaiters(T.Settling(t, a, ok, inputs), Settled(t, a, ok, inputs), t.underWay[a].output);
  }

  lemma OrphanIsUnstarted(t: Tree, s: System, a: AttemptId)
    requires I.Waiters(t) && Joint(t, s) && a in t.underWay && T.AttemptsAt(t, t.underWay[a].output).next.Some?
    ensures var next := T.AttemptsAt(t, t.underWay[a].output).next.value;
      next != a && next in t.created && next in s.c.attempts && next in s.requests && Unstarted(s, next)
  {
    var next := T.AttemptsAt(t, t.underWay[a].output).next.value;
    UnderWayIsNotNext(t, a);
    assert I.IsNext(t, next);
    assert AgreeOn(t, s, next);
  }

  lemma RebuildKeeps(t: Tree, s: System, n: nat, a: AttemptId, ok: bool, canceled: bool, inputs: seq<Path>, made: AttemptId)
    requires I.Waiters(t) && V.SystemInv(s, n) && a in t.underWay && t.underWay[a].stage != T.Recorded && made !in t.created
    requires Joint(Settled(t, a, ok, inputs), s)
    requires t.underWay[a].output in t.commands && T.Rebuilds(t, t.underWay[a].output, ok, canceled)
    ensures var output := t.underWay[a].output;
      && MayTake(s, Creates(t, output, made))
      && Joint(T.Claimed(Settled(t, a, ok, inputs), output, made), Taken(s, Creates(t, output, made)))
  {
    var output := t.underWay[a].output;
    var v := Settled(t, a, ok, inputs);
    hide V.SystemInv, Joint, MayTake, Taken, T.Claimed, I.WaitersBut, T.Rebuilds;
    I.RebuildIsClaimable(t, a, ok, canceled, inputs);
    SettledWaits(t, a, ok, inputs);
    ClaimKeeps(v, s, n, output, made);
    assert Creates(v, output, made) == Creates(t, output, made);
  }

  lemma OrphanedKeeps(t: Tree, s: System, n: nat, a: AttemptId, ok: bool, inputs: seq<Path>)
    requires I.Waiters(t) && V.SystemInv(s, n) && a in t.underWay && t.underWay[a].stage != T.Recorded
    requires Joint(T.Settling(t, a, ok, inputs), s)
    ensures var output := t.underWay[a].output;
      var next := T.AttemptsAt(t, output).next;
      var steps := if next.Some? then Retires(s, next.value) else [];
      MayTake(s, steps) && Joint(Orphaned(T.Settling(t, a, ok, inputs), output), Taken(s, steps))
  {
    hide V.SystemInv, Joint, MayTake, Taken, I.WaitersBut, Retires, Orphaned;
    I.SettlingKeepsWaiters(t, a, ok, inputs);
    OrphanKeeps(T.Settling(t, a, ok, inputs), s, n, t.underWay[a].output);
  }

  lemma SettleThenKeeps(t: Tree, s: System, n: nat, a: AttemptId, ok: bool, canceled: bool, inputs: seq<Path>, made: AttemptId)
    requires I.Waiters(t) && V.SystemInv(s, n) && a in t.underWay && t.underWay[a].stage != T.Recorded && made !in t.created
    requires Joint(T.Settling(t, a, ok, inputs), s)
    ensures var more := AskedThen(t, s, t.underWay[a].output, ok, canceled, made);
      MayTake(s, more) && Joint(T.AfterSettle(t, a, ok, canceled, inputs, made), Taken(s, more))
  {
    hide V.SystemInv, Joint, MayTake, Taken, T.Claimed, I.WaitersBut, Retires, T.Rebuilds, Creates, T.AfterSettle, Settled, Orphaned, T.Settling;
    var output := t.underWay[a].output;
    NothingAsked(s);
    SettleIs(t, a, ok, canceled, inputs, made);
    if output !in t.commands {
      OrphanedKeeps(t, s, n, a, ok, inputs);
    } else {
      SettledKeeps(t, s, a, ok, inputs);
      if T.Rebuilds(t, output, ok, canceled) {
        RebuildKeeps(t, s, n, a, ok, canceled, inputs, made);
      }
    }
  }

  lemma AskedThenStays(t: Tree, s: System, u: System, a: AttemptId, ok: bool, canceled: bool, made: AttemptId)
    requires I.Waiters(t) && Joint(t, s) && a in t.underWay && u.c == s.c
    requires forall b :: b in t.created && b != a && Unstarted(s, b) ==> b in u.requests && Unstarted(u, b)
    ensures AskedThen(t, u, t.underWay[a].output, ok, canceled, made) == AskedThen(t, s, t.underWay[a].output, ok, canceled, made)
  {
    if T.AttemptsAt(t, t.underWay[a].output).next.Some? {
      OrphanIsUnstarted(t, s, a);
    }
  }

  lemma SettleKeeps(t: Tree, s: System, n: nat, a: AttemptId, ok: bool, canceled: bool, inputs: seq<Path>, made: AttemptId)
    requires I.Waiters(t) && Joint(t, s) && V.SystemInv(s, n)
    requires a in t.underWay && t.underWay[a].stage != T.Recorded && made !in t.created
    requires a in s.c.attempts && a in s.requests && Returned(s, a)
    ensures MayTake(s, AskedBySettle(t, s, a, ok, canceled, made))
    ensures Joint(T.AfterSettle(t, a, ok, canceled, inputs, made), Taken(s, AskedBySettle(t, s, a, ok, canceled, made)))
  {
    SettlingKeeps(t, s, n, a, ok, inputs);
    var s1 := Taken(s, Retires(s, a));
    TakenKeeps(s, n, Retires(s, a));
    AskedThenStays(t, s, s1, a, ok, canceled, made);
    hide V.SystemInv, Joint, MayTake, Taken, I.WaitersBut, Unstarted, Returned, T.Settling, T.AfterSettle, Retires, T.Rebuilds, AskedThen;
    SettleThenKeeps(t, s1, n, a, ok, canceled, inputs, made);
    TakesBoth(s, Retires(s, a), AskedThen(t, s1, t.underWay[a].output, ok, canceled, made));
  }

  // ---- A completion ----------------------------------------------------------------------------

  lemma CompleteLeaves(c: C.State, a: AttemptId, result: C.Code)
    requires a in c.attempts
    ensures var d := C.Complete(c, a, result).state;
      d.attempts.Keys == c.attempts.Keys && d.attempts[a].result == Some(result) && d.attempts[a].output == c.attempts[a].output
      && d.attempts[a].predecessor.None? && (c.attempts[a].phase == C.Ended ==> d.attempts[a].phase == C.Ended)
      && d.attempts[a].doomed == c.attempts[a].doomed
      && forall b :: b in c.attempts && b != a ==> StateLeavesAt(c, d, None, b)
  {
  }

  lemma CompleteTakesGivenBack(c: C.State, a: AttemptId, result: C.Code)
    requires a in c.attempts
    ensures forall b :: b in C.Complete(c, a, result).effects.reacquires && b in c.attempts ==> c.attempts[b].permit == C.Released
  {
  }

  lemma FinishedIs(s: System, a: AttemptId, work: C.Code)
    requires P.Enabled(s, P.Finished(a, work))
    ensures a in s.c.attempts && a in s.requests && IsOver(s, a)
    ensures P.Next(s, P.Finished(a, work)) == P.Absorb(s, C.Complete(s.c, a, C.ResultOf(s.c.attempts[a], work)))
    ensures P.Next(s, P.Finished(a, work)).c == C.Complete(s.c, a, C.ResultOf(s.c.attempts[a], work)).state
  {
    hide C.Complete, C.ResultOf;
  }

  lemma FinishedLeavesRequests(s: System, n: nat, a: AttemptId, work: C.Code)
    requires V.SystemInv(s, n) && P.Enabled(s, P.Finished(a, work))
    ensures RequestsLeave(s, P.Next(s, P.Finished(a, work)), None)
  {
    FinishedIs(s, a, work);
    var result := C.ResultOf(s.c.attempts[a], work);
    Parts(s, n);
    hide V.SystemInv, V.Slots, V.LinesOk, V.SlotOk, C.AttemptOk, RequestsLeave, P.Absorb, P.Next, P.Enabled, C.Complete, C.ResultOf;
    CompleteTakesGivenBack(s.c, a, result);
    AbsorbLeavesRequests(s, C.Complete(s.c, a, result));
  }

  /** Completing an attempt makes no other start, and brings none back. */
  predicate CompletesAt(s: System, v: System, a: AttemptId, b: AttemptId)
    requires b in s.c.attempts && b in s.requests && b in v.c.attempts && b in v.requests
  {
    if b != a then LeavesAt(s, v, None, b)
    else
      && v.c.attempts[a].result.Some? && IsOver(v, a)
      && v.c.attempts[a].output == s.c.attempts[a].output && v.c.attempts[a].predecessor.None?
      && (s.c.attempts[a].phase == C.Ended ==> v.c.attempts[a].phase == C.Ended)
  }

  ghost predicate Completes(s: System, v: System, a: AttemptId) {
    && s.requests.Keys == s.c.attempts.Keys == v.c.attempts.Keys == v.requests.Keys
    && forall b :: b in s.c.attempts ==> CompletesAt(s, v, a, b)
  }

  lemma FinishedCompletes(s: System, n: nat, a: AttemptId, work: C.Code)
    requires V.SystemInv(s, n) && P.Enabled(s, P.Finished(a, work))
    ensures Completes(s, P.Next(s, P.Finished(a, work)), a)
  {
    Parts(s, n);
    hide V.SystemInv, V.Slots, V.LinesOk, V.SlotOk, C.AttemptOk, P.Next, P.Enabled, C.Complete, C.ResultOf, StateLeavesAt, RequestLeavesAt;
    hide CompletesAt;
    var v := P.Next(s, P.Finished(a, work));
    FinishedIs(s, a, work);
    FinishedLeavesRequests(s, n, a, work);
    CompleteLeaves(s.c, a, C.ResultOf(s.c.attempts[a], work));
    forall b | b in s.c.attempts ensures CompletesAt(s, v, a, b) {
      assert V.SlotOk(s, b) && RequestLeavesAt(s, v, None, b);
      OneCompletes(s, v, a, b);
    }
  }

  lemma OneCompletes(s: System, v: System, a: AttemptId, b: AttemptId)
    requires b in s.c.attempts && b in s.requests && b in v.c.attempts && b in v.requests && s.drained <= v.drained
    requires V.SlotOk(s, b) && RequestLeavesAt(s, v, None, b) && (b != a ==> StateLeavesAt(s.c, v.c, None, b))
    requires b == a ==>
      && IsOver(s, a) && v.c.attempts[a].result.Some? && v.c.attempts[a].output == s.c.attempts[a].output
      && v.c.attempts[a].predecessor.None? && (s.c.attempts[a].phase == C.Ended ==> v.c.attempts[a].phase == C.Ended)
    ensures CompletesAt(s, v, a, b)
  {
  }

  lemma FinishedDoomsNone(s: System, a: AttemptId, work: C.Code)
    requires P.Enabled(s, P.Finished(a, work))
    ensures DoomsNone(s, P.Next(s, P.Finished(a, work)))
  {
  }

  function Released(t: Tree, a: AttemptId): Tree {
    t.(toComplete := t.toComplete - {a}, completions := t.completions + multiset{a})
  }

  lemma CompletesOrders(s: System, v: System, a: AttemptId)
    requires Completes(s, v, a)
    ensures Orders(s, v, {a})
  {
    forall b | b in s.c.attempts
      ensures (s.c.attempts[b].phase == C.Ended ==> v.c.attempts[b].phase == C.Ended)
        && (b != a ==> v.c.attempts[b].predecessor == s.c.attempts[b].predecessor)
    {
      assert CompletesAt(s, v, a, b);
    }
  }

  lemma ReleasedAgrees(t: Tree, s: System, v: System, a: AttemptId)
    requires Agree(t, s) && Completes(s, v, a) && a in t.toComplete && a in t.created && !I.IsNext(t, a) && a !in t.underWay
    ensures Agree(Released(t, a), v)
  {
    var u := Released(t, a);
    I.SameNexts(t, u);
    hide I.IsNext;
    forall b | b in u.created ensures AgreeOn(u, v, b) {
      assert AgreeOn(t, s, b) && CompletesAt(s, v, a, b);
    }
  }

  lemma FinishedIsHad(t: Tree, s: System, n: nat, a: AttemptId, work: C.Code)
    requires I.Waiters(t) && Agree(t, s) && V.SystemInv(s, n) && a in t.toComplete
    ensures P.Enabled(s, P.Finished(a, work)) && a in t.created && !I.IsNext(t, a) && a !in t.underWay
  {
    assert I.AttemptOk(t, a) && AgreeOn(t, s, a);
    Known(s, n);
    hide V.SystemInv, I.WaitersBut;
  }

  lemma ReleaseKeeps(t: Tree, s: System, n: nat, a: AttemptId, work: C.Code)
    requires I.Waiters(t) && Joint(t, s) && V.SystemInv(s, n) && a in t.toComplete
    ensures P.Enabled(s, P.Finished(a, work)) && Joint(Released(t, a), P.Next(s, P.Finished(a, work)))
  {
    hide V.SystemInv, I.IsNext, P.Next, P.Enabled, I.WaitersBut, Agree, Completes, Undoomed;
    FinishedIsHad(t, s, n, a, work);
    var v := P.Next(s, P.Finished(a, work));
    FinishedCompletes(s, n, a, work);
    ReleasedAgrees(t, s, v, a);
    FinishedDoomsNone(s, a, work);
    UndoomedStays(t, Released(t, a), s, v);
    CompletesOrders(s, v, a);
    I.SameNexts(t, Released(t, a));
    FollowsStays(t, Released(t, a), s, v, {a});
  }

  // ---- Steps of the coordinator ----------------------------------------------------------------

  /** What serves has come back. */
  lemma ServedReturned(t: Tree, s: System, a: AttemptId)
    requires I.Waiters(t) && Agree(t, s) && a in t.claims && !(a in t.underWay && t.underWay[a].stage == T.Launched)
    ensures a in s.c.attempts && a in s.requests && Returned(s, a)
  {
    assert I.AttemptOk(t, a);
    assert AgreeOn(t, s, a);
  }

  lemma OwnKeeps(t: Tree, s: System, n: nat, step: P.Step)
    requires I.Waiters(t) && Joint(t, s) && V.SystemInv(s, n) && P.Enabled(s, step) && IsOwn(step)
    requires step.Start? ==> step.a in t.underWay && t.underWay[step.a].stage == T.Launched
    ensures Joint(t, P.Next(s, step))
  {
    var v := P.Next(s, step);
    OwnStepLeaves(s, n, step);
    if step.Start? {
      UnderWayIsNotNext(t, step.a);
    }
    hide V.SystemInv, I.WaitersBut, P.Next, P.Enabled, I.IsNext;
    forall a | a in t.created ensures a in v.c.attempts && a in v.requests && AgreeOn(t, v, a) {
      assert AgreeOn(t, s, a) && LeavesAt(s, v, Started(step), a);
    }
    OwnKeepsUndoomed(t, s, v, Started(step));
    OwnKeepsFollows(t, s, v, Started(step));
  }

  lemma OwnKeepsFollows(t: Tree, s: System, v: System, started: Option<AttemptId>)
    requires Follows(t, s) && Leaves(s, v, started) && (started.Some? ==> !I.IsNext(t, started.value))
    ensures Follows(t, v)
  {
    var but := if started.Some? then {started.value} else {};
    forall a | a in s.c.attempts
      ensures (s.c.attempts[a].phase == C.Ended ==> v.c.attempts[a].phase == C.Ended)
        && (a !in but ==> v.c.attempts[a].predecessor == s.c.attempts[a].predecessor)
    {
      assert LeavesAt(s, v, started, a);
    }
    hide Leaves, Follows;
    FollowsStays(t, t, s, v, but);
  }

  lemma OwnKeepsUndoomed(t: Tree, s: System, v: System, started: Option<AttemptId>)
    requires I.Waiters(t) && Joint(t, s) && Leaves(s, v, started)
    requires started.Some? ==> started.value in t.underWay && t.underWay[started.value].stage == T.Launched
    ensures Undoomed(t, v)
  {
    hide I.WaitersBut;
    forall o | o in t.served ensures ServedOk(t, v, o) {
      assert ServedOk(t, s, o);
      if t.served[o].Built? {
        var a := t.served[o].attempt;
        ServedReturned(t, s, a);
        assert LeavesAt(s, v, started, a);
      }
    }
    forall a | a in t.underWay ensures ComingOk(t, v, a) {
      assert ComingOk(t, s, a);
      if t.underWay[a].stage != T.Launched {
        UnderWayIsNotNext(t, a);
        ServedReturned(t, s, a);
        assert LeavesAt(s, v, started, a);
      }
    }
  }

  // ---- Every step, and every run ---------------------------------------------------------------

  /** Whatever the tree asks of the coordinator as it takes a step is to be had, and what the two keep is kept. */
  lemma AskedIsHad(t: Tree, s: System, n: nat, step: T.Step, work: C.Code)
    requires I.Inv(t) && V.SystemInv(s, n) && Joint(t, s) && Enabled(Whole(t, s), Trees(step, work))
    ensures MayTake(s, Asked(Whole(t, s), step, work))
    ensures Joint(T.Next(t, step), Taken(s, Asked(Whole(t, s), step, work)))
  {
    NothingAsked(s);
    hide V.SystemInv, I.WaitersBut, I.Freshness, I.Cached, Joint, MayTake, Taken, P.Enabled, P.Next;
    hide T.AfterOpen, T.Claimed, T.AfterRecord, T.AfterWrite, T.AfterSettle, T.AfterStore, T.AfterInvalidate, T.AfterForget, T.AfterRules;
    match step
    case Open(output, made) => OpenKeeps(t, s, n, output, made);
    case Start(output, made) =>
      if T.Claimable(t, output) {
        I.WaitersAreWaitersBut(t, output);
        ClaimKeeps(t, s, n, output, made);
      }
    case Record(a, inputs) => RecordKeeps(t, s, a, inputs);
    case Write(a) => WriteKeeps(t, s, a);
    case Settle(a, ok, canceled, inputs, made) => SettleKeeps(t, s, n, a, ok, canceled, inputs, made);
    case Release(a) =>
      ReleaseKeeps(t, s, n, a, work);
      TakesOne(s, P.Finished(a, work));
    case Check(a, known) => QuietKeeps(t, T.Next(t, step), s, {});
    case Store(a, stamped, ok) => StoreKeeps(t, s, stamped, ok);
    case Invalidate(from, id) => InvalidateKeeps(t, s, from, id);
    case Forget(id, ok) => ForgetKeeps(t, s, id, ok);
    case ApplyRules(commands, watched, id) => RulesKeep(t, s, commands, watched, id);
  }

  lemma StoreKeeps(t: Tree, s: System, stamped: bool, ok: bool)
    requires Joint(t, s) && t.keeping.Some? && t.keeping.value.a in t.keeps
    ensures Joint(T.AfterStore(t, t.keeping.value, stamped, ok), s)
  {
    hide Joint;
    QuietKeeps(t, T.AfterStore(t, t.keeping.value, stamped, ok), s, {});
  }

  lemma InvalidateKeeps(t: Tree, s: System, from: seq<Path>, id: int)
    requires Joint(t, s)
    ensures Joint(T.AfterInvalidate(t, from, id), s)
  {
    hide Joint;
    QuietKeeps(t, T.AfterInvalidate(t, from, id), s, {});
  }

  lemma ForgetKeeps(t: Tree, s: System, id: int, ok: bool)
    requires Joint(t, s) && id in t.forgets
    ensures Joint(T.AfterForget(t, id, ok), s)
  {
    hide Joint;
    QuietKeeps(t, T.AfterForget(t, id, ok), s, {});
  }
}
