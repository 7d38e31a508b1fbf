/** What the answers to opens say of the builds they waited for, in every run of the tree and the coordinator together. */
module WholeAnswers {
  import opened Wrappers
  import opened BuildAttempts
  import opened WholeBuild
  import opened WholeRuns
  import T = BuildTree
  import I = BuildTreeInvariant
  import K = BuildTreeKept
  import C = CoordinatorModel
  import P = Permits
  import V = PermitsInvariant
  import R = PermitsRuns
  import L = PermitsLaw

  /** A build that succeeded is done, and was not doomed; and an attempt came to a success just if its build did. */
  predicate ToldAt(t: Tree, s: System, a: AttemptId) {
    && (a in t.succeeded ==>
          && a in s.c.attempts && !s.c.attempts[a].doomed
          && a in t.claims && !(a in t.underWay && t.underWay[a].stage == T.Launched))
    && (a in s.c.attempts && s.c.attempts[a].result.Some? ==> (s.c.attempts[a].result == Some(C.Success) <==> a in t.succeeded))
  }

  ghost predicate Told(t: Tree, s: System) {
    forall a :: ToldAt(t, s, a)
  }

  predicate SameAnswer(x: C.Attempt, y: C.Attempt) {
    y.doomed == x.doomed && y.result == x.result
  }

  /** What steps leave of attempts: whether they are doomed, and what they came to. */
  ghost predicate SameAnswers(s: System, v: System) {
    && (forall a :: a in s.c.attempts ==> a in v.c.attempts && SameAnswer(s.c.attempts[a], v.c.attempts[a]))
    && (forall a :: a in v.c.attempts && a !in s.c.attempts ==> v.c.attempts[a].result.None?)
  }

  lemma OneAskedAnswers(s: System, n: nat, step: P.Step, a: AttemptId)
    requires V.SystemInv(s, n) && P.Enabled(s, step) && (step.Create? || step.Retire?)
    requires a in s.c.attempts
    ensures a in P.Next(s, step).c.attempts
    ensures P.Next(s, step).c.attempts[a].doomed == s.c.attempts[a].doomed && P.Next(s, step).c.attempts[a].result == s.c.attempts[a].result
  {
    L.StepsAttempt(s, n, step, a);
    hide V.SystemInv, P.Next, P.Enabled, L.HurriedBy;
  }

  lemma AskedAnswers(s: System, n: nat, step: P.Step)
    requires V.SystemInv(s, n) && P.Enabled(s, step) && (step.Create? || step.Retire?)
    ensures SameAnswers(s, P.Next(s, step))
  {
    hide V.SystemInv, P.Next, P.Enabled;
    forall a | a in s.c.attempts
      ensures a in P.Next(s, step).c.attempts && SameAnswer(s.c.attempts[a], P.Next(s, step).c.attempts[a])
    {
      OneAskedAnswers(s, n, step, a);
    }
    forall a | a in P.Next(s, step).c.attempts && a !in s.c.attempts ensures P.Next(s, step).c.attempts[a].result.None? {
      L.NewIsUnmarked(s, step, a);
    }
  }

  /** Steps asked for that complete nothing leave all answers. */
  lemma {:induction false} TakenAnswers(s: System, n: nat, steps: seq<P.Step>)
    requires V.SystemInv(s, n) && MayTake(s, steps) && forall k :: 0 <= k < |steps| ==> steps[k].Create? || steps[k].Retire?
    ensures SameAnswers(s, Taken(s, steps))
    decreases |steps|
  {
    hide P.Enabled, P.Next, V.SystemInv;
    if steps != [] {
      AskedAnswers(s, n, steps[0]);
      R.StepKeeps(s, n, steps[0]);
      TakenAnswers(P.Next(s, steps[0]), n, steps[1..]);
    }
  }

  lemma AskedIsNoEnd(w: Whole, step: T.Step, work: C.Code)
    requires (step.Settle? ==> step.a in w.t.underWay) && !step.Release?
    ensures forall k :: 0 <= k < |Asked(w, step, work)| ==> Asked(w, step, work)[k].Create? || Asked(w, step, work)[k].Retire?
  {
  }

  /** What the tree has of `a` once it takes a step. */
  lemma TreeTells(t: Tree, tree: T.Step, a: AttemptId)
    requires I.Inv(t) && T.Enabled(t, tree)
    ensures K.KeptGoes(t, tree, T.Next(t, tree), a) && K.StageGoes(t, T.Next(t, tree), a)
    ensures a in t.claims ==> a in T.Next(t, tree).claims
    ensures tree.Settle? && tree.a == a && tree.ok ==> a in t.underWay && t.underWay[a].stage == T.Written && a in t.claims
  {
    if tree.Settle? && tree.a == a {
      UnderWayIsNotNext(t, a);
    }
    hide I.Waiters, I.Freshness, I.Cached, T.Next;
    K.StepsKept(t, tree, a, []);
    K.StepsStage(t, tree, a);
    if a in t.claims {
      I.StepKeepsClaims(t, tree, a);
    }
  }

  /** What is under way has no result yet, and if its bytes are written is not doomed. */
  lemma SettlesUndoomed(t: Tree, s: System, a: AttemptId)
    requires I.Waiters(t) && Joint(t, s) && a in t.underWay && a in s.c.attempts
    ensures s.c.attempts[a].result.None? && (t.underWay[a].stage == T.Written ==> !s.c.attempts[a].doomed)
  {
    UnderWayIsNotNext(t, a);
    assert ComingOk(t, s, a) && AgreeOn(t, s, a);
  }

  lemma NoNewSuccess(t: Tree, u: Tree, s: System, v: System, tree: T.Step, a: AttemptId)
    requires ToldAt(t, s, a) && SameAnswers(s, v) && !tree.Release?
    requires K.KeptGoes(t, tree, u, a) && K.StageGoes(t, u, a) && (a in t.claims ==> a in u.claims)
    requires tree.Settle? && tree.a == a && tree.ok ==> a in t.underWay && t.underWay[a].stage == T.Written && a in t.claims
    requires tree.Settle? && tree.a == a ==> a in s.c.attempts && s.c.attempts[a].result.None?
    requires tree.Settle? && tree.a == a && tree.ok ==> !s.c.attempts[a].doomed
    requires a !in s.c.attempts ==> a !in t.succeeded
    ensures ToldAt(u, v, a)
  {
    if a in s.c.attempts {
      assert SameAnswer(s.c.attempts[a], v.c.attempts[a]);
    }
  }

  lemma TreeKeepsTold(w: Whole, v: Whole, n: nat, tree: T.Step, work: C.Code, a: AttemptId)
    requires WholeInv(w, n) && Enabled(w, Trees(tree, work)) && Goes(w, Trees(tree, work), v) && ToldAt(w.t, w.s, a) && !tree.Release?
    ensures ToldAt(v.t, v.s, a)
  {
    hide V.SystemInv, I.Waiters, I.Freshness, I.Cached, Joint, Asked, MayTake, Taken, T.Next, K.StageGoes, K.KeptGoes, ToldAt, SameAnswers, Returned;
    TreeTells(w.t, tree, a);
    AskedIsNoEnd(w, tree, work);
    TakenAnswers(w.s, n, Asked(w, tree, work));
    if tree.Settle? && tree.a == a {
      SettleIsUnderWay(w.t, tree);
      SettlesUndoomed(w.t, w.s, a);
    }
    UntoldIsUnmade(w.t, w.s, a);
    NoNewSuccess(w.t, v.t, w.s, v.s, tree, a);
  }

  lemma SettleIsUnderWay(t: Tree, tree: T.Step)
    requires T.Enabled(t, tree) && tree.Settle?
    ensures tree.a in t.underWay
  {
  }

  lemma UntoldIsUnmade(t: Tree, s: System, a: AttemptId)
    requires ToldAt(t, s, a)
    ensures a !in s.c.attempts ==> a !in t.succeeded
  {
  }

  /** A completion tells of the build what it came to. */
  lemma ReleaseKeepsTold(w: Whole, v: Whole, n: nat, b: AttemptId, work: C.Code, a: AttemptId)
    requires WholeInv(w, n) && Enabled(w, Trees(T.Release(b), work)) && Goes(w, Trees(T.Release(b), work), v) && ToldAt(w.t, w.s, a)
    ensures ToldAt(v.t, v.s, a)
  {
    var step := P.Finished(b, work);
    ReleaseKeeps(w.t, w.s, n, b, work);
    TakesOne(w.s, step);
    assert w.s.c.attempts.Keys == v.s.c.attempts.Keys by {
      FinishedCompletes(w.s, n, b, work);
    }
    if a in w.s.c.attempts {
      L.StepsAttempt(w.s, n, step, a);
    }
    hide WholeInv, P.Next, P.Enabled, MayTake, Taken, L.HurriedBy;
  }

  lemma OwnKeepsTold(w: Whole, v: Whole, n: nat, own: P.Step, a: AttemptId)
    requires WholeInv(w, n) && Enabled(w, Own(own)) && Goes(w, Own(own), v) && ToldAt(w.t, w.s, a)
    ensures ToldAt(v.t, v.s, a)
  {
    OwnStepLeaves(w.s, n, own);
    if a in w.t.succeeded {
      ServedReturned(w.t, w.s, a);
    }
    assert a in w.s.c.attempts ==> LeavesAt(w.s, v.s, Started(own), a);
    hide WholeInv, P.Next, P.Enabled, Returned;
  }

  lemma StepKeepsTold(w: Whole, v: Whole, n: nat, step: Step)
    requires WholeInv(w, n) && Enabled(w, step) && Goes(w, step, v) && Told(w.t, w.s)
    ensures Told(v.t, v.s)
  {
    hide WholeInv, Enabled, Goes, ToldAt;
    forall a ensures ToldAt(v.t, v.s, a) {
      match step
      case Own(own) => OwnKeepsTold(w, v, n, own, a);
      case Trees(tree, work) =>
        if tree.Release? {
          ReleaseKeepsTold(w, v, n, tree.a, work, a);
        } else {
          TreeKeepsTold(w, v, n, tree, work, a);
        }
    }
  }

  lemma {:induction false} RunKeepsTold(states: seq<Whole>, steps: seq<Step>, n: nat, i: nat)
    requires WholeRuns.IsRun(states, steps, n) && i < |states|
    ensures Told(states[i].t, states[i].s)
  {
    hide WholeInv, Enabled, Goes;
    if i > 0 {
      RunKeepsTold(states, steps, n, i - 1);
      WholeRuns.RunKeeps(states, steps, n, i - 1);
      assert Goes(states[i - 1], steps[i - 1], states[i - 1 + 1]);
      StepKeepsTold(states[i - 1], states[i], n, steps[i - 1]);
    }
  }

  /** An open answered with a success waited for a build that settled with its bytes written; one answered otherwise for none
      that did, or was canceled. */
  lemma SuccessMeansBuilt(states: seq<Whole>, steps: seq<Step>, n: nat, i: nat, w: C.WaitId)
    requires WholeRuns.IsRun(states, steps, n) && i < |states| && w in states[i].s.c.waits && states[i].s.c.waits[w].state == C.Done
    ensures var x := states[i].s.c.waits[w];
      && (x.result == C.Success ==> x.target in states[i].t.succeeded)
      && (x.result != C.Success && x.result != C.Canceled ==> x.target !in states[i].t.succeeded)
  {
    RunKeepsTold(states, steps, n, i);
    var systems, taken := WholeRuns.PartIsRun(states, steps, n, i);
    R.AnswersAreResults(systems, taken, n, |systems| - 1, w);
    assert ToldAt(states[i].t, states[i].s, states[i].s.c.waits[w].target);
    hide WholeRuns.IsRun, R.IsRun;
  }
}
