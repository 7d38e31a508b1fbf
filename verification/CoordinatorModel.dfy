/** What the build coordinator tracks, and what each change under its lock does to it. */
module CoordinatorModel {
  import opened Paths
  import opened Wrappers
  import opened Graphs

  type AttemptId = int
  type WaitId = int

  datatype Code = Success | Canceled | WouldDeadlock | Failed(code: int)

  datatype Phase = Pending | Queued | Running | Ended
  datatype Permit = NoPermit | Held | Released | Reacquiring

  datatype Attempt = Attempt(
    output: Path,
    phase: Phase,
    permit: Permit,
    stopping: bool,
    doomed: bool,
    hurried: bool,
    draining: bool,
    result: Option<Code>,
    predecessor: Option<AttemptId>)

  datatype WaitState = Blocked | Ready | Done

  datatype Wait = Wait(target: AttemptId, requester: Option<AttemptId>, state: WaitState, result: Code)

  /** `running` finds the attempt that runs at an output. */
  datatype State = State(attempts: map<AttemptId, Attempt>, waits: map<WaitId, Wait>, running: map<Path, AttemptId>)

  /** What is to be done once the lock is released; a permit given back, or a ticket promoted, is under it. */
  datatype Effects = Effects(
    stopReacquires: set<AttemptId>,
    stopAttempts: set<AttemptId>,
    reacquires: set<AttemptId>,
    drains: set<AttemptId>,
    answered: set<WaitId>,
    released: set<AttemptId>)

  const NoEffects := Effects({}, {}, {}, {}, {}, {})

  datatype Outcome = Outcome(state: State, effects: Effects)

  // ---- The wait graph --------------------------------------------------------------------------

  predicate Blocks(w: Wait, a: AttemptId, b: AttemptId) {
    w.state == Blocked && w.requester == Some(a) && w.target == b
  }

  predicate WaitsBehind(x: Attempt, b: AttemptId) {
    x.phase == Pending && x.predecessor == Some(b)
  }

  /** Attempt `a` waits on `b`, or, not yet started, behind it. */
  ghost predicate WaitsOn(s: State, a: AttemptId, b: AttemptId) {
    (exists w :: w in s.waits && Blocks(s.waits[w], a, b)) || (a in s.attempts && WaitsBehind(s.attempts[a], b))
  }

  ghost function WaitGraph(s: State): Graph {
    (set w | w in s.waits && s.waits[w].state == Blocked && s.waits[w].requester.Some?
       :: (s.waits[w].requester.value, s.waits[w].target))
    + (set a | a in s.attempts && s.attempts[a].phase == Pending && s.attempts[a].predecessor.Some?
         :: (a, s.attempts[a].predecessor.value))
  }

  lemma WaitGraphEdges(s: State)
    ensures forall a, b :: Edge(WaitGraph(s), a, b) <==> WaitsOn(s, a, b)
  {
    forall a, b | WaitsOn(s, a, b) ensures Edge(WaitGraph(s), a, b) {
      if w :| w in s.waits && Blocks(s.waits[w], a, b) {
        assert (a, b) in WaitGraph(s);
      }
    }
  }

  // ---- What every change keeps -----------------------------------------------------------------

  predicate Live(w: Wait) { w.state != Done }

  predicate MadeBy(w: Wait, a: AttemptId) { Live(w) && w.requester == Some(a) }

  /** Everything named exists, and running attempts are exactly those looked up. */
  ghost predicate Known(s: State) {
    && (forall w :: w in s.waits ==> s.waits[w].target in s.attempts)
    && (forall w :: w in s.waits && s.waits[w].requester.Some? ==> s.waits[w].requester.value in s.attempts)
    && (forall a :: a in s.attempts && s.attempts[a].predecessor.Some? ==> s.attempts[a].predecessor.value in s.attempts)
    && (forall o :: o in s.running ==> s.running[o] in s.attempts && s.attempts[s.running[o]].phase == Running
                                       && s.attempts[s.running[o]].output == o)
    && (forall a :: a in s.attempts && s.attempts[a].phase == Running ==>
          s.attempts[a].output in s.running && s.running[s.attempts[a].output] == a)
  }

  /** What the state of one attempt, taken alone, keeps to. */
  predicate AttemptOk(x: Attempt) {
    && (x.permit == NoPermit <==> x.phase in {Pending, Queued})
    && (x.phase in {Pending, Queued} ==> !x.stopping)
    && (x.phase == Ended ==> x.stopping)
    && (x.doomed ==> x.stopping)
    && (x.draining ==> x.phase == Ended && x.permit == Reacquiring)
    && (x.predecessor.Some? ==> x.phase == Pending && x.result.None?)
  }

  /** What the state of one wait keeps to, given the attempts at its two ends. */
  predicate WaitOk(s: State, w: Wait) {
    && w.target in s.attempts
    && (w.state == Blocked ==> s.attempts[w.target].result.None?)
    && (w.state == Ready ==> s.attempts[w.target].result == Some(w.result))
    && (w.state == Done ==> w.result == Canceled || s.attempts[w.target].result == Some(w.result))
    && (w.state == Ready ==> w.requester.Some?)
    && (Live(w) && w.requester.Some? ==> w.requester.value in s.attempts && RequesterOk(w, s.attempts[w.requester.value]))
  }

  /** A request waits only for a running attempt that is not being stopped, and never while that holds a permit. */
  predicate RequesterOk(w: Wait, r: Attempt) {
    && r.phase == Running && !r.stopping
    && r.permit in {Released, Reacquiring}
    && (w.state == Ready ==> r.permit == Reacquiring)
  }

  /** Some request of the attempt still waits: so it is while the attempt goes on without a permit. */
  predicate HasBlocked(s: State, a: AttemptId) {
    exists w :: w in s.waits && s.waits[w].state == Blocked && s.waits[w].requester == Some(a)
  }

  ghost predicate PermitsOk(s: State) {
    && (forall a :: a in s.attempts ==> AttemptOk(s.attempts[a]))
    && (forall w :: w in s.waits ==> WaitOk(s, s.waits[w]))
    && (forall a :: a in s.attempts && GaveBack(s.attempts[a]) ==> HasBlocked(s, a))
  }

  /** An attempt going on without a permit, and not taking one. */
  predicate GaveBack(x: Attempt) {
    Stoppable(x) && x.permit == Released
  }

  ghost predicate HurryClosed(s: State) {
    forall a, b :: WaitsOn(s, a, b) && a in s.attempts && b in s.attempts && s.attempts[a].hurried ==> s.attempts[b].hurried
  }

  ghost predicate Inv(s: State) {
    Local(s) && Acyclic(WaitGraph(s)) && HurryClosed(s)
  }

  /** The part of the invariant that is about no more than one wait and its two ends at once. */
  ghost predicate Local(s: State) {
    Known(s) && PermitsOk(s)
  }

  const Initial := State(map[], map[], map[])

  lemma InitialInv()
    ensures Inv(Initial)
  {
    WaitGraphEdges(Initial);
  }

  // ---- The changes -----------------------------------------------------------------------------

  /** Answers the waits of `done` that are not answered yet. */
  function Answered(waits: map<WaitId, Wait>, done: set<WaitId>, result: Code): map<WaitId, Wait> {
    map w | w in waits :: if w in done && Live(waits[w]) then waits[w].(state := Done, result := result) else waits[w]
  }

  function LiveOf(s: State, attempts: set<AttemptId>): set<WaitId> {
    set w | w in s.waits && Live(s.waits[w]) && s.waits[w].requester.Some? && s.waits[w].requester.value in attempts
  }

  /** A new attempt, behind its predecessor unless that has ended. */
  function CreateAttempt(s: State, a: AttemptId, output: Path, predecessor: Option<AttemptId>): State
    requires predecessor.Some? ==> predecessor.value in s.attempts
  {
    var before := if predecessor.Some? && s.attempts[predecessor.value].phase == Ended then None else predecessor;
    s.(attempts := s.attempts[a := Attempt(output, Pending, NoPermit, false, false, false, false, None, before)])
  }

  function Run(s: State, a: AttemptId): State
    requires a in s.attempts
  {
    s.(attempts := s.attempts[a := s.attempts[a].(phase := Queued, predecessor := None)])
  }

  function OnPermit(s: State, a: AttemptId): State
    requires a in s.attempts
  {
    s.(attempts := s.attempts[a := s.attempts[a].(phase := Running, permit := Held)],
       running := s.running[s.attempts[a].output := a])
  }

  /** All of `stopped` are marked and let go of what they wait for; take-backs of theirs are left to be stopped. */
  function Stop(s: State, stopped: set<AttemptId>, doom: bool): Outcome
    requires stopped <= s.attempts.Keys
  {
    Outcome(
      s.(attempts := (map a | a in s.attempts ::
           if a in stopped then s.attempts[a].(stopping := true, doomed := s.attempts[a].doomed || doom) else s.attempts[a]),
         waits := Answered(s.waits, LiveOf(s, stopped), Canceled)),
      NoEffects.(stopReacquires := (set a | a in stopped && s.attempts[a].permit == Reacquiring),
                 stopAttempts := stopped,
                 answered := LiveOf(s, stopped)))
  }

  predicate Stoppable(x: Attempt) { x.phase == Running && !x.stopping }

  /** A cycle found: everything running on it is stopped, and fails whatever it did. */
  function Doom(s: State, cycle: set<AttemptId>): Outcome
  {
    Stop(s, set a | a in cycle && a in s.attempts && Stoppable(s.attempts[a]), true)
  }

  function OnOuterStop(s: State, a: AttemptId): Outcome
    requires a in s.attempts
  {
    if Stoppable(s.attempts[a]) then Stop(s, {a}, false) else Outcome(s, NoEffects.(stopAttempts := {a}))
  }

  /** Everything `target` waits on or behind, itself included. */
  ghost function Upstream(s: State, target: AttemptId): set<AttemptId> {
    set a | a in s.attempts && Connected(WaitGraph(s), target, a)
  }

  /** The wait added, before what it brings about. */
  function WithWait(s: State, w: WaitId, target: AttemptId, requester: Option<AttemptId>): State {
    s.(waits := s.waits[w := Wait(target, requester, Blocked, Success)])
  }

  /** Hurries everything in `hurried`. */
  function Hurry(s: State, hurried: set<AttemptId>): State {
    s.(attempts := map a | a in s.attempts :: if a in hurried then s.attempts[a].(hurried := true) else s.attempts[a])
  }

  /** A permit held while a request starts to wait is given back. */
  function GiveBack(s: State, r: AttemptId): Outcome
    requires r in s.attempts
  {
    if s.attempts[r].permit == Held then
      Outcome(s.(attempts := s.attempts[r := s.attempts[r].(permit := Released)]), NoEffects.(released := {r}))
    else Outcome(s, NoEffects)
  }

  /** A wait that closes no cycle. */
  ghost function Block(s: State, w: WaitId, target: AttemptId, requester: Option<AttemptId>): Outcome
    requires requester.Some? ==> requester.value in s.attempts
  {
    var added := WithWait(s, w, target, requester);
    var hurry := requester.None? || s.attempts[requester.value].hurried;
    var hurried := if hurry then Hurry(added, Upstream(added, target)) else added;
    if requester.Some? then GiveBack(hurried, requester.value) else Outcome(hurried, NoEffects)
  }

  /** The answer to one wait is known: by every branch, though an invariant keeps some from being taken. */
  function ReadyOne(s: State, w: WaitId, result: Code): Outcome
    requires w in s.waits && (s.waits[w].requester.Some? ==> s.waits[w].requester.value in s.attempts)
  {
    var wait := s.waits[w];
    if wait.requester.None? then Outcome(s.(waits := Answered(s.waits, {w}, result)), NoEffects.(answered := {w}))
    else
      var r := wait.requester.value;
      if s.attempts[r].stopping || s.attempts[r].permit == NoPermit then
        Outcome(s.(waits := Answered(s.waits, {w}, Canceled)), NoEffects.(answered := {w}))
      else if s.attempts[r].permit == Held then
        var answered := s.(waits := Answered(s.waits, {w}, result));
        var given := GiveBackIfWaiting(answered, r);
        Outcome(given.state, given.effects.(answered := {w}))
      else
        Outcome(
          s.(waits := s.waits[w := wait.(state := Ready, result := result)],
             attempts := s.attempts[r := s.attempts[r].(permit := Reacquiring)]),
          NoEffects.(reacquires := if s.attempts[r].permit == Released then {r} else {}))
  }

  predicate HasLive(s: State, a: AttemptId) {
    exists w :: w in s.waits && MadeBy(s.waits[w], a)
  }

  /** A permit held, with requests still waiting, goes straight back. */
  function GiveBackIfWaiting(s: State, a: AttemptId): Outcome
    requires a in s.attempts
  {
    if !s.attempts[a].stopping && HasBlocked(s, a) then GiveBack(s, a) else Outcome(s, NoEffects)
  }

  function BlockedOn(s: State, a: AttemptId): set<WaitId> {
    set w | w in s.waits && s.waits[w].state == Blocked && s.waits[w].target == a
  }

  /** Some wait of `waits` is a request of attempt `r`. */
  predicate Asks(s: State, waits: set<WaitId>, r: AttemptId) {
    exists w :: w in waits && w in s.waits && s.waits[w].requester == Some(r)
  }

  /** Every wait of `ready` gets its answer, or is ready for it once its requester has a permit again. */
  function ReadyAll(s: State, ready: set<WaitId>, result: Code): Outcome {
    var askers := set r | r in s.attempts && s.attempts[r].permit == Released && Asks(s, ready, r);
    Outcome(
      s.(waits := (map w | w in s.waits ::
           if w in ready then s.waits[w].(state := if s.waits[w].requester.None? then Done else Ready, result := result)
           else s.waits[w]),
         attempts := (map a | a in s.attempts ::
           if a in askers then s.attempts[a].(permit := Reacquiring) else s.attempts[a])),
      NoEffects.(reacquires := askers, answered := (set w | w in ready && w in s.waits && s.waits[w].requester.None?)))
  }

  function WithResult(s: State, a: AttemptId, result: Code): State
    requires a in s.attempts
  {
    s.(attempts := s.attempts[a := s.attempts[a].(result := Some(result), predecessor := None)])
  }

  /** What comes of an attempt whose work came to `work`: once doomed it fails, whatever its command did. */
  function ResultOf(x: Attempt, work: Code): Code {
    if x.doomed then WouldDeadlock else work
  }

  /** Hands `result` to everything waiting on `a`. */
  function Complete(s: State, a: AttemptId, result: Code): Outcome
    requires a in s.attempts
  {
    ReadyAll(WithResult(s, a, result), BlockedOn(s, a), result)
  }

  function ReadyOf(s: State, a: AttemptId): set<WaitId> {
    set w | w in s.waits && s.waits[w].state == Ready && s.waits[w].requester == Some(a)
  }

  /** The end of a take-back: one permit, or the lack of it, settles all of the attempt's requests that are ready. */
  function OnReacquired(s: State, a: AttemptId, granted: bool): Outcome
    requires a in s.attempts
  {
    var x := s.attempts[a];
    var settled := s.(attempts := s.attempts[a := x.(permit := if granted then Held else Released, draining := false)],
                      waits := (map w | w in s.waits ::
                        if w in ReadyOf(s, a) then
                          s.waits[w].(state := Done, result := if granted && !x.stopping then s.waits[w].result else Canceled)
                        else s.waits[w]));
    var given := if granted then GiveBackIfWaiting(settled, a) else Outcome(settled, NoEffects);
    Outcome(given.state, given.effects.(answered := ReadyOf(s, a), drains := if x.draining then {a} else {}))
  }

  /** A request gives up; the last to leave an attempt that gave its permit back starts taking one. */
  function CancelWait(s: State, w: WaitId): Outcome
    requires w in s.waits && (s.waits[w].requester.Some? ==> s.waits[w].requester.value in s.attempts)
  {
    if !Live(s.waits[w]) then Outcome(s, NoEffects)
    else
      var answered := s.(waits := Answered(s.waits, {w}, Canceled));
      var r := s.waits[w].requester;
      if r.Some? && !s.attempts[r.value].stopping && !HasLive(answered, r.value) && s.attempts[r.value].permit == Released then
        Outcome(answered.(attempts := s.attempts[r.value := s.attempts[r.value].(permit := Reacquiring)]),
                NoEffects.(answered := {w}, reacquires := {r.value}))
      else Outcome(answered, NoEffects.(answered := {w}))
  }

  /** The end of the command of `a`, which no cycle can reach any more and no request can come from. */
  function Finish(s: State, a: AttemptId): Outcome
    requires a in s.attempts
  {
    var x := s.attempts[a];
    var outstanding := x.permit == Reacquiring;
    Outcome(
      s.(attempts := s.attempts[a := x.(phase := Ended, stopping := true, draining := outstanding)],
         waits := Answered(s.waits, LiveOf(s, {a}), Canceled),
         running := s.running - {x.output}),
      NoEffects.(answered := LiveOf(s, {a}),
                 stopReacquires := if outstanding then {a} else {},
                 drains := if outstanding then {} else {a}))
  }
}
