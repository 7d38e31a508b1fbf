/** The coordinator and the queue its attempts take permits from, as one machine over every interleaving. */
module Permits {
  import opened Paths
  import opened Wrappers
  import opened Graphs
  import opened CoordinatorModel
  import opened CoordinatorInvariants
  import opened QueueLines

  /** Where an attempt's request for a slot - its first, or one taken back - has got to. */
  datatype SlotRequest =
    | Idle      // none under way
    | Starting  // to be started
    | InLine    // waiting in line
    | Given     // handed a slot, on its way
    | Refused   // stopped, on its way
    | Abandoned // the attempt never runs: its first was stopped, or none is ever to be made

  /** `toStop` and `toDrain` are effects not carried out yet; `holders` are the leases that hold a slot. */
  datatype System = System(
    c: State,
    lines: Lines<AttemptId>,
    requests: map<AttemptId, SlotRequest>,
    stopRequested: set<AttemptId>,
    toStop: set<AttemptId>,
    toDrain: set<AttemptId>,
    holders: set<AttemptId>,
    drained: set<AttemptId>,
    wakes: multiset<WaitId>,
    releases: multiset<AttemptId>,
    grants: multiset<AttemptId>)

  datatype Step =
    | Create(a: AttemptId, output: Path, predecessor: Option<AttemptId>)
    | Start(a: AttemptId)                // run(): queued, its first request to be started
    | Begin(a: AttemptId)                // a request starts: takes a free slot, or gets in line
    | Deliver(a: AttemptId)              // the slot arrives
    | DeliverRefusal(a: AttemptId)       // or word that the request was stopped does
    | RequestStop(a: AttemptId)          // a deferred stop of a take-back reaches the queue
    | StopQueued(a: AttemptId)           // whoever runs it stops an attempt still in line
    | Work(a: AttemptId)                 // its work ends
    | Drain(a: AttemptId)                // and then everything of it: its lease gives back what it holds
    | Retire(a: AttemptId)               // its build is over without it: it is never to run
    | Finished(a: AttemptId, work: Code)
    | Open(w: WaitId, target: AttemptId, requester: Option<AttemptId>, order: seq<AttemptId>)
    | OpenClosesCycle(target: AttemptId, asker: AttemptId, cycle: seq<AttemptId>)
    | Cancel(w: WaitId)
    | OuterStop(a: AttemptId)

  function Init(n: nat): System {
    System(CoordinatorModel.Initial, Lines(n, [], [], []), map[], {}, {}, {}, {}, {}, multiset{}, multiset{}, multiset{})
  }

  // ---- The steps -------------------------------------------------------------------------------

  /** Nothing more of `a` can run: another attempt at its output may. */
  predicate Over(s: System, a: AttemptId)
    requires a in s.c.attempts && a in s.requests
  {
    s.c.attempts[a].phase == Ended || s.c.attempts[a].result.Some? || s.requests[a] == Abandoned
  }

  predicate Tracked(s: System) { s.requests.Keys == s.c.attempts.Keys }

  /** Takes over what a change under the coordinator's lock leaves to be done, permits given back apart. */
  function Absorb(s: System, o: Outcome): System {
    s.(c := o.state,
       requests := map a | a in s.requests :: if a in o.effects.reacquires then Starting else s.requests[a],
       toStop := s.toStop + o.effects.stopReacquires,
       toDrain := s.toDrain + o.effects.drains,
       wakes := s.wakes + multiset(o.effects.answered))
  }

  /** A slot given back goes to the first in line, or is free. */
  function PassOn(s: System): System {
    s.(lines := s.lines.Release(),
       requests := if s.lines.Heir().Some? then s.requests[s.lines.Heir().value := Given] else s.requests)
  }

  /** The lease of `a` gives its slot back. */
  function LetGo(s: System, a: AttemptId): System {
    PassOn(s.(holders := s.holders - {a}))
  }

  /** As `Absorb`, and the permit `a` gave back under the lock goes to the next in line. */
  function Take(s: System, o: Outcome, a: AttemptId): System {
    if a in o.effects.released then LetGo(Absorb(s, o).(releases := s.releases + multiset{a}), a) else Absorb(s, o)
  }

  function SetRequest(s: System, a: AttemptId, r: SlotRequest): System {
    s.(requests := s.requests[a := r])
  }

  function IsTakeBack(s: System, a: AttemptId): bool
    requires a in s.c.attempts
  {
    s.c.attempts[a].permit == Reacquiring
  }

  /** A stop reaches a request: out of line it is refused, otherwise it has been given, or will find out as it starts. */
  function StopRequest(s: System, a: AttemptId): System
    requires a in s.c.attempts && a in s.requests
  {
    var marked := s.(stopRequested := s.stopRequested + {a}, toStop := s.toStop - {a});
    if s.requests[a] == InLine then
      SetRequest(marked.(lines := s.lines.Dequeue(a, IsTakeBack(s, a))), a, Refused)
    else marked
  }

  function PromoteAll(l: Lines<AttemptId>, order: seq<AttemptId>): Lines<AttemptId> {
    if order == [] then l else PromoteAll(l, order[..|order| - 1]).Promote(order[|order| - 1])
  }

  /** What `Open` hurries that was not hurried before. */
  ghost function NewlyHurried(s: State, w: WaitId, target: AttemptId, requester: Option<AttemptId>): set<AttemptId>
    requires requester.Some? ==> requester.value in s.attempts
  {
    var t := Block(s, w, target, requester).state;
    set a | a in t.attempts && a in s.attempts && t.attempts[a].hurried && !s.attempts[a].hurried
  }

  /** A request starts: refused if stopped already, otherwise given a free slot or put in line. */
  function AfterBegin(s: System, a: AttemptId): System
    requires a in s.c.attempts
  {
    if a in s.stopRequested then SetRequest(s, a, Refused)
    else if s.lines.free > 0 then SetRequest(s.(lines := s.lines.TakeFree()), a, Given)
    else SetRequest(s.(lines := s.lines.Enqueue(a, IsTakeBack(s, a), s.c.attempts[a].hurried)), a, InLine)
  }

  /** A slot arrives, for the lease of `a` to hold. */
  function Arrived(s: System, a: AttemptId): System {
    SetRequest(s.(holders := s.holders + {a}, stopRequested := s.stopRequested - {a}), a, Idle)
  }

  function AfterFirst(s: System, a: AttemptId): System
    requires a in s.c.attempts
  {
    Arrived(s, a).(c := OnPermit(s.c, a))
  }

  function AfterTakeBack(s: System, a: AttemptId): System
    requires a in s.c.attempts
  {
    Take(Arrived(s, a).(grants := s.grants + multiset{a}), OnReacquired(s.c, a, true), a)
  }

  /** Word arrives that a request was stopped. */
  function AfterRefusal(s: System, a: AttemptId): System
    requires a in s.c.attempts
  {
    var told := SetRequest(s.(stopRequested := s.stopRequested - {a}), a, if IsTakeBack(s, a) then Idle else Abandoned);
    if IsTakeBack(s, a) then Absorb(told, OnReacquired(s.c, a, false)) else told
  }

  /** Nothing of `a` is left under way; its lease gives back the slot it holds, if any. */
  function AfterDrain(s: System, a: AttemptId): System {
    var over := s.(toDrain := s.toDrain - {a}, drained := s.drained + {a});
    if a in s.holders then LetGo(over, a) else over
  }

  ghost function AfterOpen(s: System, w: WaitId, target: AttemptId, requester: Option<AttemptId>, order: seq<AttemptId>): System
    requires requester.Some? ==> requester.value in s.c.attempts
  {
    var promoted := s.(lines := PromoteAll(s.lines, order));
    if requester.Some? then Take(promoted, Block(s.c, w, target, requester), requester.value)
    else Absorb(promoted, Block(s.c, w, target, requester))
  }

  /** When each step may be taken: what its caller must see to, and what must be under way. */
  ghost predicate Enabled(s: System, step: Step) {
    Tracked(s) &&
    match step
    case Create(a, output, predecessor) =>
      // At an output with an attempt not over, a new one waits behind that one.
      && a !in s.c.attempts
      && (predecessor.Some? ==> predecessor.value in s.c.attempts)
      && forall b :: b in s.c.attempts && s.c.attempts[b].output == output && !Over(s, b) ==> predecessor == Some(b)
    case Start(a) =>
      // Nothing that may yet run is before it.
      && a in s.c.attempts && s.c.attempts[a].phase == Pending && s.requests[a] == Idle
      && (s.c.attempts[a].predecessor.Some? ==>
            s.c.attempts[a].predecessor.value in s.c.attempts && Over(s, s.c.attempts[a].predecessor.value))
    case Begin(a) => a in s.c.attempts && s.requests[a] == Starting
    case Deliver(a) => a in s.c.attempts && s.requests[a] == Given
    case DeliverRefusal(a) => a in s.c.attempts && s.requests[a] == Refused
    case RequestStop(a) => a in s.c.attempts && a in s.toStop
    case StopQueued(a) => a in s.c.attempts && s.c.attempts[a].phase == Queued
    case Work(a) => a in s.c.attempts && s.c.attempts[a].phase == Running
    case Drain(a) => a in s.c.attempts && a in s.toDrain
    case Retire(a) => a in s.c.attempts && s.c.attempts[a].phase == Pending && s.requests[a] == Idle
    case Finished(a, _) =>
      // There is nothing left of it that could run.
      && a in s.c.attempts && s.c.attempts[a].result.None?
      && (a in s.drained || s.requests[a] == Abandoned)
    case Open(w, target, requester, order) =>
      && Blockable(s.c, w, target, requester)
      && Distinct(order)
      && forall a :: a in order <==> a in NewlyHurried(s.c, w, target, requester)
    case OpenClosesCycle(target, asker, cycle) =>
      && target in s.c.attempts && s.c.attempts[target].result.None?
      && asker in s.c.attempts && Stoppable(s.c.attempts[asker])
      && PathBetween(WaitGraph(s.c), cycle, target, asker)
    case Cancel(w) => w in s.c.waits && (s.c.waits[w].requester.Some? ==> s.c.waits[w].requester.value in s.c.attempts)
    case OuterStop(a) => a in s.c.attempts && s.c.attempts[a].phase in {Running, Ended}
  }

  ghost function Next(s: System, step: Step): System
    requires Enabled(s, step)
  {
    match step
    case Create(a, output, predecessor) => SetRequest(s.(c := CreateAttempt(s.c, a, output, predecessor)), a, Idle)
    case Start(a) => SetRequest(s.(c := CoordinatorModel.Run(s.c, a)), a, Starting)
    case Begin(a) => AfterBegin(s, a)
    case Deliver(a) => if IsTakeBack(s, a) then AfterTakeBack(s, a) else AfterFirst(s, a)
    case DeliverRefusal(a) => AfterRefusal(s, a)
    case RequestStop(a) => StopRequest(s, a)
    case StopQueued(a) => StopRequest(s, a)
    case Work(a) => Absorb(s, Finish(s.c, a))
    case Drain(a) => AfterDrain(s, a)
    case Retire(a) => SetRequest(s, a, Abandoned)
    case Finished(a, work) => Absorb(s, Complete(s.c, a, ResultOf(s.c.attempts[a], work)))
    case Open(w, target, requester, order) => AfterOpen(s, w, target, requester, order)
    case OpenClosesCycle(target, asker, cycle) => Absorb(s, Doom(s.c, Nodes(cycle)))
    case Cancel(w) => Absorb(s, CancelWait(s.c, w))
    case OuterStop(a) => Absorb(s, CoordinatorModel.OnOuterStop(s.c, a))
  }
}
