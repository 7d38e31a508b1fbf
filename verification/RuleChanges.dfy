/** A change of rules as the sections it comes in, with whatever else the tree does in between. */
module RuleChanges {
  import opened Paths
  import opened Expand
  import opened CacheRecords
  import opened DependencyIndex
  import opened BuildTree
  import I = BuildTreeInvariant
  import opened BuildTreeLaw

  /** `moved` are the outputs that came or went; `changed`, what is to be invalidated, with their readers once `collected`. */
  datatype Change = Change(moved: set<Path>, changed: set<Path>, collected: bool)

  datatype Changing = Changing(t: Tree, changes: map<int, Change>)

  datatype Move =
    | Aside(step: Step)                   // any step of the tree that is no part of a change
    | Apply(commands: map<Path, Command>, watched: set<Path>, id: int)
    | Collect(id: int)                    // adds what has read anything that came or went
    | Follow(from: seq<Path>, id: int, forget: int)

  /** `o` is recorded as having read `input`. */
  predicate HasRead(t: Tree, o: Path, input: Path) {
    o in t.dependencies && input in t.dependencies[o]
  }

  /** `o` is recorded as having read one of `outputs`. */
  predicate HasReadAny(t: Tree, o: Path, outputs: set<Path>) {
    exists output :: output in outputs && HasRead(t, o, AsInput(output))
  }

  /** What came or went as the rules became `commands`. */
  function MovedBy(t: Tree, commands: map<Path, Command>): set<Path> {
    (t.commands.Keys - commands.Keys) + (commands.Keys - t.commands.Keys)
  }

  function Begun(t: Tree, commands: map<Path, Command>, watched: set<Path>): Change {
    Change(MovedBy(t, commands), watched + ChangedOf(t.commands, commands), false)
  }

  /** All that is recorded as having read anything that came or went. */
  ghost function ReadersAt(t: Tree, moved: set<Path>): set<Path> {
    set o | o in t.dependencies && HasReadAny(t, o, moved)
  }

  ghost function Collected(t: Tree, change: Change): Change {
    change.(changed := change.changed + ReadersAt(t, change.moved), collected := true)
  }

  ghost predicate CanMove(s: Changing, move: Move) {
    match move
    case Aside(step) => Enabled(s.t, step) && !step.ApplyRules?
    case Apply(commands, watched, id) => Enabled(s.t, ApplyRules(commands, watched, id)) && id !in s.changes
    case Collect(id) => id in s.changes && !s.changes[id].collected
    case Follow(from, id, forget) =>
      && id in s.changes && s.changes[id].collected && Enabled(s.t, Step.Invalidate(from, forget))
      && forall o :: o in from <==> o in s.changes[id].changed
  }

  ghost function Moved(s: Changing, move: Move): Changing
    requires CanMove(s, move)
  {
    match move
    case Aside(step) => s.(t := Next(s.t, step))
    case Apply(commands, watched, id) =>
      Changing(Next(s.t, ApplyRules(commands, watched, id)), s.changes[id := Begun(s.t, commands, watched)])
    case Collect(id) => s.(changes := s.changes[id := Collected(s.t, s.changes[id])])
    case Follow(from, id, forget) => Changing(Next(s.t, Step.Invalidate(from, forget)), s.changes - {id})
  }

  ghost predicate IsRun(states: seq<Changing>, moves: seq<Move>) {
    && |states| == |moves| + 1 && IsInit(states[0].t) && states[0].changes == map[]
    && forall i :: 0 <= i < |moves| ==> CanMove(states[i], moves[i]) && states[i + 1] == Moved(states[i], moves[i])
  }

  /** All that holds of the tree in its own runs holds of it here. */
  lemma {:induction false} PartIsRun(states: seq<Changing>, moves: seq<Move>, i: nat) returns (trees: seq<Tree>, steps: seq<Step>)
    requires IsRun(states, moves) && i < |states|
    ensures I.IsRun(trees, steps) && trees[|trees| - 1] == states[i].t
  {
    hide Enabled, Next, Collected, Begun, IsInit;
    if i == 0 {
      trees, steps := [states[0].t], [];
    } else {
      trees, steps := PartIsRun(states, moves, i - 1);
      var last := trees[|trees| - 1];
      assert CanMove(states[i - 1], moves[i - 1]) && states[i - 1 + 1] == Moved(states[i - 1], moves[i - 1]);
      assert (trees + [states[i].t])[|trees| - 1] == last;
      match moves[i - 1]
      case Aside(step) => trees, steps := trees + [states[i].t], steps + [step];
      case Apply(commands, watched, id) => trees, steps := trees + [states[i].t], steps + [ApplyRules(commands, watched, id)];
      case Collect(_) =>
      case Follow(from, _, forget) => trees, steps := trees + [states[i].t], steps + [Step.Invalidate(from, forget)];
    }
  }

  // ---- What a change makes out of date ---------------------------------------------------------

  /** What `o` read is recorded anew. */
  predicate Notes(t: Tree, move: Move, o: Path) {
    move.Aside? && (move.step.Record? || move.step.Settle?) && move.step.a in t.underWay && t.underWay[move.step.a].output == o
  }

  /** The change is under way, and `o` is to be invalidated by it. */
  predicate Due(s: Changing, id: int, o: Path, p: Path) {
    && id in s.changes
    && (o in s.changes[id].changed || (!s.changes[id].collected && p in s.changes[id].moved && HasRead(s.t, o, AsInput(p))))
  }

  /** Nothing but the last section of the change itself, a new record of what `o` read, or its going, ends that. */
  lemma StaysDue(s: Changing, move: Move, id: int, o: Path, p: Path)
    requires CanMove(s, move) && Due(s, id, o, p) && !(move.Follow? && move.id == id)
    requires !Notes(s.t, move, o) && o in Moved(s, move).t.commands
    ensures Due(Moved(s, move), id, o, p)
  {
    hide Affected, Bump, Raised;
    if !(o in s.changes[id].changed) && !move.Collect? {
      KeepsRead(s, move, o, p);
    }
  }

  lemma KeepsRead(s: Changing, move: Move, o: Path, p: Path)
    requires CanMove(s, move) && HasRead(s.t, o, AsInput(p)) && !Notes(s.t, move, o) && o in Moved(s, move).t.commands
    ensures HasRead(Moved(s, move).t, o, AsInput(p))
  {
    hide AsInput, Collected, Begun, Enabled, Next;
    match move
    case Aside(step) => StepKeepsRead(s.t, step, o, p);
    case Apply(commands, watched, id) => RulesKeepRead(s.t, commands, watched, id, o);
    case Collect(_) =>
    case Follow(from, _, forget) => StepLeaves(s.t, Step.Invalidate(from, forget));
  }

  lemma StepKeepsRead(t: Tree, step: Step, o: Path, p: Path)
    requires Enabled(t, step) && !step.ApplyRules? && HasRead(t, o, AsInput(p)) && !Notes(t, Aside(step), o)
    ensures HasRead(Next(t, step), o, AsInput(p))
  {
    StepLeaves(t, step);
    if step.Record? {
      RecordLeaves(t, step.a, step.inputs);
    } else if step.Settle? {
      SettleLeaves(t, step.a, step.ok, step.canceled, step.inputs, step.made);
    }
    hide AfterOpen, AfterRecord, AfterSettle, AfterStore, Affected, Claimed, AfterForget, Bump, AfterInvalidate, AfterWrite;
  }

  lemma RulesKeepRead(t: Tree, commands: map<Path, Command>, watched: set<Path>, id: int, o: Path)
    requires Enabled(t, ApplyRules(commands, watched, id)) && o in t.dependencies
    ensures var u := Next(t, ApplyRules(commands, watched, id));
      && u.commands == commands && (o in commands || o !in t.commands ==> o in u.dependencies && u.dependencies[o] == t.dependencies[o])
  {
  }

  /** No step takes back an invalidation. */
  lemma CountsGrow(s: Changing, move: Move, o: Path)
    requires CanMove(s, move)
    ensures CountAt(Moved(s, move).t, o) >= CountAt(s.t, o)
  {
    hide Collected, Begun, Enabled, Next;
    match move
    case Aside(step) =>
      StepLeaves(s.t, step);
      if step.Invalidate? {
        InvalidationGrows(s.t, step.from, step.id, o);
      }
    case Apply(commands, watched, id) => RulesGrow(s.t, commands, watched, id, o);
    case Collect(_) =>
    case Follow(from, _, forget) => InvalidationGrows(s.t, from, forget, o);
  }

  /** The move neither ends the change, nor records anew what `o` read, nor does away with `o`. */
  ghost predicate Spares(s: Changing, move: Move, id: int, o: Path) {
    CanMove(s, move) && !Notes(s.t, move, o) && o in Moved(s, move).t.commands && !(move.Follow? && move.id == id)
  }

  ghost predicate Undisturbed(states: seq<Changing>, moves: seq<Move>, j: nat, k: nat, id: int, o: Path)
    requires k <= |moves| < |states|
  {
    forall m :: j < m < k ==> Spares(states[m], moves[m], id, o)
  }

  lemma {:induction false} DueUntil(states: seq<Changing>, moves: seq<Move>, j: nat, k: nat, id: int, o: Path, p: Path)
    requires IsRun(states, moves) && j < k <= |moves| && Due(states[j + 1], id, o, p) && Undisturbed(states, moves, j, k, id, o)
    ensures Due(states[k], id, o, p) && (k > j + 1 ==> o in states[k].t.commands) && CountAt(states[k].t, o) >= CountAt(states[j + 1].t, o)
    decreases k
  {
    hide CanMove, Moved, Due, Notes;
    if k > j + 1 {
      DueUntil(states, moves, j, k - 1, id, o, p);
      assert CanMove(states[k - 1], moves[k - 1]) && states[k - 1 + 1] == Moved(states[k - 1], moves[k - 1]);
      assert Spares(states[k - 1], moves[k - 1], id, o);
      StaysDue(states[k - 1], moves[k - 1], id, o, p);
      CountsGrow(states[k - 1], moves[k - 1], o);
    }
  }

  lemma FollowInvalidates(s: Changing, from: seq<Path>, id: int, forget: int, o: Path)
    requires CanMove(s, Follow(from, id, forget)) && o in s.changes[id].changed && o in s.t.commands
    ensures var u := Moved(s, Follow(from, id, forget)).t;
      o in u.stale && CountAt(u, o) == CountAt(s.t, o) + 1
  {
    ReachedFirst(s.t.commands.Keys, ReadersOf(s.t), from, o);
    assert o in Affected(s.t, from);
    hide Affected;
  }

  /** Whatever comes between the sections of a change, what it changed, and what had read anything that came or went, is
      invalidated by its end, unless it has gone by then or what it read is recorded anew. */
  lemma ChangeInvalidates(states: seq<Changing>, moves: seq<Move>, j: nat, k: nat, o: Path, p: Path)
    requires IsRun(states, moves) && j < k < |moves| && moves[j].Apply? && moves[k].Follow? && moves[k].id == moves[j].id
    requires o in moves[j].commands
    requires var t, commands := states[j].t, moves[j].commands;
      o in moves[j].watched + ChangedOf(t.commands, commands) || (p in MovedBy(t, commands) && HasRead(t, o, AsInput(p)) && o in t.commands)
    requires Undisturbed(states, moves, j, k, moves[j].id, o)
    ensures o in states[k + 1].t.stale && CountAt(states[k + 1].t, o) > CountAt(states[j].t, o)
  {
    var id := moves[j].id;
    hide CanMove, Moved, Due, Spares, MovedBy, ChangedOf;
    assert CanMove(states[j], moves[j]) && states[j + 1] == Moved(states[j], moves[j]);
    assert CanMove(states[k], moves[k]) && states[k + 1] == Moved(states[k], moves[k]);
    ApplyMakesDue(states[j], moves[j], o, p);
    CountsGrow(states[j], moves[j], o);
    DueUntil(states, moves, j, k, id, o, p);
    DueIsFollowed(states[k], moves[k], o, p);
  }

  lemma ApplyMakesDue(s: Changing, move: Move, o: Path, p: Path)
    requires CanMove(s, move) && move.Apply? && o in move.commands
    requires o in move.watched + ChangedOf(s.t.commands, move.commands)
      || (p in MovedBy(s.t, move.commands) && HasRead(s.t, o, AsInput(p)) && o in s.t.commands)
    ensures Due(Moved(s, move), move.id, o, p) && o in Moved(s, move).t.commands
  {
    hide Bump, AsInput;
  }

  lemma DueIsFollowed(s: Changing, move: Move, o: Path, p: Path)
    requires CanMove(s, move) && move.Follow? && Due(s, move.id, o, p) && o in s.t.commands
    ensures o in Moved(s, move).t.stale && CountAt(Moved(s, move).t, o) == CountAt(s.t, o) + 1
  {
    FollowInvalidates(s, move.from, move.id, move.forget, o);
  }

  // ---- And nothing else ------------------------------------------------------------------------

  ghost predicate StillUnderWay(moves: seq<Move>, j: nat, i: nat, id: int)
    requires i <= |moves|
  {
    forall m :: j < m < i && moves[m].Follow? ==> moves[m].id != id
  }

  /** How a change stands, some moves after it began. */
  lemma {:induction false} ChangeAt(states: seq<Changing>, moves: seq<Move>, j: nat, i: nat) returns (m: nat)
    requires IsRun(states, moves) && j < i <= |moves| && moves[j].Apply? && StillUnderWay(moves, j, i, moves[j].id)
    ensures moves[j].id in states[i].changes
    ensures var s, begun := states[i].changes[moves[j].id], Begun(states[j].t, moves[j].commands, moves[j].watched);
      if !s.collected then s == begun
      else j < m < i && moves[m] == Collect(moves[j].id) && s.changed == begun.changed + ReadersAt(states[m].t, begun.moved)
    decreases i
  {
    hide MovedBy, ChangedOf, Enabled, Next, HasReadAny;
    var id := moves[j].id;
    m := j;
    assert CanMove(states[i - 1], moves[i - 1]) && states[i - 1 + 1] == Moved(states[i - 1], moves[i - 1]);
    if i > j + 1 {
      m := ChangeAt(states, moves, j, i - 1);
      if moves[i - 1] == Collect(id) {
        m := i - 1;
      }
    }
  }

  /** What a change invalidates, with all that reads it, is what it changed and what had read anything that came or went
      as the readers were added, and nothing else. */
  lemma ChangeInvalidatesOnly(states: seq<Changing>, moves: seq<Move>, j: nat, k: nat) returns (m: nat)
    requires IsRun(states, moves) && j < k < |moves| && moves[j].Apply? && moves[k].Follow? && moves[k].id == moves[j].id
    requires StillUnderWay(moves, j, k, moves[j].id)
    ensures j < m < k && moves[m] == Collect(moves[j].id)
    ensures var t, commands := states[j].t, moves[j].commands;
      forall o :: o in moves[k].from
        <==> o in moves[j].watched + ChangedOf(t.commands, commands) || (o in states[m].t.dependencies && HasReadAny(states[m].t, o, MovedBy(t, commands)))
  {
    m := ChangeAt(states, moves, j, k);
    assert CanMove(states[k], moves[k]);
    hide Moved, MovedBy, HasReadAny, ChangedOf;
  }
}
