/** Which lines of a manifest are accepted, and the rules they declare. */
module Parse {
  import opened Paths
  import opened Wrappers
  import opened Manifest
  import opened Feeds
  import opened Graphs

  /** A word naming a file: under `@/` or not, and the path it names, if one inside that directory. */
  datatype Word = Word(underOutputs: bool, inside: Option<Path>)

  predicate HasStar(p: Path) {
    exists i :: 0 <= i < |p| && '*' in p[i]
  }

  /** A rule line cut into words. `word` is a copy's argument, or a wildcard command's first word with a star. */
  datatype Line = Line(
    number: nat,
    output: Option<Path>,
    star: bool,
    action: Action,
    argument: string,
    word: Option<Word>)
  {
    predicate WellFormed() {
      && (output.Some? ==> output.value != [] && Normal(output.value) && (star <==> HasStar(output.value)))
      && (word.Some? && word.value.inside.Some? ==> word.value.inside.value != [] && Normal(word.value.inside.value))
      && (action == Copy ==> word.Some?)
    }
  }

  /** A line that stands: its rule and, for a copy of an output, the output copied. */
  datatype Entry = Entry(rule: Rule, line: nat, copied: Option<Path>)

  /** Exactly one star in the whole path, in its file name. */
  predicate IsWildcardPattern(p: Path) {
    && p != [] && '*' in FileName(p)
    && '*' !in FileName(p)[StarAt(FileName(p)) + 1..]
    && forall i :: 0 <= i < |p| - 1 ==> '*' !in p[i]
  }

  function Render(p: Path): string {
    if p == [] then "" else if |p| == 1 then p[0] else Render(p[..|p| - 1]) + "/" + p[|p| - 1]
  }

  function RenderWord(w: Word): string
    requires w.inside.Some?
  {
    (if w.underOutputs then "@/" else "") + Render(w.inside.value)
  }

  /** What a line declares taken by itself, if it is well shaped. */
  function Shape(line: Line): (e: Option<Entry>)
    requires line.WellFormed()
    ensures e.Some? ==> e.value.rule.WellFormed() && e.value.line == line.number
  {
    if line.star then
      if line.action == Tracing || line.word.None? then None
      else
        var word := line.word.value;
        if word.inside.None? || !IsWildcardPattern(word.inside.value) then None
        else if line.output.None? || !IsWildcardPattern(line.output.value) then None
        else
          var command := if line.action == Copy then RenderWord(word) else line.argument;
          Some(Entry(Rule(line.output.value, line.action, command, word.inside.value, word.underOutputs), line.number, None))
    else if line.action == Copy then
      var word := line.word.value;
      if word.inside.None? then None
      else if word.underOutputs && word.inside == line.output then None
      else if line.output.None? then None
      else
        Some(Entry(Rule(line.output.value, line.action, RenderWord(word), [], false), line.number,
                   if word.underOutputs then word.inside else None))
    else if line.output.None? then None
    else Some(Entry(Rule(line.output.value, line.action, line.argument, [], false), line.number, None))
  }

  ghost predicate WellFormedLines(lines: seq<Line>) {
    forall i :: 0 <= i < |lines| ==> lines[i].WellFormed()
  }

  ghost predicate WellFormedEntries(entries: seq<Entry>) {
    forall i :: 0 <= i < |entries| ==> entries[i].rule.WellFormed()
  }

  function RulesOf(entries: seq<Entry>): (rules: seq<Rule>)
    ensures |rules| == |entries| && forall i :: 0 <= i < |rules| ==> rules[i] == entries[i].rule
  {
    seq(|entries|, i requires 0 <= i < |entries| => entries[i].rule)
  }

  ghost predicate ConflictsWithAny(entries: seq<Entry>, rule: Rule)
    requires WellFormedEntries(entries) && rule.WellFormed()
  {
    exists i :: 0 <= i < |entries| && Conflict(entries[i].rule, rule)
  }

  /** The lines that stand beside every line that stands before them. */
  ghost function Accepted(lines: seq<Line>): (entries: seq<Entry>)
    requires WellFormedLines(lines)
    ensures WellFormedEntries(entries) && |entries| <= |lines|
  {
    if lines == [] then []
    else
      var before := Accepted(lines[..|lines| - 1]);
      var shape := Shape(lines[|lines| - 1]);
      if shape.None? || ConflictsWithAny(before, shape.value.rule) then before else before + [shape.value]
  }

  /** The numbers of the lines that do not. */
  ghost function Rejected(lines: seq<Line>): set<nat>
    requires WellFormedLines(lines)
  {
    if lines == [] then {}
    else
      var last := lines[|lines| - 1];
      var before := lines[..|lines| - 1];
      var shape := Shape(last);
      Rejected(before)
      + (if shape.None? || ConflictsWithAny(Accepted(before), shape.value.rule) then {last.number} else {})
  }

  ghost predicate Declares(entries: seq<Entry>, o: Path) {
    exists i :: 0 <= i < |entries| && !entries[i].rule.IsWildcard() && entries[i].rule.output == o
  }

  /** Accepted, but left out in the end, for what no line declares or because it could feed itself. */
  ghost predicate Falls(entries: seq<Entry>, i: int)
    requires WellFormedEntries(entries) && 0 <= i < |entries|
  {
    || (entries[i].copied.Some? && !Declares(entries, entries[i].copied.value))
    || Reaches(FeedGraph(RulesOf(entries)), i, i)
  }

  /** The rules left once the entries from `from` on that fall are taken out. */
  ghost function Kept(entries: seq<Entry>, from: nat): (rules: seq<Rule>)
    requires WellFormedEntries(entries) && from <= |entries|
    ensures WellFormedRules(rules)
    decreases |entries| - from
  {
    if from == |entries| then []
    else (if Falls(entries, from) then [] else [entries[from].rule]) + Kept(entries, from + 1)
  }

  /** What the accepted lines have declared so far, and what their wildcards ban. */
  ghost predicate Tracks(entries: seq<Entry>, files: set<Path>, directories: set<Path>, banned: map<Path, set<string>>)
    requires WellFormedEntries(entries)
  {
    && (forall o :: o in files <==> Declares(entries, o))
    && (forall d :: d in directories <==> d != [] && exists i :: 0 <= i < |entries| && d < entries[i].rule.output)
    && (forall d, s :: d in banned && s in banned[d] <==> BanFrom(entries, d, s))
  }

  ghost predicate BanFrom(entries: seq<Entry>, d: Path, suffix: string)
    requires WellFormedEntries(entries)
  {
    exists i :: 0 <= i < |entries| && entries[i].rule.IsWildcard()
      && Parent(entries[i].rule.output) == d && OutputPattern(entries[i].rule).suffix == suffix
  }

  /** The path ends in a suffix banned from its directory. */
  predicate EndsBanned(banned: map<Path, set<string>>, p: Path)
    requires p != []
  {
    Parent(p) in banned && exists s :: s in banned[Parent(p)] && EndsWith(FileName(p), s)
  }

  /** A directory above `p` is taken: by an output, or by a suffix only a wildcard's files may have. */
  method ParentClashes(files: set<Path>, banned: map<Path, set<string>>, p: Path) returns (clash: bool)
    ensures clash <==> exists d :: d != [] && d < p && (d in files || EndsBanned(banned, d))
  {
    var parent := Parent(p);
    while parent != []
      invariant parent <= p && (p != [] ==> parent < p)
      invariant forall d :: d != [] && d < p && |d| > |parent| ==> !(d in files || EndsBanned(banned, d))
      decreases |parent|
    {
      if parent in files || EndsBanned(banned, parent) {
        return true;
      }
      assert forall d :: d < p && |d| == |parent| ==> d == parent;
      parent := Parent(parent);
    }
    return false;
  }

  /** Whether the new rule conflicts with an accepted one, found from what they left behind. */
  method Clashes(ghost entries: seq<Entry>, files: set<Path>, directories: set<Path>, banned: map<Path, set<string>>, rule: Rule)
    returns (clash: bool)
    requires WellFormedEntries(entries) && rule.WellFormed()
    requires Tracks(entries, files, directories, banned)
    ensures clash <==> ConflictsWithAny(entries, rule)
  {
    var above := ParentClashes(files, banned, rule.output);
    ClashAbove(entries, files, directories, banned, rule);
    if rule.output in files || rule.output in directories || above {
      return true;
    }
    if !rule.IsWildcard() {
      clash := EndsBanned(banned, rule.output);
      SimpleClash(entries, files, directories, banned, rule);
    } else {
      var suffix := PatternOf(FileName(rule.output)).suffix;
      var directory := Parent(rule.output);
      clash :=
        || (exists f :: f in files && f != [] && Parent(f) == directory && EndsWith(FileName(f), suffix))
        || (exists d :: d in directories && d != [] && Parent(d) == directory && EndsWith(FileName(d), suffix))
        || (directory in banned && exists s :: s in banned[directory] && (EndsWith(suffix, s) || EndsWith(s, suffix)));
      WildcardClash(entries, files, directories, banned, rule);
    }
  }

  /** The part of a conflict that any rule can have. */
  ghost predicate ConflictAbove(earlier: Rule, later: Rule)
    requires earlier.WellFormed() && later.WellFormed()
  {
    || (!earlier.IsWildcard() && earlier.output <= later.output)
    || later.output < earlier.output
    || (earlier.IsWildcard() && BansAbove(earlier, later.output))
  }

  lemma ClashAbove(entries: seq<Entry>, files: set<Path>, directories: set<Path>, banned: map<Path, set<string>>, rule: Rule)
    requires WellFormedEntries(entries) && rule.WellFormed() && Tracks(entries, files, directories, banned)
    ensures
      (rule.output in files || rule.output in directories
       || exists d :: d != [] && d < rule.output && (d in files || EndsBanned(banned, d)))
      <==> exists i :: 0 <= i < |entries| && ConflictAbove(entries[i].rule, rule)
  {
    forall d | d != [] && d < rule.output && EndsBanned(banned, d)
      ensures exists i :: 0 <= i < |entries| && ConflictAbove(entries[i].rule, rule)
    {
      var s :| s in banned[Parent(d)] && EndsWith(FileName(d), s);
      assert BanFrom(entries, Parent(d), s);
      var i :| 0 <= i < |entries| && entries[i].rule.IsWildcard()
        && Parent(entries[i].rule.output) == Parent(d) && OutputPattern(entries[i].rule).suffix == s;
      assert Banned(entries[i].rule, d);
    }
    forall i | 0 <= i < |entries| && ConflictAbove(entries[i].rule, rule)
      ensures rule.output in files || rule.output in directories
        || exists d :: d != [] && d < rule.output && (d in files || EndsBanned(banned, d))
    {
      var e := entries[i].rule;
      if e.IsWildcard() && BansAbove(e, rule.output) {
        var d :| d < rule.output && Banned(e, d);
        assert BanFrom(entries, Parent(d), OutputPattern(e).suffix);
        assert EndsBanned(banned, d);
      } else if !e.IsWildcard() && e.output <= rule.output {
        assert Declares(entries, e.output);
      }
    }
  }

  lemma SimpleClash(entries: seq<Entry>, files: set<Path>, directories: set<Path>, banned: map<Path, set<string>>, rule: Rule)
    requires WellFormedEntries(entries) && rule.WellFormed() && !rule.IsWildcard()
    requires Tracks(entries, files, directories, banned)
    requires !exists i :: 0 <= i < |entries| && ConflictAbove(entries[i].rule, rule)
    ensures EndsBanned(banned, rule.output) <==> ConflictsWithAny(entries, rule)
  {
    if EndsBanned(banned, rule.output) {
      var s :| s in banned[Parent(rule.output)] && EndsWith(FileName(rule.output), s);
      assert BanFrom(entries, Parent(rule.output), s);
    }
    if i :| 0 <= i < |entries| && Conflict(entries[i].rule, rule) {
      var e := entries[i].rule;
      assert !ConflictAbove(e, rule);
      assert BanFrom(entries, Parent(rule.output), OutputPattern(e).suffix);
    }
  }

  lemma WildcardClash(entries: seq<Entry>, files: set<Path>, directories: set<Path>, banned: map<Path, set<string>>, rule: Rule)
    requires WellFormedEntries(entries) && rule.WellFormed() && rule.IsWildcard()
    requires Tracks(entries, files, directories, banned)
    requires !exists i :: 0 <= i < |entries| && ConflictAbove(entries[i].rule, rule)
    ensures var suffix := OutputPattern(rule).suffix;
      var directory := Parent(rule.output);
      (|| (exists f :: f in files && f != [] && Parent(f) == directory && EndsWith(FileName(f), suffix))
       || (exists d :: d in directories && d != [] && Parent(d) == directory && EndsWith(FileName(d), suffix))
       || (directory in banned && exists s :: s in banned[directory] && (EndsWith(suffix, s) || EndsWith(s, suffix))))
      <==> ConflictsWithAny(entries, rule)
  {
    var suffix := OutputPattern(rule).suffix;
    var directory := Parent(rule.output);
    forall f | f in files && f != [] && Parent(f) == directory && EndsWith(FileName(f), suffix)
      ensures ConflictsWithAny(entries, rule)
    {
      assert Declares(entries, f) && Banned(rule, f);
    }
    forall d | d in directories && d != [] && Parent(d) == directory && EndsWith(FileName(d), suffix)
      ensures ConflictsWithAny(entries, rule)
    {
      var i :| 0 <= i < |entries| && d < entries[i].rule.output;
      assert Banned(rule, d);
      assert BansAbove(rule, entries[i].rule.output);
    }
    if directory in banned {
      forall s | s in banned[directory] && (EndsWith(suffix, s) || EndsWith(s, suffix))
        ensures ConflictsWithAny(entries, rule)
      {
        assert BanFrom(entries, directory, s);
      }
    }
    if i :| 0 <= i < |entries| && Conflict(entries[i].rule, rule) {
      WildcardClashFound(entries, files, directories, banned, rule, i);
    }
  }

  lemma WildcardClashFound(entries: seq<Entry>, files: set<Path>, directories: set<Path>, banned: map<Path, set<string>>, rule: Rule, i: nat)
    requires WellFormedEntries(entries) && rule.WellFormed() && rule.IsWildcard()
    requires Tracks(entries, files, directories, banned)
    requires i < |entries| && Conflict(entries[i].rule, rule) && !ConflictAbove(entries[i].rule, rule)
    ensures var suffix := OutputPattern(rule).suffix;
      var directory := Parent(rule.output);
      || (exists f :: f in files && f != [] && Parent(f) == directory && EndsWith(FileName(f), suffix))
      || (exists d :: d in directories && d != [] && Parent(d) == directory && EndsWith(FileName(d), suffix))
      || (directory in banned && exists s :: s in banned[directory] && (EndsWith(suffix, s) || EndsWith(s, suffix)))
  {
    var e := entries[i].rule;
    if !e.IsWildcard() && Banned(rule, e.output) {
      assert Declares(entries, e.output);
    } else if BansAbove(rule, e.output) {
      var d :| d < e.output && Banned(rule, d);
      assert d in directories;
    } else {
      assert BanFrom(entries, Parent(rule.output), OutputPattern(e).suffix);
    }
  }

  /** The non-root directories above a path, added one parent at a time. */
  method AddParents(directories: set<Path>, p: Path) returns (all: set<Path>)
    ensures forall d :: d in all <==> d in directories || (d != [] && d < p)
  {
    all := directories;
    var parent := Parent(p);
    while parent != []
      invariant parent <= p && (p != [] ==> parent < p)
      invariant forall d :: d in all <==> d in directories || (d != [] && d < p && |d| > |parent|)
      decreases |parent|
    {
      all := all + {parent};
      assert forall d :: d < p && |d| == |parent| ==> d == parent;
      parent := Parent(parent);
    }
  }

  /** What one well-shaped rule adds to what is tracked. */
  method Declare(ghost entries: seq<Entry>, e: Entry, files0: set<Path>, directories0: set<Path>, banned0: map<Path, set<string>>)
    returns (files: set<Path>, directories: set<Path>, banned: map<Path, set<string>>)
    requires WellFormedEntries(entries) && e.rule.WellFormed() && Tracks(entries, files0, directories0, banned0)
    ensures Tracks(entries + [e], files, directories, banned)
  {
    files, banned := files0, banned0;
    var rule := e.rule;
    if rule.IsWildcard() {
      var directory := Parent(rule.output);
      var siblings := if directory in banned then banned[directory] else {};
      banned := banned[directory := siblings + {PatternOf(FileName(rule.output)).suffix}];
    } else {
      files := files + {rule.output};
    }
    directories := AddParents(directories0, rule.output);
    StillTracks(entries, e, files0, directories0, banned0, files, directories, banned);
  }

  /** Accepts or rejects each line in turn. */
  method ReadLines(lines: seq<Line>) returns (entries: seq<Entry>, errors: set<nat>, files: set<Path>)
    requires WellFormedLines(lines)
    ensures entries == Accepted(lines) && errors == Rejected(lines)
    ensures forall o :: o in files <==> Declares(entries, o)
  {
    entries := [];
    var directories: set<Path>, banned: map<Path, set<string>>;
    files, directories, banned := {}, {}, map[];
    errors := {};
    for n := 0 to |lines|
      invariant entries == Accepted(lines[..n]) && errors == Rejected(lines[..n])
      invariant Tracks(entries, files, directories, banned)
    {
      assert lines[..n + 1][..n] == lines[..n];
      var shape := Shape(lines[n]);
      var rejected := shape.None?;
      if !rejected {
        rejected := Clashes(entries, files, directories, banned, shape.value.rule);
      }
      if rejected {
        errors := errors + {lines[n].number};
      } else {
        files, directories, banned := Declare(entries, shape.value, files, directories, banned);
        entries := entries + [shape.value];
      }
    }
    assert lines[..|lines|] == lines;
  }

  /** The lines of the entries that fall. */
  ghost function FallenLines(entries: seq<Entry>): set<nat>
    requires WellFormedEntries(entries)
  {
    set i | 0 <= i < |entries| && Falls(entries, i) :: entries[i].line
  }

  /** Finds the entries that copy nothing declared, or could feed themselves. */
  method FindFallen(entries: seq<Entry>, files: set<Path>) returns (dropped: set<int>, errors: set<nat>)
    requires WellFormedEntries(entries)
    requires forall o :: o in files <==> Declares(entries, o)
    ensures forall j :: j in dropped <==> 0 <= j < |entries| && Falls(entries, j)
    ensures errors == FallenLines(entries)
  {
    var feeds := Close(RulesOf(entries));
    dropped, errors := {}, {};
    for i := 0 to |entries|
      invariant forall j :: j in dropped <==> 0 <= j < i && Falls(entries, j)
      invariant errors == set j | 0 <= j < i && Falls(entries, j) :: entries[j].line
    {
      if (entries[i].copied.Some? && entries[i].copied.value !in files) || feeds[i, i] {
        assert Falls(entries, i);
        errors := errors + {entries[i].line};
        dropped := dropped + {i};
      } else {
        assert !Falls(entries, i);
      }
    }
  }

  /** Reads every line, then drops what cannot stand: copies of nothing, and rules that feed themselves. */
  method Parse(lines: seq<Line>) returns (rules: seq<Rule>, errors: set<nat>)
    requires WellFormedLines(lines)
    ensures rules == Kept(Accepted(lines), 0)
    ensures errors == Rejected(lines) + FallenLines(Accepted(lines))
  {
    hide Accepted, Rejected, FallenLines, Falls, Declares, WellFormedLines;
    var entries, rejected, files := ReadLines(lines);
    var dropped, fallen := FindFallen(entries, files);
    errors := rejected + fallen;
    rules := [];
    var i := |entries|;
    while i > 0
      invariant 0 <= i <= |entries|
      invariant rules == Kept(entries, i)
    {
      i := i - 1;
      if i !in dropped {
        rules := [entries[i].rule] + rules;
      }
    }
  }

  lemma StillTracks(entries: seq<Entry>, e: Entry,
                    files0: set<Path>, directories0: set<Path>, banned0: map<Path, set<string>>,
                    files: set<Path>, directories: set<Path>, banned: map<Path, set<string>>)
    requires WellFormedEntries(entries) && e.rule.WellFormed() && Tracks(entries, files0, directories0, banned0)
    requires files == if e.rule.IsWildcard() then files0 else files0 + {e.rule.output}
    requires forall d :: d in directories <==> d in directories0 || (d != [] && d < e.rule.output)
    requires banned == if !e.rule.IsWildcard() then banned0 else
      banned0[Parent(e.rule.output) :=
        (if Parent(e.rule.output) in banned0 then banned0[Parent(e.rule.output)] else {}) + {OutputPattern(e.rule).suffix}]
    ensures Tracks(entries + [e], files, directories, banned)
  {
    var all := entries + [e];
    var n := |entries|;
    assert all[n] == e && forall i :: 0 <= i < n ==> all[i] == entries[i];
    forall o ensures o in files <==> Declares(all, o) {
      if Declares(entries, o) {
        var i :| 0 <= i < n && !entries[i].rule.IsWildcard() && entries[i].rule.output == o;
        assert all[i] == entries[i];
      }
    }
    forall d ensures d in directories <==> d != [] && exists i :: 0 <= i < |all| && d < all[i].rule.output {
      if d in directories0 {
        var i :| 0 <= i < n && d < entries[i].rule.output;
        assert d < all[i].rule.output;
      }
    }
    forall d, s ensures d in banned && s in banned[d] <==> BanFrom(all, d, s) {
      if BanFrom(entries, d, s) {
        var i :| 0 <= i < n && entries[i].rule.IsWildcard()
          && Parent(entries[i].rule.output) == d && OutputPattern(entries[i].rule).suffix == s;
        assert all[i] == entries[i];
      }
      if BanFrom(all, d, s) && !BanFrom(entries, d, s) {
        var i :| 0 <= i <= n && all[i].rule.IsWildcard()
          && Parent(all[i].rule.output) == d && OutputPattern(all[i].rule).suffix == s;
        assert i == n;
      }
    }
  }

  // ---- What an error-free manifest guarantees --------------------------------------------------

  lemma {:induction false} AcceptedIsConflictFree(lines: seq<Line>)
    requires WellFormedLines(lines)
    ensures ConflictFree(RulesOf(Accepted(lines)))
  {
    if lines != [] {
      AcceptedIsConflictFree(lines[..|lines| - 1]);
      var before := Accepted(lines[..|lines| - 1]);
      var all := Accepted(lines);
      var rules := RulesOf(all);
      forall i, j | 0 <= i < j < |rules| ensures !Conflict(rules[i], rules[j]) {
        assert i < |before| && before[i].rule == rules[i];
        if j < |before| {
          assert RulesOf(before)[i] == rules[i] && RulesOf(before)[j] == rules[j];
        }
      }
    }
  }

  lemma {:induction false} NothingRejectedKeepsAll(lines: seq<Line>)
    requires WellFormedLines(lines) && Rejected(lines) == {}
    ensures |Accepted(lines)| == |lines|
    ensures forall i :: 0 <= i < |lines| ==> Shape(lines[i]) == Some(Accepted(lines)[i])
  {
    hide Shape, ConflictsWithAny, HasStar, Normal;
    if lines != [] {
      var before := lines[..|lines| - 1];
      assert Rejected(before) <= Rejected(lines);
      NothingRejectedKeepsAll(before);
      assert lines[|lines| - 1].number !in Rejected(lines);
    }
  }

  lemma {:induction false} NothingFallsKeepsAll(entries: seq<Entry>, from: nat)
    requires WellFormedEntries(entries) && from <= |entries|
    requires forall i :: 0 <= i < |entries| ==> !Falls(entries, i)
    ensures Kept(entries, from) == RulesOf(entries)[from..]
    decreases |entries| - from
  {
    if from < |entries| {
      NothingFallsKeepsAll(entries, from + 1);
      assert RulesOf(entries)[from..] == [entries[from].rule] + RulesOf(entries)[from + 1..];
    }
  }

  lemma NothingFalls(entries: seq<Entry>)
    requires WellFormedEntries(entries) && FallenLines(entries) == {}
    ensures Kept(entries, 0) == RulesOf(entries)
  {
    assert forall i :: 0 <= i < |entries| && Falls(entries, i) ==> entries[i].line in FallenLines(entries);
    NothingFallsKeepsAll(entries, 0);
  }

  /** Which entries are kept, in order. */
  ghost function KeptAt(entries: seq<Entry>, from: nat): (at: seq<nat>)
    requires WellFormedEntries(entries) && from <= |entries|
    ensures |at| == |Kept(entries, from)|
    ensures forall i :: 0 <= i < |at| ==>
      from <= at[i] < |entries| && !Falls(entries, at[i]) && Kept(entries, from)[i] == entries[at[i]].rule
    ensures forall i, j :: 0 <= i < j < |at| ==> at[i] < at[j]
    decreases |entries| - from
  {
    if from == |entries| then []
    else (if Falls(entries, from) then [] else [from]) + KeptAt(entries, from + 1)
  }

  /** What is left of the rules feeds no further than all of them did. */
  lemma {:induction false} KeptFeedsNoFurther(entries: seq<Entry>, p: seq<int>, a: nat, b: nat)
    requires WellFormedEntries(entries)
    requires a < |Kept(entries, 0)| && b < |Kept(entries, 0)| && PathBetween(FeedGraph(Kept(entries, 0)), p, a, b)
    ensures Connected(FeedGraph(RulesOf(entries)), KeptAt(entries, 0)[a], KeptAt(entries, 0)[b])
    decreases |p|
  {
    var g, at := FeedGraph(RulesOf(entries)), KeptAt(entries, 0);
    if |p| == 1 {
      EmptyPath(g, at[a]);
    } else {
      PathTail(FeedGraph(Kept(entries, 0)), p, a, b);
      KeptFeedsNoFurther(entries, p[1..], p[1], b);
      KeptFeeds(entries, a, p[1]);
      Prepend(g, at[a], at[p[1]], at[b]);
    }
  }

  lemma KeptFeeds(entries: seq<Entry>, a: nat, b: nat)
    requires WellFormedEntries(entries)
    requires a < |Kept(entries, 0)| && b < |Kept(entries, 0)| && Edge(FeedGraph(Kept(entries, 0)), a, b)
    ensures Edge(FeedGraph(RulesOf(entries)), KeptAt(entries, 0)[a], KeptAt(entries, 0)[b])
  {
    var at := KeptAt(entries, 0);
    FeedEdge(Kept(entries, 0), a, b);
    FeedEdge(RulesOf(entries), at[a], at[b]);
  }

  /** Errors or not, what is left of a manifest is free of conflict, and none of it can feed itself. */
  lemma KeptRulesStand(lines: seq<Line>)
    requires WellFormedLines(lines)
    ensures var rules := Kept(Accepted(lines), 0); ConflictFree(rules) && NoneFeedsItself(rules)
  {
    AcceptedIsConflictFree(lines);
    var entries := Accepted(lines);
    var rules, at := Kept(entries, 0), KeptAt(entries, 0);
    forall i, j | 0 <= i < j < |rules| ensures !Conflict(rules[i], rules[j]) {
      assert at[i] < at[j] && !Conflict(RulesOf(entries)[at[i]], RulesOf(entries)[at[j]]);
    }
    forall r ensures !Reaches(FeedGraph(rules), r, r) {
      if m :| Edge(FeedGraph(rules), r, m) && Connected(FeedGraph(rules), m, r) {
        var p :| PathBetween(FeedGraph(rules), p, m, r);
        KeptFeedsNoFurther(entries, p, m, r);
        KeptFeeds(entries, r, m);
        assert false;
      }
    }
  }

  /** No error: every line stands, no two rules can collide, and none can feed itself. */
  lemma ErrorFreeManifest(lines: seq<Line>)
    requires WellFormedLines(lines)
    requires Rejected(lines) + FallenLines(Accepted(lines)) == {}
    ensures var rules := Kept(Accepted(lines), 0);
      && |rules| == |lines|
      && (forall i :: 0 <= i < |lines| ==> Shape(lines[i]).Some? && rules[i] == Shape(lines[i]).value.rule)
      && ConflictFree(rules) && NoneFeedsItself(rules)
  {
    NothingRejectedKeepsAll(lines);
    NothingFalls(Accepted(lines));
    KeptRulesStand(lines);
  }

  /** Whatever lines are accepted, stars are where they stand for something, so what keeps rules apart is what they claim. */
  lemma {:induction false} AcceptedStarsInPlace(lines: seq<Line>)
    requires WellFormedLines(lines)
    ensures forall i :: 0 <= i < |Accepted(lines)| ==> StarsInPlace(Accepted(lines)[i].rule)
  {
    if lines != [] {
      AcceptedStarsInPlace(lines[..|lines| - 1]);
      var last := lines[|lines| - 1];
      assert last.WellFormed();
      assert Shape(last).Some? ==> StarsInPlace(Shape(last).value.rule);
    }
  }

  /** A well-shaped line is rejected just if a line accepted before it claims a path that it claims. */
  lemma RejectedIffContested(lines: seq<Line>, line: Line)
    requires WellFormedLines(lines) && line.WellFormed() && Shape(line).Some?
    ensures WellFormedLines(lines + [line])
    ensures |Accepted(lines + [line])| == |Accepted(lines)|
      <==> exists i :: 0 <= i < |Accepted(lines)| && Contested(Accepted(lines)[i].rule, Shape(line).value.rule)
  {
    var all := lines + [line];
    assert all[..|all| - 1] == lines;
    AcceptedStarsInPlace(lines);
    assert StarsInPlace(Shape(line).value.rule);
    var entries, rule := Accepted(lines), Shape(line).value.rule;
    forall i | 0 <= i < |entries| ensures Conflict(entries[i].rule, rule) <==> Contested(entries[i].rule, rule) {
      ConflictIffContested(entries[i].rule, rule);
    }
    hide Conflict, Contested, Shape;
  }

  /** The rule of a line that is well shaped has its output and action, and, if it is a wildcard, the word it is over. */
  lemma ShapedIs(line: Line)
    requires line.WellFormed()
    ensures Shape(line).Some? <==>
      && line.output.Some?
      && (line.star ==> line.action != Tracing && line.word.Some? && line.word.value.inside.Some?
                        && IsWildcardPattern(line.output.value) && IsWildcardPattern(line.word.value.inside.value))
      && (!line.star && line.action == Copy ==>
            line.word.value.inside.Some? && !(line.word.value.underOutputs && line.word.value.inside == line.output))
    ensures Shape(line).Some? ==>
      var e := Shape(line).value;
      && e.rule.output == line.output.value && e.rule.action == line.action && e.line == line.number
      && (e.rule.IsWildcard() <==> line.star)
      && (line.star ==> e.rule.source == line.word.value.inside.value && e.rule.overOutputs == line.word.value.underOutputs)
      && e.copied == (if !line.star && line.action == Copy && line.word.value.underOutputs then line.word.value.inside else None)
      && e.rule.command == if line.action == Copy then RenderWord(line.word.value) else line.argument
  {
  }

  /** Every copy of an output that is left standing copies one that a simple rule accepted declares. */
  lemma CopiesAreDeclared(lines: seq<Line>, i: nat)
    requires WellFormedLines(lines) && i < |Accepted(lines)| && !Falls(Accepted(lines), i) && Accepted(lines)[i].copied.Some?
    ensures Declares(Accepted(lines), Accepted(lines)[i].copied.value)
  {
  }

  /** A rule accepted is left out just if it copies an output that none declares, or could feed itself; the rest stand in order. */
  lemma KeptIff(lines: seq<Line>, r: Rule)
    requires WellFormedLines(lines)
    ensures r in Kept(Accepted(lines), 0) <==> exists i :: 0 <= i && KeptAs(Accepted(lines), i, r)
  {
    var entries := Accepted(lines);
    KeptFromIff(entries, 0, r);
  }

  ghost predicate KeptAs(entries: seq<Entry>, i: int, r: Rule)
    requires WellFormedEntries(entries)
  {
    0 <= i < |entries| && entries[i].rule == r && !Falls(entries, i)
  }

  lemma {:induction false} KeptFromIff(entries: seq<Entry>, from: nat, r: Rule)
    requires WellFormedEntries(entries) && from <= |entries|
    ensures r in Kept(entries, from) <==> exists i :: from <= i && KeptAs(entries, i, r)
    decreases |entries| - from
  {
    hide Falls;
    if from < |entries| {
      KeptFromIff(entries, from + 1, r);
      hide KeptAs;
      assert KeptAs(entries, from, r) <==> entries[from].rule == r && !Falls(entries, from) by {
        KeptAsIs(entries, from, r);
      }
      if i :| from <= i && KeptAs(entries, i, r) {
        assert i == from || from + 1 <= i;
      }
    } else {
      forall i | from <= i ensures !KeptAs(entries, i, r) {
      }
    }
  }

  lemma KeptAsIs(entries: seq<Entry>, i: nat, r: Rule)
    requires WellFormedEntries(entries) && i < |entries|
    ensures KeptAs(entries, i, r) <==> entries[i].rule == r && !Falls(entries, i)
  {
  }
}
