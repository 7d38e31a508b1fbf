/** The commands that rules stand for, given the source files there are. */
module Expand {
  import opened Paths
  import opened Manifest
  import opened Feeds
  import opened Graphs

  datatype Command = Command(output: Path, action: Action, text: string)

  /** What a directory of the source lists: a name, and whether it is a file. */
  datatype Listed = Listed(name: Name, isFile: bool)

  /** What each directory lists; of the others nothing is known. */
  type Source = map<Path, seq<Listed>>

  function CommandOf(r: Rule): Command {
    Command(r.output, r.action, r.command)
  }

  predicate HasFile(source: Source, d: Path, name: Name) {
    d in source && Listed(name, true) in source[d]
  }

  /** Wildcard `r` matches the output `o`. */
  predicate MatchesOutput(r: Rule, o: Path)
    requires r.WellFormed()
  {
    r.overOutputs && o != [] && Parent(o) == Parent(r.source) && SourcePattern(r).Matches(FileName(o))
  }

  function MadeFrom(r: Rule, name: Name): Rule
    requires r.WellFormed() && r.IsWildcard() && SourcePattern(r).Matches(name)
  {
    Filled(r, SourcePattern(r).Stem(name))
  }

  /** `o` is declared by a simple rule, or by a wildcard over the source files. */
  ghost predicate Based(source: Source, rules: seq<Rule>, o: Path)
    requires WellFormedRules(rules)
  {
    exists r :: r in rules && BasedOn(source, r, o)
  }

  ghost predicate BasedOn(source: Source, r: Rule, o: Path)
    requires r.WellFormed()
  {
    || (!r.IsWildcard() && o == r.output)
    || (r.IsWildcard() && !r.overOutputs && exists name ::
          HasFile(source, Parent(r.source), name) && SourcePattern(r).Matches(name) && o == MadeFrom(r, name).output)
  }

  ghost predicate HoldsBase(source: Source, rules: seq<Rule>, outputs: set<Path>)
    requires WellFormedRules(rules)
  {
    forall o :: Based(source, rules, o) ==> o in outputs
  }

  /** Whatever a wildcard matches in `outputs`, what it makes of it is there too. */
  ghost predicate Closed(rules: seq<Rule>, outputs: set<Path>)
    requires WellFormedRules(rules)
  {
    forall r, o {:trigger MatchesOutput(r, o)} ::
      r in rules && o in outputs && MatchesOutput(r, o) ==> MadeFrom(r, FileName(o)).output in outputs
  }

  ghost predicate Least(source: Source, rules: seq<Rule>, outputs: set<Path>)
    requires WellFormedRules(rules)
  {
    forall other :: HoldsBase(source, rules, other) && Closed(rules, other) ==> outputs <= other
  }

  /** `c` is the command some rule makes at `o`. */
  ghost predicate MadeBy(r: Rule, stem: string, o: Path, c: Command)
    requires r.WellFormed()
  {
    Makes(r, stem, o) && c == CommandOf(if r.IsWildcard() then Filled(r, stem) else r)
  }

  ghost predicate MadeByOne(rules: seq<Rule>, o: Path, c: Command)
    requires WellFormedRules(rules)
  {
    exists i, stem :: 0 <= i < |rules| && MadeBy(rules[i], stem, o, c)
  }

  ghost predicate MadeByRules(rules: seq<Rule>, commands: map<Path, Command>)
    requires WellFormedRules(rules)
  {
    forall o :: o in commands ==> MadeByOne(rules, o, commands[o])
  }

  /** The least outputs closed under every wildcard, each with a command some rule makes for it. */
  ghost predicate IsExpansion(source: Source, rules: seq<Rule>, commands: map<Path, Command>)
    requires WellFormedRules(rules)
  {
    && HoldsBase(source, rules, commands.Keys)
    && Closed(rules, commands.Keys)
    && Least(source, rules, commands.Keys)
    && MadeByRules(rules, commands)
  }

  /** What is declared before any wildcard over outputs: what simple rules name, and what the others make of the files that
      their directory lists, by name. */
  lemma BasedIff(source: Source, rules: seq<Rule>, o: Path)
    requires WellFormedRules(rules)
    ensures Based(source, rules, o) <==> exists r :: r in rules && if !r.IsWildcard() then o == r.output else ListedFor(source, r, o)
  {
    forall r | r in rules && r.IsWildcard() ensures BasedOn(source, r, o) <==> ListedFor(source, r, o) {
      ListedIff(source, r, o);
    }
    hide ListedFor;
    if r :| r in rules && if !r.IsWildcard() then o == r.output else ListedFor(source, r, o) {
      assert BasedOn(source, r, o);
    }
  }

  /** Some file listed in the directory of `r` has its pattern for a name, and `o` is its output filled likewise. */
  ghost predicate ListedFor(source: Source, r: Rule, o: Path)
    requires r.WellFormed() && r.IsWildcard()
  {
    && !r.overOutputs && Parent(r.source) in source
    && exists e, stem :: e in source[Parent(r.source)] && ListedAs(r, e, stem, o)
  }

  predicate ListedAs(r: Rule, e: Listed, stem: string, o: Path)
    requires r.WellFormed() && r.IsWildcard()
  {
    e.isFile && stem != "" && e.name == SourcePattern(r).Fill(stem) && o == Parent(r.output) + [OutputPattern(r).Fill(stem)]
  }

  lemma ListedIff(source: Source, r: Rule, o: Path)
    requires r.WellFormed() && r.IsWildcard()
    ensures BasedOn(source, r, o) <==> ListedFor(source, r, o)
  {
    if BasedOn(source, r, o) {
      var name :| HasFile(source, Parent(r.source), name) && SourcePattern(r).Matches(name) && o == MadeFrom(r, name).output;
      MatchesIffFilled(SourcePattern(r), name);
      assert ListedAs(r, Listed(name, true), SourcePattern(r).Stem(name), o);
    }
    if ListedFor(source, r, o) {
      var e, stem :| e in source[Parent(r.source)] && ListedAs(r, e, stem, o);
      StemOfFilled(SourcePattern(r), stem);
      assert e == Listed(e.name, true) && HasFile(source, Parent(r.source), e.name);
    }
  }

  /** Each output's command is that of a rule: its own, or, of a wildcard, with the stem of the output for every star. */
  lemma CommandsAreRules(source: Source, rules: seq<Rule>, commands: map<Path, Command>, o: Path)
    requires WellFormedRules(rules) && IsExpansion(source, rules, commands) && o in commands
    ensures exists i, stem :: 0 <= i < |rules| && CommandIs(rules[i], stem, o, commands[o])
  {
    assert MadeByOne(rules, o, commands[o]);
    var i, stem :| 0 <= i < |rules| && MadeBy(rules[i], stem, o, commands[o]);
    assert CommandIs(rules[i], stem, o, commands[o]);
  }

  ghost predicate CommandIs(r: Rule, stem: string, o: Path, c: Command)
    requires r.WellFormed()
  {
    && c.output == o && c.action == r.action
    && if r.IsWildcard() then
         stem != "" && o == Parent(r.output) + [OutputPattern(r).Fill(stem)] && c.text == Substitute(r.command, stem)
       else o == r.output && c.text == r.command
  }

  // ---- Why it ends -------------------------------------------------------------------------

  ghost function BaseSet(source: Source, rules: seq<Rule>): (base: set<Path>)
    requires WellFormedRules(rules)
    ensures forall o :: o in base <==> Based(source, rules, o)
  {
    var simple := set r | r in rules && !r.IsWildcard() :: r.output;
    var matched := set r, e | r in rules && r.IsWildcard() && !r.overOutputs && Parent(r.source) in source
      && e in source[Parent(r.source)] && e.isFile && SourcePattern(r).Matches(e.name) :: MadeFrom(r, e.name).output;
    assert forall o :: o in matched ==> Based(source, rules, o);
    forall o | Based(source, rules, o) ensures o in simple + matched {
      var r :| r in rules && BasedOn(source, r, o);
      if r.IsWildcard() {
        var name :| HasFile(source, Parent(r.source), name) && SourcePattern(r).Matches(name) && o == MadeFrom(r, name).output;
        assert Listed(name, true) in source[Parent(r.source)];
      }
    }
    simple + matched
  }

  /** What one round of matching adds to `outputs`. */
  ghost function NextLevel(rules: seq<Rule>, outputs: set<Path>): (next: set<Path>)
    requires WellFormedRules(rules)
  {
    outputs + set r, p | r in rules && p in outputs && MatchesOutput(r, p) :: MadeFrom(r, FileName(p)).output
  }

  lemma InNextLevel(rules: seq<Rule>, outputs: set<Path>, o: Path)
    requires WellFormedRules(rules)
    ensures o in NextLevel(rules, outputs) <==> o in outputs || exists r, p :: StepsTo(rules, outputs, r, p, o)
  {
    if o in NextLevel(rules, outputs) && o !in outputs {
      var r, p :| r in rules && p in outputs && MatchesOutput(r, p) && o == MadeFrom(r, FileName(p)).output;
      assert StepsTo(rules, outputs, r, p, o);
    }
    if r, p :| StepsTo(rules, outputs, r, p, o) {
      assert o in NextLevel(rules, outputs);
    }
  }

  lemma StepMakes(rules: seq<Rule>, outputs: set<Path>, r: Rule, p: Path, o: Path) returns (b: nat)
    requires WellFormedRules(rules) && StepsTo(rules, outputs, r, p, o)
    ensures b < |rules| && rules[b] == r && r.IsWildcard() && MatchesOutput(r, p) && CanMake(r, o)
  {
    b :| 0 <= b < |rules| && rules[b] == r;
    MatchesIffFilled(SourcePattern(r), FileName(p));
    assert Makes(r, SourcePattern(r).Stem(FileName(p)), o);
  }

  ghost predicate StepsTo(rules: seq<Rule>, outputs: set<Path>, r: Rule, p: Path, o: Path)
    requires WellFormedRules(rules)
  {
    r in rules && p in outputs && MatchesOutput(r, p) && o == MadeFrom(r, FileName(p)).output
  }

  /** What `k` rounds of matching outputs can add to the base. */
  ghost function Level(rules: seq<Rule>, base: set<Path>, k: nat): (level: set<Path>)
    requires WellFormedRules(rules)
    ensures base <= level
  {
    if k == 0 then base else NextLevel(rules, Level(rules, base, k - 1))
  }

  ghost predicate CanMake(r: Rule, o: Path)
    requires r.WellFormed()
  {
    exists stem :: Makes(r, stem, o)
  }

  /** The rules by which `o` comes, round after round, each feeding the next. */
  ghost predicate Lineage(rules: seq<Rule>, chain: seq<int>, o: Path)
    requires WellFormedRules(rules)
  {
    && IsPath(FeedGraph(rules), chain)
    && (forall i :: 0 <= i < |chain| ==> 0 <= chain[i] < |rules|)
    && rules[chain[|chain| - 1]].IsWildcard()
    && CanMake(rules[chain[|chain| - 1]], o)
  }

  /** A rule that matches what another makes is fed by it. */
  lemma MatchingIsFed(a: Rule, b: Rule, o: Path)
    requires a.WellFormed() && b.WellFormed() && a.IsWildcard()
    requires CanMake(a, o) && MatchesOutput(b, o)
    ensures FeedsDirectly(a, b)
  {
    var stem :| Makes(a, stem, o);
    StemOfFilled(OutputPattern(a), stem);
    MatchedByBoth(OutputPattern(a), SourcePattern(b), FileName(o));
  }

  /** And one rule feeds another directly only if there is an output that the one could make and the other matches. */
  lemma FeedsDirectlyIff(a: Rule, b: Rule)
    requires a.WellFormed() && b.WellFormed() && a.IsWildcard()
    ensures FeedsDirectly(a, b) <==> exists o :: CanMake(a, o) && MatchesOutput(b, o)
  {
    if FeedsDirectly(a, b) {
      WitnessMatches(OutputPattern(a), SourcePattern(b));
      var name := Witness(OutputPattern(a), SourcePattern(b));
      var o := Parent(a.output) + [name];
      MatchesIffFilled(OutputPattern(a), name);
      assert Makes(a, OutputPattern(a).Stem(name), o);
      assert CanMake(a, o) && MatchesOutput(b, o);
    }
    if o :| CanMake(a, o) && MatchesOutput(b, o) {
      MatchingIsFed(a, b, o);
    }
  }

  lemma StartLineage(rules: seq<Rule>, b: int, o: Path)
    requires WellFormedRules(rules) && 0 <= b < |rules| && rules[b].IsWildcard() && CanMake(rules[b], o)
    ensures Lineage(rules, [b], o)
  {
  }

  lemma ExtendLineage(rules: seq<Rule>, chain: seq<int>, p: Path, b: int, o: Path)
    requires WellFormedRules(rules) && Lineage(rules, chain, p)
    requires 0 <= b < |rules| && MatchesOutput(rules[b], p) && CanMake(rules[b], o)
    ensures Lineage(rules, chain + [b], o)
  {
    var a := chain[|chain| - 1];
    MatchingIsFed(rules[a], rules[b], p);
    Append(FeedGraph(rules), chain, b);
  }

  /** What the next round adds has a lineage one rule longer than the rounds before. */
  lemma {:induction false} NewInRound(rules: seq<Rule>, base: set<Path>, k: nat, o: Path) returns (chain: seq<int>)
    requires WellFormedRules(rules)
    requires o in Level(rules, base, k + 1) && o !in Level(rules, base, k)
    ensures |chain| == k + 1 && Lineage(rules, chain, o)
  {
    hide NextLevel, Lineage, MatchesOutput, CanMake, Makes;
    InNextLevel(rules, Level(rules, base, k), o);
    var r, p :| StepsTo(rules, Level(rules, base, k), r, p, o);
    var b := StepMakes(rules, Level(rules, base, k), r, p, o);
    if k == 0 {
      chain := [b];
      StartLineage(rules, b, o);
    } else {
      NotEarlier(rules, Level(rules, base, k - 1), Level(rules, base, k), r, p, o);
      var before := NewInRound(rules, base, k - 1, p);
      ExtendLineage(rules, before, p, b, o);
      chain := before + [b];
    }
  }

  lemma NotEarlier(rules: seq<Rule>, before: set<Path>, outputs: set<Path>, r: Rule, p: Path, o: Path)
    requires WellFormedRules(rules) && outputs == NextLevel(rules, before)
    requires StepsTo(rules, outputs, r, p, o)
    ensures p in before ==> o in outputs
  {
    InNextLevel(rules, before, o);
    assert p in before ==> StepsTo(rules, before, r, p, o);
  }

  /** Among more than `n` numbers below `n`, two are equal. */
  lemma {:induction false} Pigeonhole(s: seq<int>, n: nat) returns (i: nat, j: nat)
    requires |s| > n && forall i :: 0 <= i < |s| ==> 0 <= s[i] < n
    ensures i < j < |s| && s[i] == s[j]
    decreases n
  {
    if k :| 0 <= k < |s| - 1 && s[k] == s[|s| - 1] {
      return k, |s| - 1;
    }
    var last := s[|s| - 1];
    // Below the last position nothing equals `last`, so `n - 1` can take its place.
    var rest := seq(|s| - 1, k requires 0 <= k < |s| - 1 => if s[k] == n - 1 then last else s[k]);
    i, j := Pigeonhole(rest, n - 1);
  }

  /** With no rule feeding itself, as many rounds as there are rules find everything. */
  lemma LastLevelIsClosed(rules: seq<Rule>, base: set<Path>)
    requires WellFormedRules(rules) && NoneFeedsItself(rules)
    ensures Closed(rules, Level(rules, base, |rules|))
  {
    var n := |rules|;
    var last := Level(rules, base, n);
    forall r, p | r in rules && p in last && MatchesOutput(r, p)
      ensures MadeFrom(r, FileName(p)).output in last
    {
      var o := MadeFrom(r, FileName(p)).output;
      assert StepsTo(rules, last, r, p, o);
      InNextLevel(rules, last, o);
      if o !in last {
        NothingAfterLastLevel(rules, base, o);
      }
    }
  }

  lemma NothingAfterLastLevel(rules: seq<Rule>, base: set<Path>, o: Path)
    requires WellFormedRules(rules) && NoneFeedsItself(rules)
    requires o in NextLevel(rules, Level(rules, base, |rules|))
    ensures o in Level(rules, base, |rules|)
  {
    if o !in Level(rules, base, |rules|) {
      var chain := NewInRound(rules, base, |rules|, o);
      var i, j := Pigeonhole(chain, |rules|);
      PathPiece(FeedGraph(rules), chain, i, j);
    }
  }

  // ---- Expanding -----------------------------------------------------------------------------

  /** `commands` holds only what rules make, and only what every closed set must hold. */
  ghost predicate Sound(source: Source, rules: seq<Rule>, commands: map<Path, Command>)
    requires WellFormedRules(rules)
  {
    Least(source, rules, commands.Keys) && MadeByRules(rules, commands)
  }

  /** Adds the command of `rule`, unless its output has one. */
  function Declared(commands: map<Path, Command>, rule: Rule): map<Path, Command> {
    if rule.output in commands then commands else commands[rule.output := CommandOf(rule)]
  }

  lemma DeclaringIsSound(source: Source, rules: seq<Rule>, commands: map<Path, Command>, r: Rule, stem: string, rule: Rule)
    requires WellFormedRules(rules) && Sound(source, rules, commands)
    requires r in rules && Makes(r, stem, rule.output) && rule == if r.IsWildcard() then Filled(r, stem) else r
    requires forall other :: HoldsBase(source, rules, other) && Closed(rules, other) && commands.Keys <= other ==> rule.output in other
    ensures Sound(source, rules, Declared(commands, rule))
  {
    var after := Declared(commands, rule);
    forall o | o in after ensures MadeByOne(rules, o, after[o]) {
      if o !in commands {
        var i :| 0 <= i < |rules| && rules[i] == r;
        assert MadeBy(rules[i], stem, o, after[o]);
      }
    }
  }

  /** The outputs of the simple rules, and of the wildcards over source files. */
  method ExpandBase(source: Source, rules: seq<Rule>) returns (commands: map<Path, Command>)
    requires WellFormedRules(rules)
    ensures Sound(source, rules, commands) && HoldsBase(source, rules, commands.Keys)
  {
    commands := map[];
    for i := 0 to |rules|
      invariant Sound(source, rules, commands)
      invariant forall j, o :: 0 <= j < i && BasedOn(source, rules[j], o) ==> o in commands
    {
      var rule := rules[i];
      if !rule.IsWildcard() {
        assert Based(source, rules, rule.output) by { assert BasedOn(source, rule, rule.output); }
        DeclaringIsSound(source, rules, commands, rule, "", rule);
        commands := Declared(commands, rule);
      } else if !rule.overOutputs && Parent(rule.source) in source {
        commands := ExpandListing(source, rules, rule, commands);
      }
    }
  }

  /** The outputs one wildcard makes of the files its directory lists. */
  method ExpandListing(source: Source, rules: seq<Rule>, rule: Rule, commands0: map<Path, Command>)
    returns (commands: map<Path, Command>)
    requires WellFormedRules(rules) && Sound(source, rules, commands0)
    requires rule in rules && rule.IsWildcard() && !rule.overOutputs && Parent(rule.source) in source
    ensures Sound(source, rules, commands) && commands0.Keys <= commands.Keys
    ensures forall o :: BasedOn(source, rule, o) ==> o in commands
  {
    commands := commands0;
    var entries := source[Parent(rule.source)];
    for e := 0 to |entries|
      invariant Sound(source, rules, commands) && commands0.Keys <= commands.Keys
      invariant forall k :: 0 <= k < e && entries[k].isFile && SourcePattern(rule).Matches(entries[k].name) ==>
                  MadeFrom(rule, entries[k].name).output in commands
    {
      if entries[e].isFile {
        var matched := Instantiate(rule, entries[e].name);
        if matched.Some? {
          var o := matched.value.output;
          assert Based(source, rules, o) by {
            assert HasFile(source, Parent(rule.source), entries[e].name);
            assert BasedOn(source, rule, o);
          }
          MatchesIffFilled(SourcePattern(rule), entries[e].name);
          DeclaringIsSound(source, rules, commands, rule, SourcePattern(rule).Stem(entries[e].name), matched.value);
          commands := Declared(commands, matched.value);
        }
      }
    }
    forall o | BasedOn(source, rule, o) ensures o in commands {
      var name :| HasFile(source, Parent(rule.source), name) && SourcePattern(rule).Matches(name) && o == MadeFrom(rule, name).output;
      var k :| 0 <= k < |entries| && entries[k] == Listed(name, true);
    }
  }

  /** `m` is what `rule` makes of some output that has a command. */
  ghost predicate Matched(rule: Rule, commands: map<Path, Command>, m: Rule)
    requires rule.WellFormed()
  {
    exists o :: o in commands && MatchesOutput(rule, o) && m == MadeFrom(rule, FileName(o))
  }

  /** One wildcard matched against the outputs declared so far: the rules it stands for that add one. */
  method MatchOutputs(rule: Rule, commands: map<Path, Command>) returns (matches: seq<Rule>)
    requires rule.WellFormed() && rule.overOutputs
    ensures forall m :: m in matches <==> Matched(rule, commands, m) && m.output !in commands
  {
    matches := [];
    var left := commands.Keys;
    while left != {}
      invariant left <= commands.Keys
      invariant forall m :: m in matches ==> Matched(rule, commands, m) && m.output !in commands
      invariant forall o :: o in commands && o !in left && MatchesOutput(rule, o) ==>
                  MadeFrom(rule, FileName(o)) in matches || MadeFrom(rule, FileName(o)).output in commands
      decreases left
    {
      var output :| output in left;
      left := left - {output};
      if output != [] && Parent(output) == Parent(rule.source) {
        var matched := Instantiate(rule, FileName(output));
        if matched.Some? && matched.value.output !in commands {
          assert Matched(rule, commands, matched.value);
          matches := matches + [matched.value];
        }
      }
    }
  }

  lemma DeclaringMatchIsSound(source: Source, rules: seq<Rule>, commands: map<Path, Command>,
                              rule: Rule, commands0: map<Path, Command>, m: Rule, all: set<Path>)
    requires WellFormedRules(rules) && rule in rules && rule.overOutputs
    requires Sound(source, rules, commands) && commands0.Keys <= commands.Keys && Matched(rule, commands0, m)
    requires HoldsBase(source, rules, all) && Closed(rules, all) && commands.Keys <= all
    ensures Sound(source, rules, Declared(commands, m)) && m.output in all
  {
    var o :| o in commands0 && MatchesOutput(rule, o) && m == MadeFrom(rule, FileName(o));
    MatchesIffFilled(SourcePattern(rule), FileName(o));
    DeclaringIsSound(source, rules, commands, rule, SourcePattern(rule).Stem(FileName(o)), m);
  }

  /** Declares what one wildcard matched. */
  method DeclareAll(source: Source, rules: seq<Rule>, rule: Rule, matches: seq<Rule>, commands0: map<Path, Command>, ghost all: set<Path>)
    returns (commands: map<Path, Command>)
    requires WellFormedRules(rules) && rule in rules && rule.overOutputs
    requires Sound(source, rules, commands0)
    requires HoldsBase(source, rules, all) && Closed(rules, all) && commands0.Keys <= all
    requires forall m :: m in matches ==> Matched(rule, commands0, m) && m.output !in commands0
    ensures Sound(source, rules, commands) && commands0.Keys <= commands.Keys <= all
    ensures forall m :: m in matches ==> m.output in commands && m.output !in commands0
    ensures matches == [] ==> commands == commands0
  {
    hide Sound, HoldsBase, Closed, Matched;
    commands := commands0;
    for k := 0 to |matches|
      invariant Sound(source, rules, commands) && commands0.Keys <= commands.Keys <= all
      invariant forall j :: 0 <= j < k ==> matches[j].output in commands
      invariant k == 0 ==> commands == commands0
    {
      assert matches[k] in matches;
      DeclaringMatchIsSound(source, rules, commands, rule, commands0, matches[k], all);
      commands := Declared(commands, matches[k]);
    }
  }

  /** One round over every wildcard that matches outputs. */
  method Round(source: Source, rules: seq<Rule>, commands0: map<Path, Command>, ghost all: set<Path>)
    returns (commands: map<Path, Command>, added: bool)
    requires WellFormedRules(rules) && Sound(source, rules, commands0)
    requires HoldsBase(source, rules, all) && Closed(rules, all) && commands0.Keys <= all
    ensures Sound(source, rules, commands) && commands0.Keys <= commands.Keys <= all
    ensures added ==> commands0.Keys != commands.Keys
    ensures !added ==> commands == commands0 && Closed(rules, commands.Keys)
  {
    hide Sound, HoldsBase;
    commands, added := commands0, false;
    for i := 0 to |rules|
      invariant Sound(source, rules, commands) && commands0.Keys <= commands.Keys <= all
      invariant added ==> commands0.Keys != commands.Keys
      invariant !added ==> commands == commands0
      invariant !added ==> forall j, o :: 0 <= j < i && o in commands && MatchesOutput(rules[j], o) ==>
                             MadeFrom(rules[j], FileName(o)).output in commands
    {
      if rules[i].overOutputs {
        var matches := MatchOutputs(rules[i], commands);
        commands := DeclareAll(source, rules, rules[i], matches, commands, all);
        if matches != [] {
          assert matches[0] in matches;
          added := true;
        } else if !added {
          assert forall o :: o in commands && MatchesOutput(rules[i], o) ==> Matched(rules[i], commands, MadeFrom(rules[i], FileName(o)));
        }
      }
    }
  }

  /** Rounds follow each other while they add something; with no rule feeding itself the last one comes. */
  method ExpandRules(source: Source, rules: seq<Rule>) returns (commands: map<Path, Command>)
    requires WellFormedRules(rules) && NoneFeedsItself(rules)
    ensures IsExpansion(source, rules, commands)
  {
    ghost var all := Level(rules, BaseSet(source, rules), |rules|);
    LastLevelIsClosed(rules, BaseSet(source, rules));
    commands := ExpandBase(source, rules);
    var added := true;
    while added
      invariant Sound(source, rules, commands) && HoldsBase(source, rules, commands.Keys)
      invariant commands.Keys <= all
      invariant !added ==> Closed(rules, commands.Keys)
      decreases all - commands.Keys, added
    {
      commands, added := Round(source, rules, commands, all);
    }
  }

  // ---- What expansion guarantees -------------------------------------------------------------

  /** Nothing declared is made twice or is inside anything else declared. */
  lemma ExpansionIsAntichain(source: Source, rules: seq<Rule>, commands: map<Path, Command>)
    requires WellFormedRules(rules) && ConflictFree(rules) && IsExpansion(source, rules, commands)
    ensures Antichain(commands.Keys) && [] !in commands
    ensures forall o :: o in commands ==> commands[o].output == o
  {
    forall o, p | o in commands && p in commands ensures !(o < p) {
      var i, s :| 0 <= i < |rules| && MadeBy(rules[i], s, o, commands[o]);
      var j, t :| 0 <= j < |rules| && MadeBy(rules[j], t, p, commands[p]);
      ExpansionsNeverCollide(rules, i, s, j, t, o, p);
    }
  }

  /** The same rules in another order expand to the same commands. */
  lemma ExpansionIgnoresOrder(source: Source, rules: seq<Rule>, shuffled: seq<Rule>,
                              commands: map<Path, Command>, others: map<Path, Command>)
    requires WellFormedRules(rules) && WellFormedRules(shuffled) && ConflictFree(rules)
    requires forall r :: r in rules <==> r in shuffled
    requires IsExpansion(source, rules, commands) && IsExpansion(source, shuffled, others)
    ensures commands == others
  {
    assert HoldsBase(source, rules, others.Keys) && Closed(rules, others.Keys);
    assert HoldsBase(source, shuffled, commands.Keys) && Closed(shuffled, commands.Keys);
    assert commands.Keys == others.Keys;
    forall o | o in commands ensures commands[o] == others[o] {
      var i, s :| 0 <= i < |rules| && MadeBy(rules[i], s, o, commands[o]);
      var k, t :| 0 <= k < |shuffled| && MadeBy(shuffled[k], t, o, others[o]);
      assert shuffled[k] in shuffled;
      var j :| 0 <= j < |rules| && rules[j] == shuffled[k];
      ExpansionsNeverCollide(rules, i, s, j, t, o, o);
    }
  }
}
