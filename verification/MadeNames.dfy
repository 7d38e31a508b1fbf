/** Which names wildcards make: ordinary ones, but for exactly those that come to nothing but dots. */
module MadeNames {
  import opened Paths
  import opened Wrappers
  import opened Manifest
  import opened Expand
  import Parse
  import Feeds

  /** The paths written in a manifest are in their normal form. */
  ghost predicate NormalRules(rules: seq<Rule>) {
    forall i :: 0 <= i < |rules| ==> Normal(rules[i].output) && Normal(rules[i].source)
  }

  ghost predicate OrdinarySource(source: Source) {
    forall d, name :: HasFile(source, d, name) ==> Ordinary(name)
  }

  /** The wildcard `i` makes the output `o`, and no ordinary name of it. */
  ghost predicate MakesDots(rules: seq<Rule>, commands: map<Path, Command>, i: int, stem: string, o: Path)
    requires WellFormedRules(rules)
  {
    && 0 <= i < |rules| && rules[i].IsWildcard() && o in commands
    && Makes(rules[i], stem, o) && Dotted(OutputPattern(rules[i]), stem)
  }

  lemma PatternHasNoSlash(name: Name)
    requires '*' in name && '/' !in name
    ensures '/' !in PatternOf(name).prefix && '/' !in PatternOf(name).suffix
  {
  }

  lemma StemHasNoSlash(p: NamePattern, name: Name)
    requires p.Matches(name) && '/' !in name
    ensures '/' !in p.Stem(name)
  {
  }

  /** What a wildcard makes is in its normal form just if its name is not nothing but dots. */
  lemma MadePathIsNormal(r: Rule, stem: string, o: Path)
    requires r.WellFormed() && r.IsWildcard() && Normal(r.output) && '/' !in stem && Makes(r, stem, o)
    ensures o != [] && '/' !in FileName(o)
    ensures Normal(o) <==> !Dotted(OutputPattern(r), stem)
  {
    assert Ordinary(r.output[|r.output| - 1]);
    PatternHasNoSlash(FileName(r.output));
    FilledNameIsOrdinary(OutputPattern(r), stem);
    var name := OutputPattern(r).Fill(stem);
    assert o == Parent(r.output) + [name];
    forall i | 0 <= i < |o| - 1 ensures Ordinary(o[i]) {
      assert o[i] == r.output[i];
    }
    assert Ordinary(name) ==> Normal(o);
    assert Normal(o) ==> Ordinary(o[|o| - 1]);
  }

  ghost predicate SlashFree(o: Path) {
    o != [] && '/' !in FileName(o)
  }

  lemma BasedSlashFree(source: Source, rules: seq<Rule>, o: Path)
    requires WellFormedRules(rules) && NormalRules(rules) && OrdinarySource(source) && Based(source, rules, o)
    ensures SlashFree(o)
  {
    var r :| r in rules && BasedOn(source, r, o);
    var i :| 0 <= i < |rules| && rules[i] == r;
    if r.IsWildcard() {
      var name :| HasFile(source, Parent(r.source), name) && SourcePattern(r).Matches(name) && o == MadeFrom(r, name).output;
      StemHasNoSlash(SourcePattern(r), name);
      MadePathIsNormal(r, SourcePattern(r).Stem(name), o);
    } else {
      assert Ordinary(r.output[|r.output| - 1]);
    }
  }

  /** What is expanded is least, so none of it has a name that only something else could have given it. */
  lemma ExpandedSlashFree(source: Source, rules: seq<Rule>, commands: map<Path, Command>)
    requires WellFormedRules(rules) && IsExpansion(source, rules, commands) && NormalRules(rules) && OrdinarySource(source)
    ensures forall o :: o in commands ==> SlashFree(o)
  {
    var other := set o | o in commands && SlashFree(o);
    forall o | Based(source, rules, o) ensures o in other {
      BasedSlashFree(source, rules, o);
    }
    forall r, o | r in rules && o in other && MatchesOutput(r, o) ensures MadeFrom(r, FileName(o)).output in other {
      var i :| 0 <= i < |rules| && rules[i] == r;
      StemHasNoSlash(SourcePattern(r), FileName(o));
      MadePathIsNormal(r, SourcePattern(r).Stem(FileName(o)), MadeFrom(r, FileName(o)).output);
    }
    assert HoldsBase(source, rules, other) && Closed(rules, other);
  }

  lemma MadeStemHasNoSlash(r: Rule, stem: string, o: Path)
    requires r.WellFormed() && r.IsWildcard() && Makes(r, stem, o) && SlashFree(o)
    ensures '/' !in stem
  {
    StemOfFilled(OutputPattern(r), stem);
    StemHasNoSlash(OutputPattern(r), FileName(o));
  }

  /** Every output is in its normal form just if no wildcard makes one of nothing but dots. */
  lemma NormalUnlessDotted(source: Source, rules: seq<Rule>, commands: map<Path, Command>)
    requires WellFormedRules(rules) && IsExpansion(source, rules, commands) && NormalRules(rules) && OrdinarySource(source)
    ensures (forall o :: o in commands ==> Normal(o)) <==> !exists i, stem, o :: MakesDots(rules, commands, i, stem, o)
  {
    ExpandedSlashFree(source, rules, commands);
    if i, stem, o :| MakesDots(rules, commands, i, stem, o) {
      MadeStemHasNoSlash(rules[i], stem, o);
      MadePathIsNormal(rules[i], stem, o);
    }
    forall o | o in commands && !Normal(o) ensures exists i, stem :: MakesDots(rules, commands, i, stem, o) {
      var i, stem :| 0 <= i < |rules| && MadeBy(rules[i], stem, o, commands[o]);
      MadeStemHasNoSlash(rules[i], stem, o);
      MadePathIsNormal(rules[i], stem, o);
      assert MakesDots(rules, commands, i, stem, o);
    }
  }

  // ---- What can be told from the rules alone ---------------------------------------------------

  /** Some ordinary name that the wildcard matches would have it make nothing but dots. */
  predicate MayDot(r: Rule)
    requires r.WellFormed() && r.IsWildcard()
  {
    exists stem :: stem in [".", ".."] && Dotted(OutputPattern(r), stem) && !Dotted(SourcePattern(r), stem)
  }

  ghost predicate NoneMayDot(rules: seq<Rule>)
    requires WellFormedRules(rules)
  {
    forall i :: 0 <= i < |rules| && rules[i].IsWildcard() ==> !MayDot(rules[i])
  }

  /** A wildcard that cannot makes an ordinary name of an ordinary one. */
  lemma MadeOfOrdinary(r: Rule, name: Name)
    requires r.WellFormed() && r.IsWildcard() && Normal(r.output) && Normal(r.source) && !MayDot(r)
    requires Ordinary(name) && SourcePattern(r).Matches(name)
    ensures Normal(MadeFrom(r, name).output)
  {
    var stem := SourcePattern(r).Stem(name);
    StemHasNoSlash(SourcePattern(r), name);
    assert Ordinary(r.source[|r.source| - 1]);
    PatternHasNoSlash(FileName(r.source));
    MatchesIffFilled(SourcePattern(r), name);
    FilledNameIsOrdinary(SourcePattern(r), stem);
    MadePathIsNormal(r, stem, MadeFrom(r, name).output);
    assert Dotted(OutputPattern(r), stem) ==> stem in [".", ".."];
  }

  /** Rules none of which can expand, for every source of ordinary names, to outputs in their normal form. */
  lemma SafeRulesStayNormal(source: Source, rules: seq<Rule>, commands: map<Path, Command>)
    requires WellFormedRules(rules) && IsExpansion(source, rules, commands) && NormalRules(rules) && OrdinarySource(source)
    requires NoneMayDot(rules)
    ensures forall o :: o in commands ==> Normal(o)
  {
    var other := set o | o in commands && Normal(o);
    forall o | Based(source, rules, o) ensures o in other {
      var r :| r in rules && BasedOn(source, r, o);
      var i :| 0 <= i < |rules| && rules[i] == r;
      if r.IsWildcard() {
        var name :| HasFile(source, Parent(r.source), name) && SourcePattern(r).Matches(name) && o == MadeFrom(r, name).output;
        MadeOfOrdinary(r, name);
      }
    }
    forall r, o | r in rules && o in other && MatchesOutput(r, o) ensures MadeFrom(r, FileName(o)).output in other {
      var i :| 0 <= i < |rules| && rules[i] == r;
      assert Ordinary(o[|o| - 1]);
      MadeOfOrdinary(r, FileName(o));
    }
    assert HoldsBase(source, rules, other) && Closed(rules, other);
  }

  // ---- Wildcards that match what others make ---------------------------------------------------

  /** The path whose name, by `stem`, has a wildcard make something. */
  function SourceOf(r: Rule, stem: string): Path
    requires r.WellFormed() && r.IsWildcard()
  {
    Parent(r.source) + [SourcePattern(r).Fill(stem)]
  }

  /** A wildcard could make `o`, by its stem. */
  predicate MadeAt(r: Rule, o: Path)
    requires r.WellFormed() && r.IsWildcard()
  {
    o != [] && Parent(o) == Parent(r.output) && OutputPattern(r).Matches(FileName(o))
  }

  function StemAt(r: Rule, o: Path): string
    requires r.WellFormed() && r.IsWildcard() && MadeAt(r, o)
  {
    OutputPattern(r).Stem(FileName(o))
  }

  /** Within `n` wildcards over outputs, some ordinary source file, or none, has `o` declared. */
  predicate Comes(rules: seq<Rule>, o: Path, n: nat)
    requires WellFormedRules(rules)
    decreases n, 2
  {
    exists i :: 0 <= i < |rules| && ComesBy(rules, i, o, n)
  }

  predicate ComesBy(rules: seq<Rule>, i: nat, o: Path, n: nat)
    requires WellFormedRules(rules) && i < |rules|
    decreases n, 1
  {
    if !rules[i].IsWildcard() then o == rules[i].output
    else MadeAt(rules[i], o) && Fed(rules, i, StemAt(rules[i], o), n)
  }

  /** An ordinary file could have the name that a wildcard is to match, or an output come there. */
  predicate Fed(rules: seq<Rule>, i: nat, stem: string, n: nat)
    requires WellFormedRules(rules) && i < |rules| && rules[i].IsWildcard()
    decreases n, 0
  {
    if rules[i].overOutputs then n > 0 && Comes(rules, SourceOf(rules[i], stem), n - 1)
    else Ordinary(FileName(SourceOf(rules[i], stem)))
  }

  /** Some wildcard can be fed just what has it make nothing but dots. */
  predicate Dots(rules: seq<Rule>)
    requires WellFormedRules(rules)
  {
    exists i, stem :: 0 <= i < |rules| && stem in [".", ".."] && DotsBy(rules, i, stem)
  }

  predicate DotsBy(rules: seq<Rule>, i: nat, stem: string)
    requires WellFormedRules(rules) && i < |rules|
  {
    rules[i].IsWildcard() && Dotted(OutputPattern(rules[i]), stem) && Fed(rules, i, stem, |rules|)
  }

  lemma MadeByStem(r: Rule, stem: string, o: Path)
    requires r.WellFormed() && r.IsWildcard()
    ensures Makes(r, stem, o) <==> MadeAt(r, o) && stem == StemAt(r, o)
  {
    if Makes(r, stem, o) {
      StemOfFilled(OutputPattern(r), stem);
    }
    if MadeAt(r, o) {
      MatchesIffFilled(OutputPattern(r), FileName(o));
      assert o == Parent(o) + [FileName(o)];
    }
  }

  /** What more wildcards may add to is no less. */
  lemma {:induction false} ComesSooner(rules: seq<Rule>, o: Path, n: nat, m: nat)
    requires WellFormedRules(rules) && Comes(rules, o, n) && n <= m
    ensures Comes(rules, o, m)
    decreases n
  {
    var i :| 0 <= i < |rules| && ComesBy(rules, i, o, n);
    if rules[i].IsWildcard() {
      var stem := StemAt(rules[i], o);
      assert Fed(rules, i, stem, n);
      if rules[i].overOutputs {
        ComesSooner(rules, SourceOf(rules[i], stem), n - 1, m - 1);
      }
      assert Fed(rules, i, stem, m);
    }
    assert ComesBy(rules, i, o, m);
  }

  ghost predicate Holds(source: Source, rules: seq<Rule>, o: Path)
    requires WellFormedRules(rules)
  {
    forall outputs :: HoldsBase(source, rules, outputs) && Closed(rules, outputs) ==> o in outputs
  }

  /** What may come does, of some source of no more than one file. */
  lemma {:induction false} ComesOfSome(rules: seq<Rule>, o: Path, n: nat) returns (source: Source)
    requires WellFormedRules(rules) && Comes(rules, o, n)
    ensures OrdinarySource(source) && Holds(source, rules, o)
    decreases n, 1
  {
    var i :| 0 <= i < |rules| && ComesBy(rules, i, o, n);
    if rules[i].IsWildcard() {
      MadeByStem(rules[i], StemAt(rules[i], o), o);
      source := FedOfSome(rules, i, StemAt(rules[i], o), n);
    } else {
      source := map[];
      assert BasedOn(source, rules[i], o) && Based(source, rules, o);
    }
  }

  lemma {:induction false} FedOfSome(rules: seq<Rule>, i: nat, stem: string, n: nat) returns (source: Source)
    requires WellFormedRules(rules) && i < |rules| && rules[i].IsWildcard() && stem != "" && Fed(rules, i, stem, n)
    ensures OrdinarySource(source) && Holds(source, rules, Filled(rules[i], stem).output)
    decreases n, 0
  {
    var r, p := rules[i], SourceOf(rules[i], stem);
    StemOfFilled(SourcePattern(r), stem);
    assert MadeFrom(r, FileName(p)).output == Filled(r, stem).output;
    if r.overOutputs {
      source := ComesOfSome(rules, p, n - 1);
      assert MatchesOutput(r, p);
    } else {
      source := map[Parent(p) := [Listed(FileName(p), true)]];
      assert HasFile(source, Parent(r.source), FileName(p));
      assert BasedOn(source, r, Filled(r, stem).output) && Based(source, rules, Filled(r, stem).output);
    }
  }

  /** Rules of which one can be fed so do make nothing but dots, over some source of ordinary names. */
  lemma UnsafeRuleDots(rules: seq<Rule>) returns (source: Source)
    requires WellFormedRules(rules) && NormalRules(rules) && Dots(rules)
    ensures OrdinarySource(source)
    ensures forall commands :: IsExpansion(source, rules, commands) ==> exists o :: o in commands && !Normal(o)
  {
    var i, stem :| 0 <= i < |rules| && stem in [".", ".."] && DotsBy(rules, i, stem);
    source := FedOfSome(rules, i, stem, |rules|);
    var o := Filled(rules[i], stem).output;
    assert '/' !in stem && stem != "";
    MadePathIsNormal(rules[i], stem, o);
    forall commands | IsExpansion(source, rules, commands) ensures o in commands {
      assert HoldsBase(source, rules, commands.Keys) && Closed(rules, commands.Keys);
    }
  }

  /** What some round of an expansion adds may come within as many wildcards. */
  lemma {:induction false} LevelComes(source: Source, rules: seq<Rule>, k: nat, o: Path)
    requires WellFormedRules(rules) && OrdinarySource(source) && o in Level(rules, BaseSet(source, rules), k)
    ensures Comes(rules, o, k)
  {
    hide NextLevel, MatchesOutput, Makes, StemAt, ComesBy, Comes;
    if k == 0 {
      BaseComes(source, rules, o);
    } else {
      var outputs := Level(rules, BaseSet(source, rules), k - 1);
      InNextLevel(rules, outputs, o);
      if o in outputs {
        LevelComes(source, rules, k - 1, o);
        ComesSooner(rules, o, k - 1, k);
      } else {
        var r, p :| StepsTo(rules, outputs, r, p, o);
        LevelComes(source, rules, k - 1, p);
        MatchComes(rules, r, p, o, k);
      }
    }
  }

  lemma BaseComes(source: Source, rules: seq<Rule>, o: Path)
    requires WellFormedRules(rules) && OrdinarySource(source) && Based(source, rules, o)
    ensures Comes(rules, o, 0)
  {
    var r :| r in rules && BasedOn(source, r, o);
    var i :| 0 <= i < |rules| && rules[i] == r;
    if r.IsWildcard() {
      var name :| HasFile(source, Parent(r.source), name) && SourcePattern(r).Matches(name) && o == MadeFrom(r, name).output;
      MatchesIffFilled(SourcePattern(r), name);
      MadeByStem(r, SourcePattern(r).Stem(name), o);
    }
    assert ComesBy(rules, i, o, 0);
  }

  lemma MatchComes(rules: seq<Rule>, r: Rule, p: Path, o: Path, k: nat)
    requires WellFormedRules(rules) && r in rules && MatchesOutput(r, p) && o == MadeFrom(r, FileName(p)).output
    requires k > 0 && Comes(rules, p, k - 1)
    ensures Comes(rules, o, k)
  {
    var i :| 0 <= i < |rules| && rules[i] == r;
    MatchesIffFilled(SourcePattern(r), FileName(p));
    MadeByStem(r, SourcePattern(r).Stem(FileName(p)), o);
    assert SourceOf(r, StemAt(r, o)) == p by { assert p == Parent(p) + [FileName(p)]; }
    assert ComesBy(rules, i, o, k);
  }

  /** Where no rule feeds itself, an output not in its normal form is of a wildcard fed so. */
  lemma DottedMeansDots(source: Source, rules: seq<Rule>, commands: map<Path, Command>, o: Path)
    requires WellFormedRules(rules) && NormalRules(rules) && Feeds.NoneFeedsItself(rules) && OrdinarySource(source)
    requires IsExpansion(source, rules, commands) && o in commands && !Normal(o)
    ensures Dots(rules)
  {
    var all := Level(rules, BaseSet(source, rules), |rules|);
    LastLevelIsClosed(rules, BaseSet(source, rules));
    assert HoldsBase(source, rules, all);
    LevelComes(source, rules, |rules|, o);
    ExpandedSlashFree(source, rules, commands);
    var i :| 0 <= i < |rules| && ComesBy(rules, i, o, |rules|);
    var stem := StemAt(rules[i], o);
    MadeByStem(rules[i], stem, o);
    MadeStemHasNoSlash(rules[i], stem, o);
    MadePathIsNormal(rules[i], stem, o);
    assert DotsBy(rules, i, stem) && stem in [".", ".."];
  }

  /** The expansion there is of rules of which none feeds itself. */
  lemma SomeExpansion(source: Source, rules: seq<Rule>) returns (commands: map<Path, Command>)
    requires WellFormedRules(rules) && Feeds.NoneFeedsItself(rules)
    ensures IsExpansion(source, rules, commands)
  {
    var all := Level(rules, BaseSet(source, rules), |rules|);
    LastLevelIsClosed(rules, BaseSet(source, rules));
    LevelIsLeast(source, rules, |rules|);
    forall o | o in all ensures exists c :: MadeByOne(rules, o, c) {
      LevelIsMade(source, rules, |rules|, o);
    }
    commands := map o | o in all :: var c :| MadeByOne(rules, o, c); c;
    assert commands.Keys == all;
  }

  lemma {:induction false} LevelIsLeast(source: Source, rules: seq<Rule>, k: nat)
    requires WellFormedRules(rules)
    ensures Least(source, rules, Level(rules, BaseSet(source, rules), k))
  {
    hide NextLevel, Closed;
    forall other | HoldsBase(source, rules, other) && Closed(rules, other) ensures Level(rules, BaseSet(source, rules), k) <= other {
      if k > 0 {
        LevelIsLeast(source, rules, k - 1);
        RoundStaysWithin(rules, Level(rules, BaseSet(source, rules), k - 1), other);
      }
    }
  }

  lemma RoundStaysWithin(rules: seq<Rule>, outputs: set<Path>, other: set<Path>)
    requires WellFormedRules(rules) && outputs <= other && Closed(rules, other)
    ensures NextLevel(rules, outputs) <= other
  {
  }

  lemma {:induction false} LevelIsMade(source: Source, rules: seq<Rule>, k: nat, o: Path)
    requires WellFormedRules(rules) && o in Level(rules, BaseSet(source, rules), k)
    ensures exists c :: MadeByOne(rules, o, c)
  {
    hide NextLevel, MatchesOutput, MadeByOne;
    if k == 0 {
      BaseIsMade(source, rules, o);
    } else {
      var outputs := Level(rules, BaseSet(source, rules), k - 1);
      InNextLevel(rules, outputs, o);
      if o in outputs {
        LevelIsMade(source, rules, k - 1, o);
      } else {
        var r, p :| StepsTo(rules, outputs, r, p, o);
        MatchIsMade(rules, r, p, o);
      }
    }
  }

  lemma BaseIsMade(source: Source, rules: seq<Rule>, o: Path)
    requires WellFormedRules(rules) && Based(source, rules, o)
    ensures exists c :: MadeByOne(rules, o, c)
  {
    var r :| r in rules && BasedOn(source, r, o);
    if r.IsWildcard() {
      var name :| HasFile(source, Parent(r.source), name) && SourcePattern(r).Matches(name) && o == MadeFrom(r, name).output;
      MatchesIffFilled(SourcePattern(r), name);
      MadeIsMade(rules, r, SourcePattern(r).Stem(name), o);
    } else {
      MadeIsMade(rules, r, "", o);
    }
  }

  lemma MatchIsMade(rules: seq<Rule>, r: Rule, p: Path, o: Path)
    requires WellFormedRules(rules) && r in rules && MatchesOutput(r, p) && o == MadeFrom(r, FileName(p)).output
    ensures exists c :: MadeByOne(rules, o, c)
  {
    MatchesIffFilled(SourcePattern(r), FileName(p));
    MadeIsMade(rules, r, SourcePattern(r).Stem(FileName(p)), o);
  }

  lemma MadeIsMade(rules: seq<Rule>, r: Rule, stem: string, o: Path)
    requires WellFormedRules(rules) && r in rules && Makes(r, stem, o)
    ensures exists c :: MadeByOne(rules, o, c)
  {
    var i :| 0 <= i < |rules| && rules[i] == r;
    var c := CommandOf(if r.IsWildcard() then Filled(r, stem) else r);
    assert MadeBy(rules[i], stem, o, c);
    assert MadeByOne(rules, o, c);
  }

  /** Whatever ordinary names the sources come to have, all that is declared is in its normal form, just if no wildcard can be fed so. */
  lemma NeverDotsIff(rules: seq<Rule>)
    requires WellFormedRules(rules) && NormalRules(rules) && Feeds.NoneFeedsItself(rules)
    ensures !Dots(rules) <==> forall source, commands, o ::
      OrdinarySource(source) && IsExpansion(source, rules, commands) && o in commands ==> Normal(o)
  {
    forall source, commands, o | !Dots(rules) && OrdinarySource(source) && IsExpansion(source, rules, commands) && o in commands
      ensures Normal(o)
    {
      if !Normal(o) {
        DottedMeansDots(source, rules, commands, o);
      }
    }
    if Dots(rules) {
      var source := UnsafeRuleDots(rules);
      var commands := SomeExpansion(source, rules);
    }
  }

  // ---- Manifests -------------------------------------------------------------------------------

  /** The rules a manifest leaves standing have the paths its lines do. */
  lemma KeptAreNormal(lines: seq<Parse.Line>)
    requires Parse.WellFormedLines(lines)
    ensures NormalRules(Parse.Kept(Parse.Accepted(lines), 0))
  {
    AcceptedAreNormal(lines);
    var entries := Parse.Accepted(lines);
    var at := Parse.KeptAt(entries, 0);
    forall i | 0 <= i < |at| ensures Normal(entries[at[i]].rule.output) && Normal(entries[at[i]].rule.source) {
    }
  }

  lemma {:induction false} AcceptedAreNormal(lines: seq<Parse.Line>)
    requires Parse.WellFormedLines(lines)
    ensures forall i :: 0 <= i < |Parse.Accepted(lines)| ==>
      Normal(Parse.Accepted(lines)[i].rule.output) && Normal(Parse.Accepted(lines)[i].rule.source)
  {
    if lines != [] {
      AcceptedAreNormal(lines[..|lines| - 1]);
      var last := lines[|lines| - 1];
      assert last.WellFormed();
    }
  }

  /** The line that copies each source file `a*` to an output named by just the star. */
  const DotLine := Parse.Line(1, Some([['*']]), true, Copy, "a*", Some(Parse.Word(false, Some([['a', '*']]))))

  /** Accepted without an error, it declares, of the source file `a.`, an output that is not a path under the root. */
  lemma DotThroughManifest(commands: map<Path, Command>)
    requires Parse.WellFormedLines([DotLine])
    requires IsExpansion(map[[] := [Listed("a.", true)]], Parse.Kept(Parse.Accepted([DotLine]), 0), commands)
    ensures Parse.Rejected([DotLine]) + Parse.FallenLines(Parse.Accepted([DotLine])) == {}
    ensures Ordinary("a.") && ["."] in commands && !Normal(["."]) && Normalized(["."]) == Some([])
  {
    var r := Rule([['*']], Copy, "a*", [['a', '*']], false);
    DotLineStands();
    OrdinarySourceMayMakeADot();
    DotIsRoot();
    hide Parse.Kept, Parse.Accepted, Parse.Rejected, Parse.FallenLines, Normalized, StarAt, Closed, Least, MadeByRules;
    DotIsBased(r, [r]);
  }

  lemma DotIsRoot()
    ensures Normalized(["."]) == Some([]) && !Normal(["."])
  {
    assert !Ordinary(["."][0]);
  }

  lemma DotIsBased(r: Rule, rules: seq<Rule>)
    requires WellFormedRules(rules) && r in rules && r == Rule([['*']], Copy, "a*", [['a', '*']], false)
    requires Instantiation(r, "a.").Some? && FileName(Instantiation(r, "a.").value.output) == "."
    ensures Based(map[[] := [Listed("a.", true)]], rules, ["."])
  {
    hide StarAt;
    var source: Source := map[[] := [Listed("a.", true)]];
    assert HasFile(source, Parent(r.source), "a.");
    assert MadeFrom(r, "a.").output == ["."];
    assert BasedOn(source, r, ["."]);
  }

  /** Taken by itself it declares the rule it looks like. */
  lemma DotShape()
    ensures DotLine.WellFormed()
    ensures Parse.Shape(DotLine) == Some(Parse.Entry(Rule([['*']], Copy, "a*", [['a', '*']], false), 1, None))
  {
    assert StarAt(['*']) == 0 && StarAt(['a', '*']) == 1;
    assert Parse.IsWildcardPattern([['*']]) && Parse.IsWildcardPattern([['a', '*']]);
    assert Parse.RenderWord(DotLine.word.value) == "a*";
  }

  lemma DotLineStands()
    ensures Parse.WellFormedLines([DotLine])
    ensures Parse.Rejected([DotLine]) + Parse.FallenLines(Parse.Accepted([DotLine])) == {}
    ensures Parse.Kept(Parse.Accepted([DotLine]), 0) == [Rule([['*']], Copy, "a*", [['a', '*']], false)]
  {
    var r := Rule([['*']], Copy, "a*", [['a', '*']], false);
    DotShape();
    hide Parse.Shape, StarAt;
    assert [DotLine][..0] == [];
    assert Parse.Accepted([]) == [];
    assert Parse.Accepted([DotLine]) == [Parse.Entry(r, 1, None)];
    var entries := [Parse.Entry(r, 1, None)];
    assert Parse.RulesOf(entries) == [r];
    assert Feeds.FeedGraph([r]) == {};
    assert !Parse.Falls(entries, 0);
    assert Parse.Kept(entries, 1) == [];
  }
}
