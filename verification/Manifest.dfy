/** The rule language: wildcard patterns, and which lines of a manifest stand. */
module Manifest {
  import opened Paths
  import opened Wrappers

  datatype Action = Run | Capture | Copy | Tracing

  /** A rule; a wildcard rule's `source` is the pattern its sources match, a simple rule's is empty. */
  datatype Rule = Rule(
    output: Path,
    action: Action,
    command: string,
    source: Path,
    overOutputs: bool)
  {
    predicate IsWildcard() { source != [] }

    predicate WellFormed() {
      && output != []
      && (IsWildcard() ==> '*' in FileName(output) && '*' in FileName(source))
      && (overOutputs ==> IsWildcard())
    }
  }

  /** The two parts of a name around its star, which stands for any text but none at all. */
  datatype NamePattern = NamePattern(prefix: string, suffix: string) {
    predicate Matches(name: Name) {
      && |name| > |prefix| + |suffix|
      && StartsWith(name, prefix)
      && EndsWith(name, suffix)
    }

    /** Whether the fixed ends of two patterns agree as far as both go. */
    predicate Overlaps(other: NamePattern) {
      && (if |prefix| >= |other.prefix| then StartsWith(prefix, other.prefix) else StartsWith(other.prefix, prefix))
      && (if |suffix| >= |other.suffix| then EndsWith(suffix, other.suffix) else EndsWith(other.suffix, suffix))
    }

    /** What the `*` stands for in a matching name. */
    function Stem(name: Name): string
      requires Matches(name)
    {
      name[|prefix|..|name| - |suffix|]
    }

    function Fill(stem: string): Name {
      prefix + stem + suffix
    }
  }

  function StarAt(name: Name): nat
    requires '*' in name
    ensures StarAt(name) < |name| && name[StarAt(name)] == '*' && '*' !in name[..StarAt(name)]
  {
    if name[0] == '*' then 0 else
    assert name == [name[0]] + name[1..];
    1 + StarAt(name[1..])
  }

  function PatternOf(name: Name): NamePattern
    requires '*' in name
  {
    NamePattern(name[..StarAt(name)], name[StarAt(name) + 1..])
  }

  function OutputPattern(r: Rule): NamePattern
    requires r.WellFormed() && r.IsWildcard()
  {
    PatternOf(FileName(r.output))
  }

  function SourcePattern(r: Rule): NamePattern
    requires r.WellFormed() && r.IsWildcard()
  {
    PatternOf(FileName(r.source))
  }

  /** A name matches a pattern exactly when it is the pattern filled with a non-empty stem. */
  lemma MatchesIffFilled(p: NamePattern, name: Name)
    ensures p.Matches(name) <==> exists stem :: stem != "" && name == p.Fill(stem)
    ensures p.Matches(name) ==> p.Stem(name) != "" && p.Fill(p.Stem(name)) == name
  {
    if p.Matches(name) {
      var stem := p.Stem(name);
      assert name == name[..|p.prefix|] + stem + name[|name| - |p.suffix|..];
      assert name == p.Fill(stem);
    }
    forall stem | stem != "" && name == p.Fill(stem) ensures p.Matches(name) {
      assert name[|name| - |p.suffix|..] == p.suffix;
    }
  }

  /** Filling a pattern loses nothing: the stem can be read back. */
  lemma StemOfFilled(p: NamePattern, stem: string)
    requires stem != ""
    ensures p.Matches(p.Fill(stem)) && p.Stem(p.Fill(stem)) == stem
  {
    var name := p.Fill(stem);
    assert name[|name| - |p.suffix|..] == p.suffix;
    assert name[|p.prefix|..|name| - |p.suffix|] == stem;
  }

  /** Two prefixes, or two suffixes, of one string agree as far as both go. */
  lemma EndsAgree(s: string, a: string, b: string)
    requires EndsWith(s, a) && EndsWith(s, b)
    ensures |a| >= |b| ==> EndsWith(a, b)
  {
    if |a| >= |b| {
      assert a[|a| - |b|..] == s[|s| - |a|..][|a| - |b|..] == s[|s| - |b|..];
    }
  }

  /** A name that both of two overlapping patterns match: the longer ends around one letter. */
  function Witness(p: NamePattern, q: NamePattern): Name {
    (if |p.prefix| >= |q.prefix| then p.prefix else q.prefix)
    + "x"
    + (if |p.suffix| >= |q.suffix| then p.suffix else q.suffix)
  }

  lemma LongerEndsMatch(p: NamePattern, front: string, back: string)
    requires StartsWith(front, p.prefix) && EndsWith(back, p.suffix)
    ensures p.Matches(front + "x" + back)
  {
    var name := front + "x" + back;
    assert name[..|front|] == front;
    assert name[|front| + 1..] == back;
    assert name[|name| - |p.suffix|..] == back[|back| - |p.suffix|..];
  }

  lemma WitnessMatches(p: NamePattern, q: NamePattern)
    requires p.Overlaps(q)
    ensures p.Matches(Witness(p, q)) && q.Matches(Witness(p, q))
  {
    var front := if |p.prefix| >= |q.prefix| then p.prefix else q.prefix;
    var back := if |p.suffix| >= |q.suffix| then p.suffix else q.suffix;
    LongerEndsMatch(p, front, back);
    LongerEndsMatch(q, front, back);
  }

  /** `Overlaps` is exact, even if only ordinary file names are allowed. */
  lemma OverlapsIffSomeNameMatchesBoth(p: NamePattern, q: NamePattern)
    requires '/' !in p.prefix && '/' !in p.suffix && '/' !in q.prefix && '/' !in q.suffix
    ensures p.Overlaps(q) <==> exists name :: Ordinary(name) && p.Matches(name) && q.Matches(name)
  {
    if p.Overlaps(q) {
      WitnessMatches(p, q);
      var name := Witness(p, q);
      assert 'x' in name;
      assert Ordinary(name);
    }
    forall name | p.Matches(name) && q.Matches(name) ensures p.Overlaps(q) {
      MatchedByBoth(p, q, name);
    }
  }

  lemma MatchedByBoth(p: NamePattern, q: NamePattern, name: Name)
    requires p.Matches(name) && q.Matches(name)
    ensures p.Overlaps(q)
  {
    EndsAgree(name, p.suffix, q.suffix);
    EndsAgree(name, q.suffix, p.suffix);
  }

  /** `text` with every `*` replaced by `stem`. */
  function Substitute(text: string, stem: string): string {
    if text == "" then ""
    else Substitute(text[..|text| - 1], stem) + (if text[|text| - 1] == '*' then stem else [text[|text| - 1]])
  }

  lemma {:induction false} SubstituteJoins(a: string, b: string, stem: string)
    ensures Substitute(a + b, stem) == Substitute(a, stem) + Substitute(b, stem)
  {
    if b == "" {
      assert a + b == a;
    } else {
      var rest := b[..|b| - 1];
      SubstituteJoins(a, rest, stem);
      assert (a + b)[..|a + b| - 1] == a + rest;
    }
  }

  /** Text without a star stays as it is. */
  lemma {:induction false} SubstituteKeepsRest(text: string, stem: string)
    requires '*' !in text
    ensures Substitute(text, stem) == text
  {
    if text != "" {
      SubstituteKeepsRest(text[..|text| - 1], stem);
      assert text == text[..|text| - 1] + [text[|text| - 1]];
    }
  }

  /** Each star becomes the stem, where it is; with what is left of text without one, that says all there is to say. */
  lemma SubstituteAtStar(a: string, b: string, stem: string)
    ensures Substitute(a + "*" + b, stem) == Substitute(a, stem) + stem + Substitute(b, stem)
  {
    SubstituteJoins(a + "*", b, stem);
    SubstituteJoins(a, "*", stem);
    assert Substitute("*", stem) == Substitute("", stem) + stem;
  }

  /** No star is left but those of the stem. */
  lemma {:induction false} SubstituteLeavesNone(text: string, stem: string)
    ensures '*' in Substitute(text, stem) <==> '*' in text && '*' in stem
  {
    if text != "" {
      SubstituteLeavesNone(text[..|text| - 1], stem);
      assert text == text[..|text| - 1] + [text[|text| - 1]];
    }
  }

  /** The simple rule that wildcard `r` stands for, given what its `*` matched. */
  function Filled(r: Rule, stem: string): Rule
    requires r.WellFormed() && r.IsWildcard()
  {
    Rule(Parent(r.output) + [OutputPattern(r).Fill(stem)], r.action, Substitute(r.command, stem), [], false)
  }

  /** What `Instantiate` returns. */
  function Instantiation(r: Rule, name: Name): Option<Rule>
    requires r.WellFormed() && r.IsWildcard()
  {
    if SourcePattern(r).Matches(name) then Some(Filled(r, SourcePattern(r).Stem(name))) else None
  }

  method Instantiate(r: Rule, name: Name) returns (matched: Option<Rule>)
    requires r.WellFormed() && r.IsWildcard()
    ensures matched == Instantiation(r, name)
  {
    var source := PatternOf(FileName(r.source));
    if !source.Matches(name) {
      return None;
    }
    var stem := name[|source.prefix|..|name| - |source.suffix|];
    var output := PatternOf(FileName(r.output));
    var command := "";
    for i := 0 to |r.command|
      invariant command == Substitute(r.command[..i], stem)
    {
      assert r.command[..i + 1][..i] == r.command[..i];
      if r.command[i] == '*' {
        command := command + stem;
      } else {
        command := command + [r.command[i]];
      }
    }
    assert r.command[..|r.command|] == r.command;
    return Some(Rule(Parent(r.output) + [output.prefix + stem + output.suffix], r.action, command, [], false));
  }

  /** What a wildcard stands for at a name: nothing, if the name is not its pattern filled; otherwise its own action on its
      own output and text, each filled with the same stem. */
  lemma InstantiationIs(r: Rule, name: Name)
    requires r.WellFormed() && r.IsWildcard()
    ensures Instantiation(r, name).Some? <==> exists stem :: stem != "" && name == SourcePattern(r).Fill(stem)
    ensures forall stem :: stem != "" && name == SourcePattern(r).Fill(stem) ==>
      var made := Instantiation(r, name).value;
      && made.output == Parent(r.output) + [OutputPattern(r).prefix + stem + OutputPattern(r).suffix]
      && made.action == r.action && !made.IsWildcard() && made.command == Substitute(r.command, stem)
  {
    if SourcePattern(r).Matches(name) {
      MatchesIffFilled(SourcePattern(r), name);
    }
    forall stem | stem != "" && name == SourcePattern(r).Fill(stem)
      ensures SourcePattern(r).Matches(name) && SourcePattern(r).Stem(name) == stem
    {
      StemOfFilled(SourcePattern(r), stem);
    }
  }

  // ---- Which rules may stand together -------------------------------------------------------

  /** `r` makes the path `o`, given the right stem (any stem, for a wildcard). */
  ghost predicate Makes(r: Rule, stem: string, o: Path)
    requires r.WellFormed()
  {
    if r.IsWildcard() then stem != "" && o == Filled(r, stem).output else stem == "" && o == r.output
  }

  /** `d` is in the directory of wildcard `w`, and ends in the suffix `w` bans from it. */
  predicate Banned(w: Rule, d: Path)
    requires w.WellFormed() && w.IsWildcard()
  {
    d != [] && Parent(d) == Parent(w.output) && EndsWith(FileName(d), OutputPattern(w).suffix)
  }

  /** Wildcard `w` bans a directory above `p`. */
  ghost predicate BansAbove(w: Rule, p: Path)
    requires w.WellFormed() && w.IsWildcard()
  {
    exists d :: d < p && Banned(w, d)
  }

  /** Why `later` may not join a manifest that already has `earlier`. */
  ghost predicate Conflict(earlier: Rule, later: Rule)
    requires earlier.WellFormed() && later.WellFormed()
  {
    || (!earlier.IsWildcard() && earlier.output <= later.output)
    || later.output < earlier.output
    || (earlier.IsWildcard() && BansAbove(earlier, later.output))
    || (earlier.IsWildcard() && !later.IsWildcard() && Banned(earlier, later.output))
    || (!earlier.IsWildcard() && later.IsWildcard() && Banned(later, earlier.output))
    || (later.IsWildcard() && BansAbove(later, earlier.output))
    || (earlier.IsWildcard() && later.IsWildcard() && Parent(earlier.output) == Parent(later.output)
        && (EndsWith(OutputPattern(later).suffix, OutputPattern(earlier).suffix)
            || EndsWith(OutputPattern(earlier).suffix, OutputPattern(later).suffix)))
  }

  /** A rule's outputs, whatever they come to be, are among these; a wildcard's keep its suffix to themselves where it is. */
  predicate ClaimsFile(r: Rule, p: Path)
    requires r.WellFormed()
  {
    if r.IsWildcard() then p != [] && Parent(p) == Parent(r.output) && EndsWith(FileName(p), OutputPattern(r).suffix) else p == r.output
  }

  /** And these are the directories they are all in. */
  predicate ClaimsDirectory(r: Rule, p: Path)
    requires r.WellFormed()
  {
    p != [] && p < r.output
  }

  /** A star stands for something only in a wildcard's file name. */
  predicate StarsInPlace(r: Rule)
    requires r.WellFormed()
  {
    forall i :: 0 <= i < |r.output| && (r.IsWildcard() ==> i < |r.output| - 1) ==> '*' !in r.output[i]
  }

  /** Some path is claimed by both, and not as a directory by both. */
  ghost predicate Contested(a: Rule, b: Rule)
    requires a.WellFormed() && b.WellFormed()
  {
    exists p :: (ClaimsFile(a, p) && (ClaimsFile(b, p) || ClaimsDirectory(b, p))) || (ClaimsDirectory(a, p) && ClaimsFile(b, p))
  }

  /** Two rules conflict just if they claim one path, whichever came first. */
  lemma ConflictIffContested(earlier: Rule, later: Rule)
    requires earlier.WellFormed() && later.WellFormed() && StarsInPlace(earlier) && StarsInPlace(later)
    ensures Conflict(earlier, later) <==> Contested(earlier, later)
  {
    if Conflict(earlier, later) {
      ConflictIsContested(earlier, later);
    }
    if Contested(earlier, later) {
      ContestedConflicts(earlier, later);
    }
  }

  /** A pattern's path has a star, so no rule without one, and no directory, is at it. */
  lemma StarsApart(w: Rule, r: Rule)
    requires w.WellFormed() && r.WellFormed() && StarsInPlace(w) && StarsInPlace(r) && w.IsWildcard()
    ensures !r.IsWildcard() ==> !(w.output <= r.output)
    ensures r.IsWildcard() ==> !(w.output < r.output)
  {
    var k := |w.output| - 1;
    assert w.output[k] == FileName(w.output);
    if w.output <= r.output {
      assert r.output[k] == w.output[k];
    }
  }

  lemma SuffixesContest(a: Rule, b: Rule)
    requires a.WellFormed() && b.WellFormed() && a.IsWildcard() && b.IsWildcard() && Parent(a.output) == Parent(b.output)
    requires EndsWith(OutputPattern(a).suffix, OutputPattern(b).suffix) || EndsWith(OutputPattern(b).suffix, OutputPattern(a).suffix)
    ensures Contested(a, b)
  {
    var s, t := OutputPattern(a).suffix, OutputPattern(b).suffix;
    var name := if |s| >= |t| then s else t;
    hide PatternOf;
    var p := Parent(a.output) + [name];
    assert Parent(p) == Parent(a.output) && FileName(p) == name;
    assert name[|name| - |s|..] == s && name[|name| - |t|..] == t;
    assert ClaimsFile(a, p) && ClaimsFile(b, p);
  }

  lemma ConflictIsContested(earlier: Rule, later: Rule)
    requires earlier.WellFormed() && later.WellFormed() && StarsInPlace(earlier) && StarsInPlace(later) && Conflict(earlier, later)
    ensures Contested(earlier, later)
  {
    if later.IsWildcard() {
      StarsApart(later, earlier);
    }
    if !earlier.IsWildcard() && earlier.output <= later.output {
      assert ClaimsFile(earlier, earlier.output);
      assert later.IsWildcard() ==> earlier.output != later.output;
    } else if later.output < earlier.output {
      assert ClaimsFile(later, later.output) && ClaimsDirectory(earlier, later.output);
    } else if earlier.IsWildcard() && BansAbove(earlier, later.output) {
      var d :| d < later.output && Banned(earlier, d);
      assert ClaimsFile(earlier, d) && ClaimsDirectory(later, d);
    } else if later.IsWildcard() && BansAbove(later, earlier.output) {
      var d :| d < earlier.output && Banned(later, d);
      assert ClaimsFile(later, d) && ClaimsDirectory(earlier, d);
    } else if earlier.IsWildcard() && later.IsWildcard() {
      SuffixesContest(earlier, later);
    } else if earlier.IsWildcard() {
      assert ClaimsFile(earlier, later.output) && ClaimsFile(later, later.output);
    } else {
      assert ClaimsFile(earlier, earlier.output) && ClaimsFile(later, earlier.output);
    }
  }

  lemma ContestedConflicts(earlier: Rule, later: Rule)
    requires earlier.WellFormed() && later.WellFormed() && StarsInPlace(earlier) && StarsInPlace(later) && Contested(earlier, later)
    ensures Conflict(earlier, later)
  {
    var p :| (ClaimsFile(earlier, p) && (ClaimsFile(later, p) || ClaimsDirectory(later, p))) || (ClaimsDirectory(earlier, p) && ClaimsFile(later, p));
    if ClaimsFile(earlier, p) && ClaimsDirectory(later, p) {
      assert earlier.IsWildcard() ==> Banned(earlier, p);
    } else if ClaimsDirectory(earlier, p) && ClaimsFile(later, p) {
      assert later.IsWildcard() ==> Banned(later, p);
    } else if earlier.IsWildcard() && later.IsWildcard() {
      var a, b := OutputPattern(earlier).suffix, OutputPattern(later).suffix;
      EndsAgree(FileName(p), a, b);
      EndsAgree(FileName(p), b, a);
    } else if earlier.IsWildcard() {
      assert Banned(earlier, later.output);
    } else if later.IsWildcard() {
      assert Banned(later, earlier.output);
    }
  }

  ghost predicate WellFormedRules(rules: seq<Rule>) {
    forall i :: 0 <= i < |rules| ==> rules[i].WellFormed()
  }

  ghost predicate ConflictFree(rules: seq<Rule>)
    requires WellFormedRules(rules)
  {
    forall i, j :: 0 <= i < j < |rules| ==> !Conflict(rules[i], rules[j])
  }

  /** Anything a wildcard makes is in its directory and ends in its suffix. */
  lemma MadeIsBanned(w: Rule, stem: string, o: Path)
    requires w.WellFormed() && w.IsWildcard() && Makes(w, stem, o)
    ensures Banned(w, o)
  {
    StemOfFilled(OutputPattern(w), stem);
  }

  /** The pattern filled with `stem` is nothing but one or two dots. */
  predicate Dotted(p: NamePattern, stem: string) {
    || (stem == "." && p.prefix + p.suffix in ["", "."])
    || (stem == ".." && p.prefix + p.suffix == "")
  }

  /** A stem that comes from an ordinary name fills to an ordinary name, but for these dots. */
  lemma FilledNameIsOrdinary(p: NamePattern, stem: string)
    requires '/' !in p.prefix && '/' !in p.suffix && '/' !in stem && stem != ""
    ensures !Ordinary(p.Fill(stem)) <==> Dotted(p, stem)
  {
    var name := p.Fill(stem);
    assert stem == name[|p.prefix|..|p.prefix| + |stem|];
    assert p.prefix + p.suffix == name[..|p.prefix|] + name[|p.prefix| + |stem|..];
    assert name != "" && '/' !in name;
    if stem == "." && p.prefix + p.suffix == "." {
      assert p.prefix == "." || p.suffix == ".";
      assert name == "..";
    }
  }

  lemma StarPatterns()
    ensures PatternOf(['*']) == NamePattern("", "") && PatternOf(['a', '*']) == NamePattern("a", "")
  {
    var star, sources := ['*'], ['a', '*'];
    assert star[0] == '*' && sources[1] == '*';
    assert StarAt(sources) == 1;
  }

  /** A wildcard whose output is just a star, over sources `a*`, makes an output named `.` of the file `a.` */
  lemma OrdinarySourceMayMakeADot()
    ensures Ordinary("a.")
    ensures var r := Rule([['*']], Copy, "a*", [['a', '*']], false);
      r.WellFormed() && Instantiation(r, "a.").Some? && FileName(Instantiation(r, "a.").value.output) == "."
  {
    var r := Rule([['*']], Copy, "a*", [['a', '*']], false);
    assert FileName(r.output)[0] == '*' && FileName(r.source)[1] == '*';
    StarPatterns();
    hide StarAt, PatternOf;
    StemOfFilled(SourcePattern(r), ".");
  }

  /** What one rule makes is never what an earlier one makes, nor a directory above or below it. */
  lemma DistinctRulesNeverCollide(earlier: Rule, later: Rule, s: string, t: string, o: Path, p: Path)
    requires earlier.WellFormed() && later.WellFormed() && !Conflict(earlier, later)
    requires Makes(earlier, s, o) && Makes(later, t, p)
    ensures !(o <= p) && !(p <= o)
  {
    if earlier.IsWildcard() {
      MadeIsBanned(earlier, s, o);
    }
    if later.IsWildcard() {
      MadeIsBanned(later, t, p);
    }
    if o == p && earlier.IsWildcard() && later.IsWildcard() {
      EndsAgree(FileName(o), OutputPattern(earlier).suffix, OutputPattern(later).suffix);
      EndsAgree(FileName(o), OutputPattern(later).suffix, OutputPattern(earlier).suffix);
    }
  }

  /** One rule makes distinct, unnested paths from distinct stems. */
  lemma DistinctStemsNeverCollide(r: Rule, s: string, t: string, o: Path, p: Path)
    requires r.WellFormed() && Makes(r, s, o) && Makes(r, t, p)
    ensures !(o < p)
    ensures o == p ==> s == t
  {
    if r.IsWildcard() && o == p {
      assert FileName(o) == OutputPattern(r).Fill(s) && FileName(p) == OutputPattern(r).Fill(t);
      StemOfFilled(OutputPattern(r), s);
      StemOfFilled(OutputPattern(r), t);
    }
  }

  /** However the source grows, no path is made twice, and none is inside another. */
  lemma ExpansionsNeverCollide(rules: seq<Rule>, i: nat, s: string, j: nat, t: string, o: Path, p: Path)
    requires WellFormedRules(rules) && ConflictFree(rules)
    requires i < |rules| && j < |rules| && Makes(rules[i], s, o) && Makes(rules[j], t, p)
    ensures !(o < p)
    ensures o == p ==> i == j && s == t
  {
    if i < j {
      DistinctRulesNeverCollide(rules[i], rules[j], s, t, o, p);
    } else if j < i {
      DistinctRulesNeverCollide(rules[j], rules[i], t, s, p, o);
    } else {
      DistinctStemsNeverCollide(rules[i], s, t, o, p);
    }
  }
}
