/** Path rules: the longest enclosing directory wins each changed file. */
module RoutingPaths {
  import opened Optional
  import opened RoutingModel
  import opened RoutingResolve

  // ---------------------------------------------------------------- files and directories

  /** The Unicode white space that strings.TrimSpace removes. */
  predicate IsSpace(c: char) {
    || '\t' <= c <= '\r' || c == ' ' || c == '\U{0085}' || c == '\U{00A0}' || c == '\U{1680}'
    || '\U{2000}' <= c <= '\U{200A}' || c == '\U{2028}' || c == '\U{2029}' || c == '\U{202F}'
    || c == '\U{205F}' || c == '\U{3000}'
  }

  function TrimLeft(s: string): string {
    if s != "" && IsSpace(s[0]) then TrimLeft(s[1..]) else s
  }

  function TrimRight(s: string): string {
    if s != "" && IsSpace(s[|s| - 1]) then TrimRight(s[..|s| - 1]) else s
  }

  function TrimSpace(s: string): string {
    TrimRight(TrimLeft(s))
  }

  function NormalizeChangedFile(file: string): string {
    var s := TrimSpace(file);
    if "/" <= s then s[1..] else s
  }

  function NormalizedFiles(files: seq<string>): set<string> {
    set file | file in files :: NormalizeChangedFile(file)
  }

  /** The file lives inside the directory; whole path segments count. */
  predicate FileUnder(file: string, dir: string) {
    dir + "/" <= file
  }

  /** Two directories of one file nest: the same length means the same directory. */
  lemma EnclosingDirsNest(file: string, dir: string, other: string)
    requires FileUnder(file, dir) && FileUnder(file, other)
    ensures |dir| == |other| ==> dir == other
  {
    assert dir == file[..|dir|] && other == file[..|other|];
  }

  ghost predicate DistinctDirs(rules: seq<PathRule>) {
    forall i, j | 0 <= i < j < |rules| :: rules[i].dir != rules[j].dir
  }

  // ---------------------------------------------------------------- the winner of a file

  /** Which rules compete: all of them for routing, those setting the key for a party value. */
  datatype Competition = AllRules | SettingReviewers | SettingDeadline

  predicate Competes(competition: Competition, rule: PathRule) {
    match competition
    case AllRules => true
    case SettingReviewers => rule.party.reviewers.Some?
    case SettingDeadline => rule.party.deadline.Some?
  }

  /** The index of the longest enclosing directory among the first n rules, the earliest of equals. */
  function Best(competition: Competition, rules: seq<PathRule>, file: string, n: nat): (best: Option<nat>)
    requires n <= |rules|
    ensures best.Some? ==> best.value < n
  {
    if n == 0 then None
    else
      var best := Best(competition, rules, file, n - 1);
      var rule := rules[n - 1];
      if Competes(competition, rule) && FileUnder(file, rule.dir) && (best.None? || |rule.dir| > |rules[best.value].dir|)
      then Some(n - 1)
      else best
  }

  function Winner(competition: Competition, rules: seq<PathRule>, file: string): Option<nat> {
    Best(competition, rules, file, |rules|)
  }

  /** The rule encloses the file and is longer than every other competing rule that does. */
  ghost predicate IsUniqueLongest(competition: Competition, rules: seq<PathRule>, file: string, i: nat)
    requires i < |rules|
  {
    && Competes(competition, rules[i]) && FileUnder(file, rules[i].dir)
    && forall j | 0 <= j < |rules| && j != i && Competes(competition, rules[j]) && FileUnder(file, rules[j].dir) ::
         |rules[j].dir| < |rules[i].dir|
  }

  lemma {:induction false} BestAmong(competition: Competition, rules: seq<PathRule>, file: string, n: nat)
    requires n <= |rules|
    ensures var best := Best(competition, rules, file, n);
      && (best.None? ==> forall j | 0 <= j < n :: !(Competes(competition, rules[j]) && FileUnder(file, rules[j].dir)))
      && (best.Some? ==>
            && Competes(competition, rules[best.value]) && FileUnder(file, rules[best.value].dir)
            && forall j | 0 <= j < n && Competes(competition, rules[j]) && FileUnder(file, rules[j].dir) ::
                 |rules[j].dir| <= |rules[best.value].dir|)
  {
    if n > 0 {
      BestAmong(competition, rules, file, n - 1);
    }
  }

  /** With distinct directories a rule wins a file exactly when it is the unique longest directory enclosing it. */
  lemma WinnerIsUniqueLongest(competition: Competition, rules: seq<PathRule>, file: string, i: nat)
    requires DistinctDirs(rules) && i < |rules|
    ensures Winner(competition, rules, file) == Some(i) <==> IsUniqueLongest(competition, rules, file, i)
    ensures Winner(competition, rules, file).None? <==>
            forall j | 0 <= j < |rules| :: !(Competes(competition, rules[j]) && FileUnder(file, rules[j].dir))
  {
    BestAmong(competition, rules, file, |rules|);
    var best := Winner(competition, rules, file);
    if best.Some? {
      forall j | 0 <= j < |rules| && j != best.value && Competes(competition, rules[j]) && FileUnder(file, rules[j].dir)
        ensures |rules[j].dir| < |rules[best.value].dir|
      {
        EnclosingDirsNest(file, rules[j].dir, rules[best.value].dir);
      }
    }
  }

  // ---------------------------------------------------------------- matched rules

  /** The rule at i wins some changed file. */
  predicate IsChosen(rules: seq<PathRule>, files: seq<string>, i: nat) {
    exists file | file in files :: Winner(AllRules, rules, NormalizeChangedFile(file)) == Some(i)
  }

  /** The chosen rules among the first n, in declaration order. */
  function MatchedAmong(rules: seq<PathRule>, files: seq<string>, n: nat): seq<PathRule>
    requires n <= |rules|
  {
    if n == 0 then []
    else
      var earlier := MatchedAmong(rules, files, n - 1);
      if IsChosen(rules, files, n - 1) then earlier + [rules[n - 1]] else earlier
  }

  function Matched(rules: seq<PathRule>, files: seq<string>): seq<PathRule> {
    MatchedAmong(rules, files, |rules|)
  }

  method MatchedRules(rules: seq<PathRule>, files: seq<string>) returns (matched: seq<PathRule>)
    ensures matched == Matched(rules, files)
  {
    var chosen := seq(|rules|, i => false);
    for f := 0 to |files|
      invariant |chosen| == |rules|
      invariant forall i | 0 <= i < |rules| :: chosen[i] <==> IsChosen(rules, files[..f], i)
    {
      var file := NormalizeChangedFile(files[f]);
      var best: Option<nat> := None;
      for i := 0 to |rules|
        invariant best == Best(AllRules, rules, file, i)
      {
        if FileUnder(file, rules[i].dir) && (best.None? || |rules[i].dir| > |rules[best.value].dir|) {
          best := Some(i);
        }
      }
      assert files[..f + 1] == files[..f] + [files[f]];
      if best.Some? {
        chosen := chosen[best.value := true];
      }
    }
    assert files[..|files|] == files;
    matched := [];
    for i := 0 to |rules|
      invariant matched == MatchedAmong(rules, files, i)
    {
      if chosen[i] {
        matched := matched + [rules[i]];
      }
    }
  }

  lemma {:induction false} MatchedAmongRules(rules: seq<PathRule>, files: seq<string>, n: nat, rule: PathRule)
    requires n <= |rules|
    ensures rule in MatchedAmong(rules, files, n) <==> exists i :: 0 <= i < n && rules[i] == rule && IsChosen(rules, files, i)
  {
    if n > 0 {
      MatchedAmongRules(rules, files, n - 1, rule);
    }
  }

  /** A rule is returned exactly when it is the unique longest directory enclosing some changed file. */
  lemma MatchedExactlyLongest(rules: seq<PathRule>, files: seq<string>, i: nat)
    requires DistinctDirs(rules) && i < |rules|
    ensures rules[i] in Matched(rules, files)
            <==> exists file :: file in files && IsUniqueLongest(AllRules, rules, NormalizeChangedFile(file), i)
  {
    MatchedAmongRules(rules, files, |rules|, rules[i]);
    forall file { WinnerIsUniqueLongest(AllRules, rules, NormalizeChangedFile(file), i); }
    if rules[i] in Matched(rules, files) {
      var j :| 0 <= j < |rules| && rules[j] == rules[i] && IsChosen(rules, files, j);
      assert j == i;
    }
  }

  lemma ChosenBySet(rules: seq<PathRule>, files: seq<string>, others: seq<string>, i: nat)
    requires NormalizedFiles(files) == NormalizedFiles(others) && IsChosen(rules, files, i)
    ensures IsChosen(rules, others, i)
  {
    var file :| file in files && Winner(AllRules, rules, NormalizeChangedFile(file)) == Some(i);
    assert NormalizeChangedFile(file) in NormalizedFiles(others);
  }

  /** The matched rules depend only on the set of normalized files. */
  lemma {:induction false} MatchedBySet(rules: seq<PathRule>, files: seq<string>, others: seq<string>, n: nat)
    requires NormalizedFiles(files) == NormalizedFiles(others) && n <= |rules|
    ensures MatchedAmong(rules, files, n) == MatchedAmong(rules, others, n)
  {
    if n > 0 {
      MatchedBySet(rules, files, others, n - 1);
      if IsChosen(rules, files, n - 1) {
        ChosenBySet(rules, files, others, n - 1);
      }
      if IsChosen(rules, others, n - 1) {
        ChosenBySet(rules, others, files, n - 1);
      }
    }
  }

  // ---------------------------------------------------------------- what files and directories are

  /** A file is under a directory as far as whole segments go: a longer segment with the same start is another directory. */
  lemma WholeSegments(dir: string, rest: string, c: char)
    requires c != '/'
    ensures FileUnder(dir + "/" + rest, dir)
    ensures !FileUnder(dir + [c] + rest, dir) && !FileUnder(dir, dir)
  {
    var under, beside := dir + "/" + rest, dir + [c] + rest;
    assert under[..|dir| + 1] == dir + "/";
    assert beside[|dir|] == c && (dir + "/")[|dir|] == '/';
  }

  lemma {:induction false} TrimLeftIs(s: string) returns (spaces: string)
    ensures s == spaces + TrimLeft(s) && forall c | c in spaces :: IsSpace(c)
    ensures TrimLeft(s) != "" ==> !IsSpace(TrimLeft(s)[0])
  {
    hide IsSpace;
    if s != "" && IsSpace(s[0]) {
      var rest := TrimLeftIs(s[1..]);
      spaces := [s[0]] + rest;
      assert s == [s[0]] + s[1..];
    } else {
      spaces := "";
    }
  }

  lemma {:induction false} TrimRightIs(s: string) returns (spaces: string)
    ensures s == TrimRight(s) + spaces && forall c | c in spaces :: IsSpace(c)
    ensures TrimRight(s) != "" ==> !IsSpace(TrimRight(s)[|TrimRight(s)| - 1])
    ensures TrimRight(s) != "" ==> TrimRight(s)[0] == s[0]
  {
    hide IsSpace;
    if s != "" && IsSpace(s[|s| - 1]) {
      var rest := TrimRightIs(s[..|s| - 1]);
      spaces := rest + [s[|s| - 1]];
      assert s == s[..|s| - 1] + [s[|s| - 1]];
    } else {
      spaces := "";
    }
  }

  /** Normalizing drops the white space around a file name and then one leading slash, and nothing else. */
  lemma NormalizedIs(file: string) returns (before: string, trimmed: string, after: string)
    ensures file == before + trimmed + after && forall c | c in before || c in after :: IsSpace(c)
    ensures trimmed != "" ==> !IsSpace(trimmed[0]) && !IsSpace(trimmed[|trimmed| - 1])
    ensures NormalizeChangedFile(file) == if trimmed != "" && trimmed[0] == '/' then trimmed[1..] else trimmed
  {
    before := TrimLeftIs(file);
    after := TrimRightIs(TrimLeft(file));
    trimmed := TrimSpace(file);
  }

  /** A chosen rule comes right behind the chosen rules declared before it. */
  lemma {:induction false} MatchedInOrder(rules: seq<PathRule>, files: seq<string>, i: nat, n: nat)
    requires i < n <= |rules| && IsChosen(rules, files, i)
    ensures var behind := |MatchedAmong(rules, files, i)|;
            behind < |MatchedAmong(rules, files, n)| && MatchedAmong(rules, files, n)[behind] == rules[i]
  {
    hide IsChosen;
    if i < n - 1 {
      MatchedInOrder(rules, files, i, n - 1);
    }
  }
}
