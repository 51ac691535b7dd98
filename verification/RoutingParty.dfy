/** How many party members a pull request goes to and for how long turns are kept, by repository and changed files. */
module RoutingParty {
  import opened Optional
  import opened RoutingModel
  import opened RoutingPaths

  const MINUTE := 60 * 1_000_000_000
  const DEFAULT_PARTY_REVIEWERS := 1
  const MIN_PARTY_REVIEWERS := 1
  const DEFAULT_PARTY_DEADLINE := 60 * MINUTE
  const MIN_PARTY_DEADLINE := 15 * MINUTE

  /** A tier's override and its path rules that set a party value. */
  datatype PartyTier = PartyTier(override: PartyOverride, paths: seq<PathRule>)

  function ApplyOverride(settings: PartySettings, override: PartyOverride): PartySettings {
    PartySettings(override.reviewers.GetOr(settings.reviewers), override.deadline.GetOr(settings.deadline))
  }

  /** The most specific level that sets a value wins; values below the minimum fall back to the defaults. */
  function RepositoryParty(defaults: PartySettings, star: PartyTier, repo: PartyTier): PartySettings {
    var base := PartySettings(
      if defaults.reviewers < MIN_PARTY_REVIEWERS then DEFAULT_PARTY_REVIEWERS else defaults.reviewers,
      if defaults.deadline < MIN_PARTY_DEADLINE then DEFAULT_PARTY_DEADLINE else defaults.deadline);
    ApplyOverride(ApplyOverride(base, star.override), repo.override)
  }

  // ---------------------------------------------------------------- one file

  /** Each value comes from the longest directory enclosing the normalized file that sets it. */
  function PartyOf(rules: seq<PathRule>, base: PartySettings, file: string): PartySettings {
    PartySettings(ReviewersAt(rules, base, file, |rules|), DeadlineAt(rules, base, file, |rules|))
  }

  function ReviewersAt(rules: seq<PathRule>, base: PartySettings, file: string, n: nat): int
    requires n <= |rules|
  {
    var best := Best(SettingReviewers, rules, file, n);
    if best.Some? then rules[best.value].party.reviewers.GetOr(base.reviewers) else base.reviewers
  }

  function DeadlineAt(rules: seq<PathRule>, base: PartySettings, file: string, n: nat): int
    requires n <= |rules|
  {
    var best := Best(SettingDeadline, rules, file, n);
    if best.Some? then rules[best.value].party.deadline.GetOr(base.deadline) else base.deadline
  }

  method FileParty(rules: seq<PathRule>, base: PartySettings, rawFile: string) returns (settings: PartySettings)
    ensures settings == PartyOf(rules, base, NormalizeChangedFile(rawFile))
  {
    hide NormalizeChangedFile;
    var file := NormalizeChangedFile(rawFile);
    settings := base;
    var reviewersDir, deadlineDir := "", "";
    var reviewersFound, deadlineFound := false, false;
    for i := 0 to |rules|
      invariant settings == PartySettings(ReviewersAt(rules, base, file, i), DeadlineAt(rules, base, file, i))
      invariant reviewersFound <==> Best(SettingReviewers, rules, file, i).Some?
      invariant reviewersFound ==> reviewersDir == rules[Best(SettingReviewers, rules, file, i).value].dir
      invariant deadlineFound <==> Best(SettingDeadline, rules, file, i).Some?
      invariant deadlineFound ==> deadlineDir == rules[Best(SettingDeadline, rules, file, i).value].dir
    {
      var rule := rules[i];
      if !FileUnder(file, rule.dir) {
        continue;
      }
      if rule.party.reviewers.Some? && (!reviewersFound || |rule.dir| > |reviewersDir|) {
        settings, reviewersDir, reviewersFound := settings.(reviewers := rule.party.reviewers.value), rule.dir, true;
      }
      if rule.party.deadline.Some? && (!deadlineFound || |rule.dir| > |deadlineDir|) {
        settings, deadlineDir, deadlineFound := settings.(deadline := rule.party.deadline.value), rule.dir, true;
      }
    }
  }

  /** Each value of a file is that of the unique longest directory setting it, or the repository's. */
  lemma FileValuesFromLongest(rules: seq<PathRule>, base: PartySettings, file: string, i: nat)
    requires DistinctDirs(rules) && i < |rules|
    ensures IsUniqueLongest(SettingReviewers, rules, file, i) ==>
      Some(PartyOf(rules, base, file).reviewers) == rules[i].party.reviewers
    ensures IsUniqueLongest(SettingDeadline, rules, file, i) ==>
      Some(PartyOf(rules, base, file).deadline) == rules[i].party.deadline
    ensures (forall j | 0 <= j < |rules| :: !FileUnder(file, rules[j].dir)) ==> PartyOf(rules, base, file) == base
  {
    WinnerIsUniqueLongest(SettingReviewers, rules, file, i);
    WinnerIsUniqueLongest(SettingDeadline, rules, file, i);
  }

  // ---------------------------------------------------------------- all files

  /** The stricter of two settings, value by value: more members and less time. */
  function Tighter(a: PartySettings, b: PartySettings): PartySettings {
    PartySettings(if b.reviewers > a.reviewers then b.reviewers else a.reviewers,
                  if b.deadline < a.deadline then b.deadline else a.deadline)
  }

  function OverFiles(rules: seq<PathRule>, base: PartySettings, files: seq<string>): PartySettings
    requires files != []
  {
    var last := PartyOf(rules, base, NormalizeChangedFile(files[|files| - 1]));
    if |files| == 1 then last else Tighter(OverFiles(rules, base, files[..|files| - 1]), last)
  }

  /** The settings of a pull request: the repository's own unless path rules and known files say otherwise. */
  function PartySettingsOf(defaults: PartySettings, star: PartyTier, repo: PartyTier,
                           files: seq<string>): PartySettings {
    var base := RepositoryParty(defaults, star, repo);
    if files == [] || repo.paths == [] then base else OverFiles(repo.paths, base, files)
  }

  /** No file asks for more members or less time, and for either value some file asks for just that. */
  ghost predicate IsHighestAndShortest(rules: seq<PathRule>, base: PartySettings, files: set<string>,
                                       settings: PartySettings) {
    && (forall file | file in files :: PartyOf(rules, base, file).reviewers <= settings.reviewers)
    && (exists file :: file in files && PartyOf(rules, base, file).reviewers == settings.reviewers)
    && (forall file | file in files :: settings.deadline <= PartyOf(rules, base, file).deadline)
    && (exists file :: file in files && PartyOf(rules, base, file).deadline == settings.deadline)
  }

  method FindPartySettings(defaults: PartySettings, star: PartyTier, repo: PartyTier, files: seq<string>)
    returns (result: PartySettings)
    ensures result == PartySettingsOf(defaults, star, repo, files)
    ensures var base := RepositoryParty(defaults, star, repo);
            if files == [] || repo.paths == [] then result == base
            else IsHighestAndShortest(repo.paths, base, NormalizedFiles(files), result)
  {
    hide NormalizeChangedFile, PartyOf, IsHighestAndShortest;
    var base := RepositoryParty(defaults, star, repo);
    if files == [] || repo.paths == [] {
      return base;
    }
    result := base;
    for i := 0 to |files|
      invariant i > 0 ==> result == OverFiles(repo.paths, base, files[..i])
    {
      var settings := FileParty(repo.paths, base, files[i]);
      assert files[..i + 1][..i] == files[..i];
      if i == 0 || settings.reviewers > result.reviewers {
        result := result.(reviewers := settings.reviewers);
      }
      if i == 0 || settings.deadline < result.deadline {
        result := result.(deadline := settings.deadline);
      }
    }
    assert files[..|files|] == files;
    OverFilesIsTightest(repo.paths, base, files);
  }

  lemma {:induction false} OverFilesIsTightest(rules: seq<PathRule>, base: PartySettings, files: seq<string>)
    requires files != []
    ensures IsHighestAndShortest(rules, base, NormalizedFiles(files), OverFiles(rules, base, files))
  {
    hide NormalizeChangedFile, PartyOf;
    var init, last := files[..|files| - 1], files[|files| - 1];
    assert files == init + [last];
    assert NormalizedFiles(files) == NormalizedFiles(init) + {NormalizeChangedFile(last)};
    if init != [] {
      OverFilesIsTightest(rules, base, init);
    }
  }

  /** The settings depend only on the set of normalized files: not on order, repetition or a leading slash. */
  lemma SettingsBySet(defaults: PartySettings, star: PartyTier, repo: PartyTier, files: seq<string>,
                      others: seq<string>)
    requires NormalizedFiles(files) == NormalizedFiles(others)
    ensures PartySettingsOf(defaults, star, repo, files) == PartySettingsOf(defaults, star, repo, others)
  {
    hide NormalizeChangedFile, PartyOf, OverFiles;
    var base := RepositoryParty(defaults, star, repo);
    if files != [] {
      assert NormalizeChangedFile(files[0]) in NormalizedFiles(files);
      OverFilesIsTightest(repo.paths, base, files);
    }
    if others != [] {
      assert NormalizeChangedFile(others[0]) in NormalizedFiles(others);
      OverFilesIsTightest(repo.paths, base, others);
    }
  }

  /** The repository tier's value wins over the org tier's, and that over the configured default, if not too low. */
  lemma NearestPartyValueWins(defaults: PartySettings, star: PartyTier, repo: PartyTier)
    ensures var settings := RepositoryParty(defaults, star, repo);
      && (repo.override.reviewers.Some? ==> settings.reviewers == repo.override.reviewers.value)
      && (repo.override.deadline.Some? ==> settings.deadline == repo.override.deadline.value)
      && (repo.override.reviewers.None? && star.override.reviewers.Some? ==>
            settings.reviewers == star.override.reviewers.value)
      && (repo.override.deadline.None? && star.override.deadline.Some? ==>
            settings.deadline == star.override.deadline.value)
      && (repo.override.reviewers.None? && star.override.reviewers.None? ==>
            settings.reviewers == if defaults.reviewers >= 1 then defaults.reviewers else 1)
      && (repo.override.deadline.None? && star.override.deadline.None? ==>
            settings.deadline ==
            if defaults.deadline >= 900_000_000_000 then defaults.deadline else 3_600_000_000_000)
  {
  }
}
