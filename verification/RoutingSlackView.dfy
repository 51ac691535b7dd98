/** The Slack view of the mappings: entries that set only party keys are gone, and party keys change no routing. */
module RoutingSlackView {
  import opened Optional
  import opened Sorting
  import opened RoutingModel
  import opened RoutingResolve
  import opened RoutingPaths
  import opened RoutingTargets
  import opened RoutingProvider

  // ---------------------------------------------------------------- the transformation

  function SlackRules(rules: seq<PathRule>): seq<PathRule> {
    if rules == [] then []
    else
      var kept, last := SlackRules(rules[..|rules| - 1]), rules[|rules| - 1];
      if last.PartyOnly() then kept else kept + [last]
  }

  function SlackTier(tier: RepoConfig): RepoConfig {
    tier.(paths := SlackRules(tier.paths))
  }

  function SlackOrg(org: Org): Org {
    map name | name in org && !org[name].PartyOnly() :: SlackTier(org[name])
  }

  function SlackView(mappings: Mappings): Mappings {
    map org | org in mappings && SlackOrg(mappings[org]) != map[] :: SlackOrg(mappings[org])
  }

  method SlackPathRules(rules: seq<PathRule>) returns (kept: seq<PathRule>)
    ensures kept == SlackRules(rules)
  {
    kept := [];
    for i := 0 to |rules|
      invariant kept == SlackRules(rules[..i])
    {
      assert rules[..i + 1][..i] == rules[..i];
      if !rules[i].PartyOnly() {
        kept := kept + [rules[i]];
      }
    }
    assert rules[..|rules|] == rules;
  }

  /** The tiers of one organization, in whatever order the map yields them. */
  method SlackTiers(org: Org) returns (slackOrg: Org)
    ensures slackOrg == SlackOrg(org)
  {
    slackOrg := map[];
    var rest := org.Keys;
    while rest != {}
      invariant rest <= org.Keys
      invariant slackOrg == map name | name in org && name !in rest && !org[name].PartyOnly() :: SlackTier(org[name])
    {
      var name :| name in rest;
      rest := rest - {name};
      var tier := org[name];
      if tier.PartyOnly() {
        continue;
      }
      var paths := SlackPathRules(tier.paths);
      slackOrg := slackOrg[name := tier.(paths := paths)];
    }
  }

  method SlackMappings(mappings: Mappings) returns (slackView: Mappings)
    ensures slackView == SlackView(mappings)
  {
    hide SlackOrg;
    slackView := map[];
    var rest := mappings.Keys;
    while rest != {}
      invariant rest <= mappings.Keys
      invariant slackView == map org | org in mappings && org !in rest && SlackOrg(mappings[org]) != map[] :: SlackOrg(mappings[org])
    {
      var org :| org in rest;
      rest := rest - {org};
      var slackOrg := SlackTiers(mappings[org]);
      if slackOrg != map[] {
        slackView := slackView[org := slackOrg];
      }
    }
  }

  method NewProvider(defaults: Defaults, mappings: Mappings, digest: Option<DigestConfig>) returns (p: Provider)
    ensures p == ProviderOf(defaults, mappings, digest)
  {
    var slackView := SlackMappings(mappings);
    p := Provider(defaults, slackView, digest);
  }

  function ProviderOf(defaults: Defaults, mappings: Mappings, digest: Option<DigestConfig>): Provider {
    Provider(defaults, SlackView(mappings), digest)
  }

  // ---------------------------------------------------------------- erasing party keys

  function EraseRules(rules: seq<PathRule>): (erased: seq<PathRule>)
    ensures |erased| == |rules|
    ensures forall i | 0 <= i < |rules| :: erased[i] == rules[i].(party := NO_PARTY)
  {
    seq(|rules|, i requires 0 <= i < |rules| => rules[i].(party := NO_PARTY))
  }

  function EraseTier(tier: RepoConfig): RepoConfig {
    tier.(paths := EraseRules(tier.paths), party := NO_PARTY)
  }

  function EraseMappings(mappings: Mappings): Mappings {
    map org | org in mappings :: map name | name in mappings[org] :: EraseTier(mappings[org][name])
  }

  /** The mappings without any trace of party keys. */
  function WithoutParty(mappings: Mappings): Mappings {
    EraseMappings(SlackView(mappings))
  }

  function EraseOption(tier: Tier): Tier {
    if tier.Some? then Some(EraseTier(tier.value)) else None
  }

  // ---------------------------------------------------------------- idempotence

  lemma {:induction false} SlackRulesElements(rules: seq<PathRule>)
    ensures forall rule :: rule in SlackRules(rules) <==> rule in rules && !rule.PartyOnly()
  {
    if rules != [] {
      assert rules == rules[..|rules| - 1] + [rules[|rules| - 1]];
      SlackRulesElements(rules[..|rules| - 1]);
    }
  }

  /** Nothing is dropped from rules without a party-only one. */
  lemma {:induction false} SlackRulesKeepAll(rules: seq<PathRule>)
    requires forall rule | rule in rules :: !rule.PartyOnly()
    ensures SlackRules(rules) == rules
  {
    if rules != [] {
      assert rules == rules[..|rules| - 1] + [rules[|rules| - 1]];
      SlackRulesKeepAll(rules[..|rules| - 1]);
    }
  }

  /** A kept tier stays kept, with or without its party keys, and loses no further rule. */
  lemma KeptTierIsStable(tier: RepoConfig)
    requires !tier.PartyOnly()
    ensures !SlackTier(tier).PartyOnly() && SlackTier(SlackTier(tier)) == SlackTier(tier)
    ensures !EraseTier(SlackTier(tier)).PartyOnly()
    ensures SlackTier(EraseTier(SlackTier(tier))) == EraseTier(SlackTier(tier))
  {
    SlackRulesElements(tier.paths);
    var kept := SlackRules(tier.paths);
    SlackRulesKeepAll(kept);
    var erased := EraseRules(kept);
    forall rule | rule in erased ensures !rule.PartyOnly() {
      var i :| 0 <= i < |erased| && erased[i] == rule;
    }
    SlackRulesKeepAll(erased);
    KeptTierShowsSlack(tier);
    if !tier.SetsSlackKey() && kept != [] {
      assert kept[0] in kept && erased[0] in erased;
    }
  }

  /** A tier is kept because of a Slack key, of a rule that is not party-only, or because it is empty. */
  lemma KeptTierShowsSlack(tier: RepoConfig)
    requires !tier.PartyOnly()
    ensures tier.SetsSlackKey() || SlackRules(tier.paths) != [] || (tier.paths == [] && !tier.party.IsPartyEntry())
  {
    SlackRulesElements(tier.paths);
    if !tier.SetsSlackKey() && tier.paths != [] {
      var rule :| rule in tier.paths && !rule.PartyOnly();
      assert rule in SlackRules(tier.paths);
    }
  }

  lemma KeptOrgIsStable(org: Org)
    ensures SlackOrg(SlackOrg(org)) == SlackOrg(org)
    ensures var erased := map name | name in SlackOrg(org) :: EraseTier(SlackOrg(org)[name]);
            SlackOrg(erased) == erased
  {
    hide SlackTier, EraseTier;
    forall name | name in SlackOrg(org)
      ensures !SlackOrg(org)[name].PartyOnly() && SlackTier(SlackOrg(org)[name]) == SlackOrg(org)[name]
      ensures !EraseTier(SlackOrg(org)[name]).PartyOnly()
      ensures SlackTier(EraseTier(SlackOrg(org)[name])) == EraseTier(SlackOrg(org)[name])
    {
      KeptTierIsStable(org[name]);
    }
  }

  /** Building the Slack view of a Slack view changes nothing. */
  lemma SlackViewIsIdempotent(mappings: Mappings)
    ensures SlackView(SlackView(mappings)) == SlackView(mappings)
  {
    hide SlackOrg;
    forall org | org in SlackView(mappings) ensures SlackOrg(SlackView(mappings)[org]) == SlackView(mappings)[org] {
      KeptOrgIsStable(mappings[org]);
    }
  }

  /** Erased mappings are their own Slack view. */
  lemma WithoutPartyIsStable(mappings: Mappings)
    ensures SlackView(WithoutParty(mappings)) == WithoutParty(mappings)
  {
    hide SlackOrg;
    var view, erased := SlackView(mappings), WithoutParty(mappings);
    forall org | org in erased ensures SlackOrg(erased[org]) == erased[org] && erased[org] != map[] {
      KeptOrgIsStable(mappings[org]);
      var name :| name in view[org];
      assert name in erased[org];
    }
  }

  // ---------------------------------------------------------------- party keys change no routing

  lemma ErasedLookup(mappings: Mappings, repository: string)
    ensures var (star, repo) := Lookup(mappings, repository);
            Lookup(EraseMappings(mappings), repository) == (EraseOption(star), EraseOption(repo))
  {
  }

  lemma ErasedBase(star: Tier, repo: Tier)
    ensures ResolveBaseTargets(EraseOption(star), EraseOption(repo)) == ResolveBaseTargets(star, repo)
  {
  }

  lemma ErasedBehavior(defaults: Defaults, star: Tier, repo: Tier)
    ensures ResolveBehavior(defaults, EraseOption(star), EraseOption(repo)) == ResolveBehavior(defaults, star, repo)
  {
  }

  lemma {:induction false} ErasedBest(rules: seq<PathRule>, file: string, n: nat)
    requires n <= |rules|
    ensures Best(AllRules, EraseRules(rules), file, n) == Best(AllRules, rules, file, n)
  {
    if n > 0 {
      ErasedBest(rules, file, n - 1);
    }
  }

  lemma ErasedChosen(rules: seq<PathRule>, files: seq<string>, i: nat)
    ensures IsChosen(EraseRules(rules), files, i) <==> IsChosen(rules, files, i)
  {
    hide Best, NormalizeChangedFile;
    forall file ensures Winner(AllRules, EraseRules(rules), file) == Winner(AllRules, rules, file) {
      ErasedBest(rules, file, |rules|);
    }
  }

  lemma {:induction false} ErasedMatched(rules: seq<PathRule>, files: seq<string>, n: nat)
    requires n <= |rules|
    ensures MatchedAmong(EraseRules(rules), files, n) == EraseRules(MatchedAmong(rules, files, n))
  {
    hide IsChosen;
    if n > 0 {
      ErasedMatched(rules, files, n - 1);
      ErasedChosen(rules, files, n - 1);
    }
  }

  lemma {:induction false} ErasedContributions(rules: seq<PathRule>, primary: string)
    ensures Contributions(EraseRules(rules), primary) == Contributions(rules, primary)
  {
    if rules != [] {
      var init, last := rules[..|rules| - 1], rules[|rules| - 1];
      var erased := EraseRules(rules);
      assert erased[..|erased| - 1] == EraseRules(init);
      ErasedContributions(init, primary);
      assert RuleContributions(erased[|erased| - 1], primary) == RuleContributions(last, primary);
    }
  }

  lemma ErasedTargets(star: Tier, repo: Tier, files: seq<string>)
    ensures TargetsFor(EraseOption(star), EraseOption(repo), files) == TargetsFor(star, repo, files)
  {
    ErasedBase(star, repo);
    hide ResolveBaseTargets, Grouped, Contributions, MatchedAmong;
    if repo.Some? {
      var rules := repo.value.paths;
      ErasedMatched(rules, files, |rules|);
      ErasedContributions(Matched(rules, files), ResolveBaseTargets(star, repo)[0].channel);
    }
  }

  lemma ErasedPathChannels(rules: seq<PathRule>)
    ensures PathChannelSet(EraseRules(rules)) == PathChannelSet(rules)
  {
  }

  lemma ErasedAdditional(star: Tier, repo: Tier)
    ensures AdditionalChannels(EraseOption(star), EraseOption(repo)) == AdditionalChannels(star, repo)
  {
    ErasedBase(star, repo);
    hide ResolveBaseTargets, PathChannelSet, SortedNames;
    if repo.Some? {
      ErasedPathChannels(repo.value.paths);
    }
  }

  function ErasedProvider(p: Provider): Provider {
    p.(mappings := EraseMappings(p.mappings))
  }

  lemma ErasedEntry(p: Provider, org: string, star: Tier, name: string, tier: RepoConfig)
    ensures NamedEntry(ErasedProvider(p), org, EraseOption(star), name, EraseTier(tier)) == NamedEntry(p, org, star, name, tier)
    ensures star.Some? ==> WildcardEntry(ErasedProvider(p), org, EraseTier(star.value)) == WildcardEntry(p, org, star.value)
  {
    ErasedBase(star, Some(tier));
    ErasedBehavior(p.defaults, star, Some(tier));
    ErasedAdditional(star, Some(tier));
    ErasedBase(star, None);
    ErasedBehavior(p.defaults, star, None);
    ErasedAdditional(star, None);
  }

  lemma {:induction false} ErasedNamedEntries(p: Provider, org: string, names: seq<string>)
    requires org in p.mappings && forall name | name in names :: name in p.mappings[org]
    ensures NamedEntries(ErasedProvider(p), org, names) == NamedEntries(p, org, names)
  {
    hide NamedEntry, EraseTier;
    if names != [] {
      var init, last := names[..|names| - 1], names[|names| - 1];
      ErasedNamedEntries(p, org, init);
      ErasedEntry(p, org, TierIn(p.mappings[org], WILDCARD), last, p.mappings[org][last]);
    }
  }

  lemma ErasedOrgEntries(p: Provider, org: string)
    requires org in p.mappings
    ensures OrgEntries(ErasedProvider(p), org) == OrgEntries(p, org)
  {
    hide NamedEntry, WildcardEntry, EraseTier, SortedNames, NamedEntries;
    var o := p.mappings[org];
    assert ErasedProvider(p).mappings[org].Keys == o.Keys;
    ErasedNamedEntries(p, org, SortedNames(o.Keys - {WILDCARD}));
    if WILDCARD in o {
      ErasedEntry(p, org, Some(o[WILDCARD]), WILDCARD, o[WILDCARD]);
    }
  }

  lemma {:induction false} ErasedEntriesOf(p: Provider, orgs: seq<string>)
    requires forall org | org in orgs :: org in p.mappings
    ensures EntriesOf(ErasedProvider(p), orgs) == EntriesOf(p, orgs)
  {
    hide OrgEntries;
    if orgs != [] {
      ErasedEntriesOf(p, orgs[..|orgs| - 1]);
      ErasedOrgEntries(p, orgs[|orgs| - 1]);
    }
  }

  lemma ErasedAllEntries(p: Provider)
    ensures AllEntries(ErasedProvider(p)) == AllEntries(p)
  {
    hide SortedNames, EntriesOf;
    assert ErasedProvider(p).mappings.Keys == p.mappings.Keys;
    ErasedEntriesOf(p, SortedNames(p.mappings.Keys));
  }

  lemma ErasedDigest(p: Provider, repository: string)
    ensures DigestFor(ErasedProvider(p), repository) == DigestFor(p, repository)
  {
    hide Lookup, EraseMappings, WithSchedule;
    ErasedLookup(p.mappings, repository);
  }

  lemma ErasedGet(p: Provider, repository: string)
    ensures Get(ErasedProvider(p), repository) == Get(p, repository)
  {
    hide Lookup, EraseMappings, ResolveBaseTargets, ResolveBehavior;
    ErasedLookup(p.mappings, repository);
    var (star, repo) := Lookup(p.mappings, repository);
    ErasedBase(star, repo);
    ErasedBehavior(p.defaults, star, repo);
  }

  lemma ErasedRouting(p: Provider, repository: string, files: seq<string>)
    ensures BaseTargets(ErasedProvider(p), repository) == BaseTargets(p, repository)
    ensures TargetsForRepository(ErasedProvider(p), repository, files) == TargetsForRepository(p, repository, files)
    ensures AdditionalChannelsOf(ErasedProvider(p), repository) == AdditionalChannelsOf(p, repository)
    ensures RepoHasPathRules(ErasedProvider(p), repository) <==> RepoHasPathRules(p, repository)
  {
    hide Lookup, EraseMappings, ResolveBaseTargets, TargetsFor, AdditionalChannels;
    ErasedLookup(p.mappings, repository);
    var (star, repo) := Lookup(p.mappings, repository);
    ErasedBase(star, repo);
    ErasedTargets(star, repo, files);
    ErasedAdditional(star, repo);
  }

  /**
   Party keys never change Slack routing: dropping every party-only tier and rule and clearing all
   other party keys leaves every answer of the provider as it was, for all mappings, repositories and files.
   */
  lemma PartyKeysNeverChangeRouting(defaults: Defaults, mappings: Mappings, digest: Option<DigestConfig>,
                                    repository: string, files: seq<string>)
    ensures var p, q := ProviderOf(defaults, mappings, digest), ProviderOf(defaults, WithoutParty(mappings), digest);
      && Get(p, repository) == Get(q, repository)
      && BaseTargets(p, repository) == BaseTargets(q, repository)
      && TargetsForRepository(p, repository, files) == TargetsForRepository(q, repository, files)
      && AdditionalChannelsOf(p, repository) == AdditionalChannelsOf(q, repository)
      && (RepoHasPathRules(p, repository) <==> RepoHasPathRules(q, repository))
      && AllEntries(p) == AllEntries(q)
      && DigestFor(p, repository) == DigestFor(q, repository)
  {
    hide Get, BaseTargets, TargetsForRepository, AdditionalChannelsOf, RepoHasPathRules, AllEntries, DigestFor;
    var p, q := ProviderOf(defaults, mappings, digest), ProviderOf(defaults, WithoutParty(mappings), digest);
    WithoutPartyIsStable(mappings);
    assert q == ErasedProvider(p);
    ErasedGet(p, repository);
    ErasedRouting(p, repository, files);
    ErasedAllEntries(p);
    ErasedDigest(p, repository);
  }

  // ---------------------------------------------------------------- what the view keeps

  /** A rule without any announcement key, but with something for the party. */
  ghost predicate SpeaksOnlyOfParty(rule: PathRule) {
    && rule.channel == "" && rule.channels == [] && !rule.mentionsPresent
    && (rule.party.reviewers.Some? || rule.party.deadline.Some? || rule.party.declared)
  }

  /** One of the keys that announcements, digests or reactions read. */
  ghost predicate HasAnnouncementKey(tier: RepoConfig) {
    || tier.channel != "" || tier.channels != [] || tier.mentionsPresent
    || tier.reactions.Some? || tier.ignoreAIReviews.Some? || tier.dependabotFormat.Some?
    || tier.deleteOnClose.Some? || tier.digest.Some? || tier.notifications.Some?
  }

  /**
   A tier disappears from the view exactly when it has no announcement key, only rules that speak of the party, and
   something for the party or some rule; of a tier that stays exactly those rules disappear.
   */
  lemma ViewKeeps(mappings: Mappings, org: string, name: string)
    requires org in mappings && name in mappings[org]
    ensures var tier := mappings[org][name];
      && (org in SlackView(mappings) && name in SlackView(mappings)[org]) ==
         (|| HasAnnouncementKey(tier)
          || (exists rule :: rule in tier.paths && !SpeaksOnlyOfParty(rule))
          || (tier.paths == [] && tier.party.reviewers.None? && tier.party.deadline.None? && !tier.party.declared))
      && (org in SlackView(mappings) && name in SlackView(mappings)[org] ==>
            var kept := SlackView(mappings)[org][name];
            && kept == tier.(paths := kept.paths)
            && forall rule :: rule in kept.paths <==> rule in tier.paths && !SpeaksOnlyOfParty(rule))
  {
    var tier := mappings[org][name];
    forall rule: PathRule ensures rule.PartyOnly() <==> SpeaksOnlyOfParty(rule) {
    }
    SlackRulesElements(tier.paths);
    hide SlackRules;
    if name in SlackOrg(mappings[org]) {
      assert SlackOrg(mappings[org]) != map[];
    }
  }
}
