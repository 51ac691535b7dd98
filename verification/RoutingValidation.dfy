/** Validating the mappings, and why accepted mappings always route to well-formed channels. */
module RoutingValidation {
  import opened Optional
  import opened Sorting
  import opened RoutingModel
  import opened RoutingResolve
  import opened RoutingPaths
  import opened RoutingTargets
  import opened RoutingProvider
  import opened RoutingSlackView

  datatype MappingError =
    | InvalidOrgName(org: string)
    | EmptyOrg(org: string)
    | WildcardRoutesNothing(org: string)
    | InvalidRepoKey(org: string, repo: string)
    | InvalidChannel(org: string, repo: string, channel: string)
    | PartyOnlyUnrouted(org: string, repo: string)
    | NoChannel(org: string, repo: string)
    | PathsOnWildcard(org: string)
    | InvalidPathChannel(org: string, repo: string, dir: string, channel: string)

  predicate IsNameChar(c: char) {
    'A' <= c <= 'Z' || 'a' <= c <= 'z' || '0' <= c <= '9' || c == '_' || c == '.' || c == '-'
  }

  predicate IsName(s: string) {
    s != "" && forall i | 0 <= i < |s| :: IsNameChar(s[i])
  }

  /** A single channel or a list of channels is set. */
  predicate TierHasChannel(tier: Tier) {
    tier.Some? && (tier.value.channel != "" || tier.value.channels != [])
  }

  predicate HasRoutedNamedTier(org: Org) {
    exists repo | repo in org :: repo != WILDCARD && !org[repo].PartyOnly()
  }

  predicate ValidSpecs(specs: seq<ChannelSpec>) {
    forall spec | spec in specs :: IsChannelID(spec.channel)
  }

  predicate ValidRules(repo: string, rules: seq<PathRule>) {
    && (rules != [] ==> repo != WILDCARD)
    && forall rule | rule in rules :: (rule.channel == "" || IsChannelID(rule.channel)) && ValidSpecs(rule.channels)
  }

  predicate ValidTier(org: Org, repo: string)
    requires repo in org
  {
    var tier := org[repo];
    && (repo != WILDCARD ==> IsName(repo))
    && (tier.channel == "" || IsChannelID(tier.channel))
    && ValidSpecs(tier.channels)
    && (if tier.PartyOnly() then repo != WILDCARD ==> TierHasChannel(TierIn(org, WILDCARD))
        else TierHasChannel(Some(tier)) || TierHasChannel(TierIn(org, WILDCARD)))
    && ValidRules(repo, tier.paths)
  }

  predicate ValidOrg(name: string, org: Org) {
    && IsName(name) && org != map[]
    && (WILDCARD in org && org[WILDCARD].PartyOnly() ==> HasRoutedNamedTier(org))
    && forall repo | repo in org :: ValidTier(org, repo)
  }

  predicate Accepts(mappings: Mappings) {
    forall org | org in mappings :: ValidOrg(org, mappings[org])
  }

  // ---------------------------------------------------------------- what an error says

  predicate NamesSpec(specs: seq<ChannelSpec>, channel: string) {
    exists spec | spec in specs :: spec.channel == channel
  }

  /** The malformed channel is set here, in either form. */
  predicate IsBadChannel(own: string, specs: seq<ChannelSpec>, channel: string) {
    !IsChannelID(channel) && ((own != "" && channel == own) || NamesSpec(specs, channel))
  }

  predicate BreaksRules(repo: string, rules: seq<PathRule>, org: string, e: MappingError) {
    match e
    case PathsOnWildcard(o) => o == org && repo == WILDCARD && rules != []
    case InvalidPathChannel(o, r, dir, channel) =>
      && o == org && r == repo
      && exists rule | rule in rules :: rule.dir == dir && IsBadChannel(rule.channel, rule.channels, channel)
    case _ => false
  }

  predicate BreaksTier(name: string, org: Org, repo: string, e: MappingError)
    requires repo in org
  {
    var tier, starHasChannel := org[repo], TierHasChannel(TierIn(org, WILDCARD));
    match e
    case InvalidRepoKey(o, r) => o == name && r == repo && repo != WILDCARD && !IsName(repo)
    case InvalidChannel(o, r, channel) => o == name && r == repo && IsBadChannel(tier.channel, tier.channels, channel)
    case PartyOnlyUnrouted(o, r) => o == name && r == repo && tier.PartyOnly() && repo != WILDCARD && !starHasChannel
    case NoChannel(o, r) => o == name && r == repo && !tier.PartyOnly() && !TierHasChannel(Some(tier)) && !starHasChannel
    case _ => BreaksRules(repo, tier.paths, name, e)
  }

  /** The error names a violation that is really there. */
  predicate BreaksOrg(name: string, org: Org, e: MappingError) {
    match e
    case InvalidOrgName(o) => o == name && !IsName(name)
    case EmptyOrg(o) => o == name && org == map[]
    case WildcardRoutesNothing(o) => o == name && WILDCARD in org && org[WILDCARD].PartyOnly() && !HasRoutedNamedTier(org)
    case _ => exists repo | repo in org :: BreaksTier(name, org, repo, e)
  }

  lemma TierErrorBreaksOrg(name: string, org: Org, repo: string, e: MappingError)
    requires repo in org && BreaksTier(name, org, repo, e)
    ensures BreaksOrg(name, org, e)
  {
  }

  predicate Breaks(mappings: Mappings, e: MappingError) {
    exists org | org in mappings :: BreaksOrg(org, mappings[org], e)
  }

  // ---------------------------------------------------------------- the validator

  method FindRoutedNamedTier(org: Org) returns (found: bool)
    ensures found <==> HasRoutedNamedTier(org)
  {
    var rest := org.Keys;
    while rest != {}
      invariant rest <= org.Keys
      invariant forall repo | repo in org && repo !in rest :: repo == WILDCARD || org[repo].PartyOnly()
    {
      var repo :| repo in rest;
      rest := rest - {repo};
      if repo != WILDCARD && !org[repo].PartyOnly() {
        return true;
      }
    }
    found := false;
  }

  /** The first channel of the list that is not a channel id. */
  method FindInvalidSpec(specs: seq<ChannelSpec>) returns (invalid: Option<string>)
    ensures invalid.None? <==> ValidSpecs(specs)
    ensures invalid.Some? ==> !IsChannelID(invalid.value) && NamesSpec(specs, invalid.value)
  {
    for i := 0 to |specs|
      invariant ValidSpecs(specs[..i])
    {
      assert specs[..i + 1] == specs[..i] + [specs[i]];
      if !IsChannelID(specs[i].channel) {
        return Some(specs[i].channel);
      }
    }
    assert specs[..|specs|] == specs;
    invalid := None;
  }

  method ValidatePaths(org: string, repo: string, rules: seq<PathRule>) returns (error: Option<MappingError>)
    ensures error.None? <==> ValidRules(repo, rules)
    ensures error.Some? ==> BreaksRules(repo, rules, org, error.value)
  {
    if rules == [] {
      return None;
    }
    if repo == WILDCARD {
      return Some(PathsOnWildcard(org));
    }
    for i := 0 to |rules|
      invariant ValidRules(repo, rules[..i])
    {
      var rule := rules[i];
      assert rules[..i + 1] == rules[..i] + [rule] && rule in rules;
      if rule.channel != "" && !IsChannelID(rule.channel) {
        return Some(InvalidPathChannel(org, repo, rule.dir, rule.channel));
      }
      var invalid := FindInvalidSpec(rule.channels);
      if invalid.Some? {
        return Some(InvalidPathChannel(org, repo, rule.dir, invalid.value));
      }
    }
    assert rules[..|rules|] == rules;
    error := None;
  }

  method ValidateTier(name: string, org: Org, repo: string) returns (error: Option<MappingError>)
    requires repo in org
    ensures error.None? <==> ValidTier(org, repo)
    ensures error.Some? ==> BreaksTier(name, org, repo, error.value)
  {
    var tier := org[repo];
    var starHasChannel := TierHasChannel(TierIn(org, WILDCARD));
    if repo != WILDCARD && !IsName(repo) {
      return Some(InvalidRepoKey(name, repo));
    }
    if tier.channel != "" && !IsChannelID(tier.channel) {
      return Some(InvalidChannel(name, repo, tier.channel));
    }
    var invalid := FindInvalidSpec(tier.channels);
    if invalid.Some? {
      return Some(InvalidChannel(name, repo, invalid.value));
    }
    if tier.PartyOnly() {
      if repo != WILDCARD && !starHasChannel {
        return Some(PartyOnlyUnrouted(name, repo));
      }
    } else if !TierHasChannel(Some(tier)) && !starHasChannel {
      return Some(NoChannel(name, repo));
    }
    error := ValidatePaths(name, repo, tier.paths);
  }

  method ValidateOrg(name: string, org: Org) returns (error: Option<MappingError>)
    ensures error.None? <==> ValidOrg(name, org)
    ensures error.Some? ==> BreaksOrg(name, org, error.value)
  {
    hide ValidTier, BreaksTier;
    if !IsName(name) {
      return Some(InvalidOrgName(name));
    }
    if org == map[] {
      return Some(EmptyOrg(name));
    }
    if WILDCARD in org && org[WILDCARD].PartyOnly() {
      var routed := FindRoutedNamedTier(org);
      if !routed {
        return Some(WildcardRoutesNothing(name));
      }
    }
    var rest := org.Keys;
    while rest != {}
      invariant rest <= org.Keys
      invariant forall repo | repo in org && repo !in rest :: ValidTier(org, repo)
    {
      var repo :| repo in rest;
      rest := rest - {repo};
      error := ValidateTier(name, org, repo);
      if error.Some? {
        TierErrorBreaksOrg(name, org, repo, error.value);
        return;
      }
    }
    error := None;
  }

  /** Accepts exactly the valid mappings, and an error names a real violation, in whatever order the maps yield their keys. */
  method ValidateMappings(mappings: Mappings) returns (error: Option<MappingError>)
    ensures error.None? <==> Accepts(mappings)
    ensures error.Some? ==> Breaks(mappings, error.value)
  {
    hide ValidOrg, BreaksOrg;
    var rest := mappings.Keys;
    while rest != {}
      invariant rest <= mappings.Keys
      invariant forall org | org in mappings && org !in rest :: ValidOrg(org, mappings[org])
    {
      var org :| org in rest;
      rest := rest - {org};
      error := ValidateOrg(org, mappings[org]);
      if error.Some? {
        return;
      }
    }
    error := None;
  }

  // ---------------------------------------------------------------- soundness

  ghost predicate WellFormedTargets(targets: seq<Target>) {
    forall target | target in targets :: IsChannelID(target.channel)
  }

  /** What validation leaves of a routed tier: ids wherever channels are set. */
  ghost predicate WellFormedTier(tier: Tier) {
    tier.Some? ==>
      && (tier.value.channel == "" || IsChannelID(tier.value.channel))
      && ValidSpecs(tier.value.channels)
      && forall rule | rule in tier.value.paths ::
           (rule.channel == "" || IsChannelID(rule.channel)) && ValidSpecs(rule.channels)
  }

  /** In accepted mappings the tiers a repository resolves to hold channel ids, and one of them sets a channel. */
  lemma AcceptedTiers(mappings: Mappings, repository: string)
    requires Accepts(mappings)
    ensures var (star, repo) := Lookup(SlackView(mappings), repository);
      && WellFormedTier(star) && WellFormedTier(repo)
      && (star.Some? || repo.Some? ==> TierHasChannel(star) || TierHasChannel(repo))
  {
    if SplitRepo(repository).Some? {
      var (org, name) := SplitRepo(repository).value;
      if org in SlackView(mappings) {
        AcceptedTier(mappings[org], org, WILDCARD);
        AcceptedTier(mappings[org], org, name);
      }
    }
  }

  lemma AcceptedTier(org: Org, name: string, repo: string)
    requires ValidOrg(name, org)
    ensures WellFormedTier(TierIn(SlackOrg(org), repo))
    ensures repo in SlackOrg(org) ==>
      TierHasChannel(TierIn(SlackOrg(org), repo)) || TierHasChannel(TierIn(SlackOrg(org), WILDCARD))
  {
    if repo in SlackOrg(org) {
      assert ValidTier(org, repo);
      SlackRulesElements(org[repo].paths);
    }
  }

  lemma WellFormedList(specs: seq<ChannelSpec>)
    requires ValidSpecs(specs)
    ensures WellFormedTargets(ListTargets(specs))
  {
    forall target | target in ListTargets(specs) ensures IsChannelID(target.channel) {
      var i :| 0 <= i < |specs| && ListTargets(specs)[i] == target;
      ListTargetsAt(specs, i);
      assert specs[i] in specs;
    }
  }

  lemma WellFormedBase(star: Tier, repo: Tier)
    requires WellFormedTier(star) && WellFormedTier(repo)
    requires TierHasChannel(star) || TierHasChannel(repo)
    ensures WellFormedTargets(ResolveBaseTargets(star, repo))
  {
    hide ListTargets, IsChannelID;
    if repo.Some? {
      WellFormedList(repo.value.channels);
    }
    if star.Some? {
      WellFormedList(star.value.channels);
    }
  }

  lemma WellFormedForFiles(star: Tier, repo: Tier, files: seq<string>)
    requires WellFormedTier(star) && WellFormedTier(repo)
    requires TierHasChannel(star) || TierHasChannel(repo)
    ensures WellFormedTargets(TargetsFor(star, repo, files))
  {
    hide TargetsFor, ResolveBaseTargets;
    WellFormedBase(star, repo);
    var base := ResolveBaseTargets(star, repo);
    assert base[0] in base;
    forall target | target in TargetsFor(star, repo, files) ensures IsChannelID(target.channel) {
      TargetFromBaseOrRule(star, repo, files, target.channel);
    }
  }

  /**
   Validation is sound: over accepted mappings every repository that resolves is announced, for any
   changed files, only in well-formed, non-empty channels.
   */
  lemma AcceptedMappingsRoute(defaults: Defaults, mappings: Mappings, digest: Option<DigestConfig>,
                              repository: string, files: seq<string>)
    requires Accepts(mappings)
    requires Get(ProviderOf(defaults, mappings, digest), repository).Some?
    ensures var p := ProviderOf(defaults, mappings, digest);
      && IsChannelID(Get(p, repository).value.slackChannel)
      && WellFormedTargets(BaseTargets(p, repository))
      && WellFormedTargets(TargetsForRepository(p, repository, files))
  {
    AcceptedTiers(mappings, repository);
    hide Accepts, Lookup, SlackView, WellFormedTier, TierHasChannel, ResolveBaseTargets, TargetsFor, ResolveBehavior;
    var p := ProviderOf(defaults, mappings, digest);
    var (star, repo) := Lookup(p.mappings, repository);
    WellFormedBase(star, repo);
    WellFormedForFiles(star, repo, files);
    assert ResolveBaseTargets(star, repo)[0] in ResolveBaseTargets(star, repo);
  }

  // ---------------------------------------------------------------- what is accepted

  /** Mappings are accepted exactly when none of the named violations is in them. */
  lemma AcceptedWhenNothingBreaks(mappings: Mappings)
    ensures Accepts(mappings) <==> forall e :: !Breaks(mappings, e)
  {
    hide ValidOrg, BreaksOrg;
    forall org | org in mappings ensures ValidOrg(org, mappings[org]) <==> forall e :: !BreaksOrg(org, mappings[org], e) {
      ValidOrgWhenNothingBreaks(org, mappings[org]);
    }
    if !Accepts(mappings) {
      var org :| org in mappings && !ValidOrg(org, mappings[org]);
      var e :| BreaksOrg(org, mappings[org], e);
      assert Breaks(mappings, e);
    }
  }

  lemma ValidOrgWhenNothingBreaks(name: string, org: Org)
    ensures ValidOrg(name, org) <==> forall e :: !BreaksOrg(name, org, e)
  {
    hide ValidTier, BreaksTier;
    if org == map[] {
      assert BreaksOrg(name, org, EmptyOrg(name));
    } else if !IsName(name) {
      assert BreaksOrg(name, org, InvalidOrgName(name));
    } else if WILDCARD in org && org[WILDCARD].PartyOnly() && !HasRoutedNamedTier(org) {
      assert BreaksOrg(name, org, WildcardRoutesNothing(name));
    } else if repo :| repo in org && !ValidTier(org, repo) {
      var e := BrokenTier(name, org, repo);
      TierErrorBreaksOrg(name, org, repo, e);
    } else {
      forall repo, e | repo in org ensures !BreaksTier(name, org, repo, e) {
        ValidTierBreaksNothing(name, org, repo, e);
      }
    }
  }

  lemma BrokenTier(name: string, org: Org, repo: string) returns (e: MappingError)
    requires repo in org && !ValidTier(org, repo)
    ensures BreaksTier(name, org, repo, e)
  {
    var tier := org[repo];
    if repo != WILDCARD && !IsName(repo) {
      e := InvalidRepoKey(name, repo);
    } else if tier.channel != "" && !IsChannelID(tier.channel) {
      e := InvalidChannel(name, repo, tier.channel);
    } else if spec :| spec in tier.channels && !IsChannelID(spec.channel) {
      e := InvalidChannel(name, repo, spec.channel);
    } else if !ValidRules(repo, tier.paths) {
      e := BrokenRules(name, repo, tier.paths);
    } else {
      e := if tier.PartyOnly() then PartyOnlyUnrouted(name, repo) else NoChannel(name, repo);
    }
  }

  lemma BrokenRules(name: string, repo: string, rules: seq<PathRule>) returns (e: MappingError)
    requires !ValidRules(repo, rules)
    ensures BreaksRules(repo, rules, name, e)
  {
    if rules != [] && repo == WILDCARD {
      e := PathsOnWildcard(name);
    } else {
      var rule :| rule in rules && !((rule.channel == "" || IsChannelID(rule.channel)) && ValidSpecs(rule.channels));
      if rule.channel != "" && !IsChannelID(rule.channel) {
        e := InvalidPathChannel(name, repo, rule.dir, rule.channel);
      } else {
        var spec :| spec in rule.channels && !IsChannelID(spec.channel);
        e := InvalidPathChannel(name, repo, rule.dir, spec.channel);
      }
    }
  }

  lemma ValidTierBreaksNothing(name: string, org: Org, repo: string, e: MappingError)
    requires repo in org && ValidTier(org, repo)
    ensures !BreaksTier(name, org, repo, e)
  {
  }

  ghost predicate WellFormedOrg(org: Org) {
    forall repo | repo in org ::
      && (if repo == "*" then org[repo].paths == [] else IsName(repo))
      && WellFormedTier(Some(org[repo]))
  }

  /** Every tier resolves to a channel, of its own or of the "*" tier; a "*" tier that only speaks of the party need not. */
  ghost predicate EveryTierRoutes(org: Org) {
    forall repo | repo in org ::
      (repo == "*" && org[repo].PartyOnly()) || ResolveBaseTargets(TierIn(org, "*"), Some(org[repo]))[0].channel != ""
  }

  lemma RoutesByChannel(star: Tier, repo: Tier)
    requires WellFormedTier(star) && WellFormedTier(repo)
    ensures ResolveBaseTargets(star, repo)[0].channel != "" <==> TierHasChannel(star) || TierHasChannel(repo)
  {
    if TierHasChannel(star) || TierHasChannel(repo) {
      WellFormedBase(star, repo);
      assert ResolveBaseTargets(star, repo)[0] in ResolveBaseTargets(star, repo);
    }
  }

  /**
   Validation rejects nothing that routes: an organization is accepted exactly when it has a name, its tiers are well
   formed, something of it is left in the Slack view and every tier resolves to a channel.
   */
  lemma ValidWhenEveryTierRoutes(name: string, org: Org)
    ensures ValidOrg(name, org) <==> IsName(name) && SlackOrg(org) != map[] && WellFormedOrg(org) && EveryTierRoutes(org)
  {
    hide ResolveBaseTargets, IsName, SlackTier, IsChannelID;
    assert SlackOrg(org) != map[] <==> exists repo :: repo in org && !org[repo].PartyOnly() by {
      if repo :| repo in org && !org[repo].PartyOnly() {
        assert repo in SlackOrg(org);
      }
      if SlackOrg(org) != map[] {
        var repo :| repo in SlackOrg(org);
      }
    }
    if WellFormedOrg(org) {
      forall repo | repo in org
        ensures ResolveBaseTargets(TierIn(org, "*"), Some(org[repo]))[0].channel != ""
                <==> TierHasChannel(TierIn(org, "*")) || TierHasChannel(Some(org[repo]))
      {
        RoutesByChannel(TierIn(org, "*"), Some(org[repo]));
      }
    }
    if ValidOrg(name, org) {
      var repo :| repo in org;
      assert ValidTier(org, repo);
    }
  }

  /** Accepted mappings have no path rules on "*", and a named tier that only speaks of the party relies on a "*" channel. */
  lemma AcceptedWildcards(mappings: Mappings, org: string, repo: string)
    requires Accepts(mappings) && org in mappings && repo in mappings[org]
    ensures repo == "*" ==> mappings[org][repo].paths == []
    ensures repo != "*" && mappings[org][repo].PartyOnly() ==>
      "*" in mappings[org] && (mappings[org]["*"].channel != "" || mappings[org]["*"].channels != [])
  {
    hide IsChannelID, IsName;
    assert ValidOrg(org, mappings[org]) && ValidTier(mappings[org], repo);
  }

  /** Every named repository of accepted mappings can be looked up by its organization and name. */
  lemma AcceptedNamesResolve(mappings: Mappings, org: string, repo: string)
    requires Accepts(mappings) && org in mappings && repo in mappings[org]
    ensures SplitRepo(org + "/" + repo) == Some((org, repo))
  {
    assert ValidOrg(org, mappings[org]) && ValidTier(mappings[org], repo);
    assert '/' !in org;
    SplitOfJoin(org, repo);
  }

  /** Names are made of these characters alone. */
  lemma NameCharacters(c: char)
    ensures IsName([c]) <==>
            || c in "ABCDEFGHIJKLMNOPQRSTUVWXYZ" || c in "abcdefghijklmnopqrstuvwxyz" || c in "0123456789" || c in "_.-"
  {
    assert IsName([c]) <==> IsNameChar([c][0]);
    UpperCase(c);
    LowerCase(c);
    Digit(c);
    hide IsName;
  }

  lemma NamesByCharacter(s: string)
    ensures IsName(s) <==> s != "" && forall c | c in s :: IsName([c])
  {
    forall c ensures IsName([c]) <==> IsNameChar(c) {
      assert IsName([c]) <==> IsNameChar([c][0]);
    }
  }
}
