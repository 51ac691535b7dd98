/** Lookups, entries and digest schedules over the Slack view of the mappings. */
module RoutingProvider {
  import opened Optional
  import opened Sorting
  import opened RoutingModel
  import opened RoutingResolve
  import opened RoutingPaths
  import opened RoutingTargets

  const DEFAULT_DIGEST_SCHEDULE := "0 9 * * *"

  /** mappings is what routing sees: the party-only entries are gone. */
  datatype Provider = Provider(defaults: Defaults, mappings: Mappings, digest: Option<DigestConfig>)

  // ---------------------------------------------------------------- names

  /** The part before the first slash and the rest; None when either is empty. */
  function SplitRepo(s: string): Option<(string, string)> {
    var i := IndexOfSlash(s);
    if i < 1 || i == |s| - 1 then None else Some((s[..i], s[i + 1..]))
  }

  /** The index of the first slash, or -1. */
  function IndexOfSlash(s: string): (i: int)
    ensures -1 <= i < |s|
  {
    if s == "" then -1
    else if s[0] == '/' then 0
    else
      var i := IndexOfSlash(s[1..]);
      if i < 0 then -1 else i + 1
  }

  lemma {:induction false} SlashAfter(org: string, rest: string)
    requires '/' !in org
    ensures IndexOfSlash(org + "/" + rest) == |org|
  {
    if org != "" {
      assert (org + "/" + rest)[1..] == org[1..] + "/" + rest;
      SlashAfter(org[1..], rest);
    } else {
      assert (org + "/" + rest)[0] == '/';
    }
  }

  lemma {:induction false} NoSlashBefore(s: string)
    ensures var i := IndexOfSlash(s);
      && (i >= 0 ==> s[i] == '/' && '/' !in s[..i])
      && (i < 0 ==> '/' !in s)
  {
    if s != "" && s[0] != '/' {
      NoSlashBefore(s[1..]);
      assert s == [s[0]] + s[1..];
      var i := IndexOfSlash(s);
      assert i > 0 ==> s[..i] == [s[0]] + s[1..][..i - 1];
    }
  }

  /** Splitting undoes joining an organization and a repository name. */
  lemma SplitOfJoin(org: string, repo: string)
    requires org != "" && '/' !in org && repo != ""
    ensures SplitRepo(org + "/" + repo) == Some((org, repo))
  {
    SlashAfter(org, repo);
    var s := org + "/" + repo;
    assert s[..|org|] == org && s[|org| + 1..] == repo;
  }

  /** Joining undoes splitting. */
  lemma JoinOfSplit(s: string)
    requires SplitRepo(s).Some?
    ensures var (org, repo) := SplitRepo(s).value;
            s == org + "/" + repo && org != "" && '/' !in org && repo != ""
  {
    NoSlashBefore(s);
    var i := IndexOfSlash(s);
    assert s == s[..i] + [s[i]] + s[i + 1..];
  }

  // ---------------------------------------------------------------- lookups

  function TierIn(org: Org, name: string): Tier {
    if name in org then Some(org[name]) else None
  }

  /** The org tier and the repository tier, either of which may be absent. */
  function Lookup(mappings: Mappings, repository: string): (Tier, Tier) {
    match SplitRepo(repository)
    case None => (None, None)
    case Some((org, name)) =>
      if org !in mappings then (None, None)
      else (TierIn(mappings[org], WILDCARD), TierIn(mappings[org], name))
  }

  datatype RepoMapping = RepoMapping(repository: string, slackChannel: string, mentions: seq<string>, behavior: Behavior)

  /** None when no tier matches. */
  function Get(p: Provider, repository: string): Option<RepoMapping> {
    var (star, repo) := Lookup(p.mappings, repository);
    if star.None? && repo.None? then None
    else
      var target := ResolveRouting(star, repo);
      Some(RepoMapping(repository, target.channel, target.mentions, ResolveBehavior(p.defaults, star, repo)))
  }

  function BaseTargets(p: Provider, repository: string): seq<Target> {
    var (star, repo) := Lookup(p.mappings, repository);
    ResolveBaseTargets(star, repo)
  }

  function TargetsForRepository(p: Provider, repository: string, files: seq<string>): seq<Target> {
    var (star, repo) := Lookup(p.mappings, repository);
    TargetsFor(star, repo, files)
  }

  function AdditionalChannelsOf(p: Provider, repository: string): seq<string> {
    var (star, repo) := Lookup(p.mappings, repository);
    AdditionalChannels(star, repo)
  }

  predicate RepoHasPathRules(p: Provider, repository: string) {
    var (_, repo) := Lookup(p.mappings, repository);
    repo.Some? && repo.value.paths != []
  }

  // ---------------------------------------------------------------- digests

  function WithSchedule(digest: DigestConfig, schedule: string): DigestConfig {
    if TrimSpace(schedule) != "" then digest.(schedule := TrimSpace(schedule)) else digest
  }

  function GlobalDigest(p: Provider): DigestConfig {
    var base := DigestConfig(false, DEFAULT_DIGEST_SCHEDULE, "", "");
    if p.digest.None? then base
    else
      WithSchedule(base, p.digest.value.schedule)
      .(enabled := p.digest.value.enabled, timezone := p.digest.value.timezone, country := p.digest.value.country)
  }

  function ApplyDigest(digest: DigestConfig, tier: Tier): DigestConfig {
    if tier.Some? && tier.value.digest.Some?
    then WithSchedule(digest.(enabled := tier.value.digest.value.enabled), tier.value.digest.value.schedule)
    else digest
  }

  /** The global digest, overridden by the org tier and that by the repository tier. */
  function DigestFor(p: Provider, repository: string): DigestConfig {
    var (star, repo) := Lookup(p.mappings, repository);
    ApplyDigest(ApplyDigest(GlobalDigest(p), star), repo)
  }

  // ---------------------------------------------------------------- entries

  datatype Entry = Entry(
    org: string,
    repo: string,
    wildcard: bool,
    channel: string,
    mentions: seq<string>,
    extraChannels: seq<string>,
    gitProvider: string,
    deleteOnClose: bool)
  {
    function Key(): string {
      org + "/" + if wildcard then WILDCARD else repo
    }
  }

  function NamedEntry(p: Provider, org: string, star: Tier, name: string, tier: RepoConfig): Entry {
    var target := ResolveRouting(star, Some(tier));
    Entry(org, name, false, target.channel, target.mentions, AdditionalChannels(star, Some(tier)),
          p.defaults.gitProvider, ResolveBehavior(p.defaults, star, Some(tier)).deleteOnClose)
  }

  function WildcardEntry(p: Provider, org: string, star: RepoConfig): Entry {
    var target := ResolveRouting(Some(star), None);
    Entry(org, "", true, target.channel, target.mentions, AdditionalChannels(Some(star), None),
          p.defaults.gitProvider, ResolveBehavior(p.defaults, Some(star), None).deleteOnClose)
  }

  function NamedEntries(p: Provider, org: string, names: seq<string>): (entries: seq<Entry>)
    requires org in p.mappings && forall name | name in names :: name in p.mappings[org]
    ensures |entries| == |names|
  {
    if names == [] then []
    else
      var init, last := names[..|names| - 1], names[|names| - 1];
      NamedEntries(p, org, init) + [NamedEntry(p, org, TierIn(p.mappings[org], WILDCARD), last, p.mappings[org][last])]
  }

  function OrgEntries(p: Provider, org: string): seq<Entry>
    requires org in p.mappings
  {
    var o := p.mappings[org];
    NamedEntries(p, org, SortedNames(o.Keys - {WILDCARD}))
    + (if WILDCARD in o then [WildcardEntry(p, org, o[WILDCARD])] else [])
  }

  function EntriesOf(p: Provider, orgs: seq<string>): seq<Entry>
    requires forall org | org in orgs :: org in p.mappings
  {
    if orgs == [] then [] else EntriesOf(p, orgs[..|orgs| - 1]) + OrgEntries(p, orgs[|orgs| - 1])
  }

  /** Organizations A to Z, their repositories A to Z, the wildcard last. */
  function AllEntries(p: Provider): seq<Entry> {
    EntriesOf(p, SortedNames(p.mappings.Keys))
  }

  method EntriesOfOrg(p: Provider, org: string) returns (out: seq<Entry>)
    requires org in p.mappings
    ensures out == OrgEntries(p, org)
  {
    hide SortedNames, NamedEntry, WildcardEntry;
    var o := p.mappings[org];
    var star := TierIn(o, WILDCARD);
    var names := SortedNames(o.Keys - {WILDCARD});
    assert forall n | n in names :: n in p.mappings[org];
    out := [];
    for j := 0 to |names|
      invariant forall n | n in names[..j] :: n in p.mappings[org]
      invariant out == NamedEntries(p, org, names[..j])
    {
      assert names[..j + 1][..j] == names[..j] && names[j] in names;
      out := out + [NamedEntry(p, org, star, names[j], o[names[j]])];
    }
    assert names[..|names|] == names;
    if star.Some? {
      out := out + [WildcardEntry(p, org, star.value)];
    }
  }

  method Entries(p: Provider) returns (out: seq<Entry>)
    ensures out == AllEntries(p)
  {
    hide SortedNames, OrgEntries;
    var orgs := SortedNames(p.mappings.Keys);
    out := [];
    for i := 0 to |orgs|
      invariant out == EntriesOf(p, orgs[..i])
    {
      assert orgs[..i + 1][..i] == orgs[..i] && orgs[i] in orgs;
      var entries := EntriesOfOrg(p, orgs[i]);
      out := out + entries;
    }
    assert orgs[..|orgs|] == orgs;
  }

  // ---------------------------------------------------------------- schedules

  function ScheduleSet(p: Provider): set<string> {
    set e | e in AllEntries(p) && DigestFor(p, e.Key()).enabled :: DigestFor(p, e.Key()).schedule
  }

  /** The distinct schedules of the entries whose digest is enabled, sorted. */
  method Schedules(p: Provider) returns (out: seq<string>)
    ensures out == SortedNames(ScheduleSet(p))
  {
    hide DigestFor, SortedNames, AllEntries;
    var entries := Entries(p);
    var seen := {};
    for i := 0 to |entries|
      invariant seen == set e | e in entries[..i] && DigestFor(p, e.Key()).enabled :: DigestFor(p, e.Key()).schedule
    {
      assert entries[..i + 1] == entries[..i] + [entries[i]];
      var digestConfig := DigestFor(p, entries[i].Key());
      if digestConfig.enabled {
        seen := seen + {digestConfig.schedule};
      }
    }
    assert entries[..|entries|] == entries;
    out := SortedNames(seen);
  }

  lemma {:induction false} NamedEntryListed(p: Provider, org: string, names: seq<string>, name: string)
    requires org in p.mappings && forall n | n in names :: n in p.mappings[org]
    requires name in names
    ensures NamedEntry(p, org, TierIn(p.mappings[org], WILDCARD), name, p.mappings[org][name]) in NamedEntries(p, org, names)
  {
    var init, last := names[..|names| - 1], names[|names| - 1];
    assert names == init + [last];
    if name in init {
      NamedEntryListed(p, org, init, name);
    }
  }

  lemma {:induction false} OrgEntriesListed(p: Provider, orgs: seq<string>, org: string, e: Entry)
    requires forall o | o in orgs :: o in p.mappings
    requires org in orgs && e in OrgEntries(p, org)
    ensures e in EntriesOf(p, orgs)
  {
    hide OrgEntries;
    var init, last := orgs[..|orgs| - 1], orgs[|orgs| - 1];
    assert orgs == init + [last];
    if org in init {
      OrgEntriesListed(p, init, org, e);
    }
  }

  /** Every named tier and every wildcard tier has its entry. */
  lemma TierHasEntry(p: Provider, org: string, name: string)
    requires org in p.mappings && name in p.mappings[org]
    ensures exists e :: e in AllEntries(p) && e.Key() == org + "/" + name
  {
    hide SortedNames;
    var o := p.mappings[org];
    var names := SortedNames(o.Keys - {WILDCARD});
    var e: Entry;
    if name == WILDCARD {
      e := WildcardEntry(p, org, o[WILDCARD]);
    } else {
      NamedEntryListed(p, org, names, name);
      e := NamedEntry(p, org, TierIn(o, WILDCARD), name, o[name]);
    }
    assert e in OrgEntries(p, org) && e.Key() == org + "/" + name;
    OrgEntriesListed(p, SortedNames(p.mappings.Keys), org, e);
  }

  /** A repository that only the wildcard tier matches has the digest of the wildcard entry. */
  lemma DigestOfWildcard(p: Provider, org: string, name: string)
    requires org != "" && '/' !in org && name != ""
    requires org in p.mappings && name !in p.mappings[org] && WILDCARD in p.mappings[org]
    ensures DigestFor(p, org + "/" + name) == DigestFor(p, org + "/" + WILDCARD)
  {
    SplitOfJoin(org, name);
    SplitOfJoin(org, WILDCARD);
  }

  /** Every mapped repository with an enabled digest has its schedule among the schedules. */
  lemma ScheduleIsListed(p: Provider, repository: string)
    requires Get(p, repository).Some? && DigestFor(p, repository).enabled
    ensures DigestFor(p, repository).schedule in SortedNames(ScheduleSet(p))
  {
    JoinOfSplit(repository);
    var (org, name) := SplitRepo(repository).value;
    hide AllEntries, ApplyDigest;
    if name in p.mappings[org] {
      TierHasEntry(p, org, name);
    } else {
      DigestOfWildcard(p, org, name);
      TierHasEntry(p, org, WILDCARD);
    }
  }

  // ---------------------------------------------------------------- which tiers answer

  /** A repository is answered for by its organization's "*" tier and by the tier of its own name. */
  lemma LookupIs(mappings: Mappings, org: string, name: string)
    requires org != "" && '/' !in org && name != ""
    ensures var (star, repo) := Lookup(mappings, org + "/" + name);
      && (star.Some? <==> org in mappings && "*" in mappings[org]) && (star.Some? ==> star.value == mappings[org]["*"])
      && (repo.Some? <==> org in mappings && name in mappings[org]) && (repo.Some? ==> repo.value == mappings[org][name])
    ensures forall p: Provider | p.mappings == mappings ::
      RepoHasPathRules(p, org + "/" + name)
      <==> org in mappings && name in mappings[org] && mappings[org][name].paths != []
  {
    SplitOfJoin(org, name);
  }

  /** A name without an organization or a repository part has no tiers. */
  lemma NoNameNoTiers(mappings: Mappings, repository: string)
    requires forall org, name :: repository == org + "/" + name && '/' !in org ==> org == "" || name == ""
    ensures Lookup(mappings, repository) == (None, None)
  {
    if SplitRepo(repository).Some? {
      JoinOfSplit(repository);
    }
  }

  /** A mapping is found exactly when one of the two tiers is there, and tells the first base target. */
  lemma GetIs(p: Provider, org: string, name: string)
    requires org != "" && '/' !in org && name != ""
    ensures var found := Get(p, org + "/" + name);
      && (found.Some? <==> org in p.mappings && (name in p.mappings[org] || "*" in p.mappings[org]))
      && (found.Some? ==>
            && found.value.repository == org + "/" + name
            && found.value.slackChannel == BaseTargets(p, org + "/" + name)[0].channel
            && found.value.mentions == BaseTargets(p, org + "/" + name)[0].mentions)
  {
    SplitOfJoin(org, name);
    hide ResolveBaseTargets, ResolveBehavior;
  }

  /** A tier with the channel key of its own keeps its channel, whatever the organization's "*" tier holds. */
  lemma NamedTierRoutes(p: Provider, org: string, name: string)
    requires org != "" && '/' !in org && name != ""
    requires org in p.mappings && name in p.mappings[org]
    requires p.mappings[org][name].channel != "" && p.mappings[org][name].channels == []
    ensures |BaseTargets(p, org + "/" + name)| == 1
    ensures BaseTargets(p, org + "/" + name)[0].channel == p.mappings[org][name].channel
  {
    SplitOfJoin(org, name);
    var (star, repo) := Lookup(p.mappings, org + "/" + name);
    RepositoryBeforeOrg(star, repo);
    hide ResolveBaseTargets;
  }

  // ---------------------------------------------------------------- digests, entry by entry

  predicate SetsDigest(tier: Tier) {
    tier.Some? && tier.value.digest.Some?
  }

  predicate SetsSchedule(tier: Tier) {
    SetsDigest(tier) && TrimSpace(tier.value.digest.value.schedule) != ""
  }

  /** The nearest digest decides whether there is one, the nearest written schedule when, the global one where. */
  lemma NearestDigestWins(p: Provider, repository: string)
    ensures var (star, repo) := Lookup(p.mappings, repository);
            var digest := DigestFor(p, repository);
      && (SetsDigest(repo) ==> digest.enabled == repo.value.digest.value.enabled)
      && (!SetsDigest(repo) && SetsDigest(star) ==> digest.enabled == star.value.digest.value.enabled)
      && (!SetsDigest(repo) && !SetsDigest(star) ==> digest.enabled == (p.digest.Some? && p.digest.value.enabled))
      && (SetsSchedule(repo) ==> digest.schedule == TrimSpace(repo.value.digest.value.schedule))
      && (!SetsSchedule(repo) && SetsSchedule(star) ==> digest.schedule == TrimSpace(star.value.digest.value.schedule))
      && (!SetsSchedule(repo) && !SetsSchedule(star) ==>
            digest.schedule == if p.digest.Some? && TrimSpace(p.digest.value.schedule) != ""
                               then TrimSpace(p.digest.value.schedule) else "0 9 * * *")
      && digest.timezone == (if p.digest.Some? then p.digest.value.timezone else "")
      && digest.country == (if p.digest.Some? then p.digest.value.country else "")
  {
    hide Lookup, TrimSpace;
  }

  /** An entry tells what a lookup of its repository tells; a "*" entry what one of an unnamed repository tells. */
  ghost predicate TellsLookup(p: Provider, e: Entry) {
    && e.org in p.mappings
    && (if e.wildcard then e.repo == "" && "*" in p.mappings[e.org]
        else e.repo != "*" && e.repo in p.mappings[e.org])
    && e.gitProvider == p.defaults.gitProvider
    && forall name | name != "" && (if e.wildcard then name !in p.mappings[e.org] else name == e.repo) ::
         var found := Get(p, e.org + "/" + name);
         && found.Some? && found.value.slackChannel == e.channel && found.value.mentions == e.mentions
         && found.value.behavior.deleteOnClose == e.deleteOnClose
         && AdditionalChannelsOf(p, e.org + "/" + name) == e.extraChannels
  }

  lemma NamedEntryTells(p: Provider, org: string, name: string)
    requires org != "" && '/' !in org && org in p.mappings && name in p.mappings[org] && name != "*"
    ensures TellsLookup(p, NamedEntry(p, org, TierIn(p.mappings[org], WILDCARD), name, p.mappings[org][name]))
  {
    hide ResolveBaseTargets, ResolveBehavior, AdditionalChannels;
    if name != "" {
      SplitOfJoin(org, name);
    }
  }

  lemma {:induction false} NamedEntriesTell(p: Provider, org: string, names: seq<string>, e: Entry)
    requires org != "" && '/' !in org && org in p.mappings
    requires forall name | name in names :: name in p.mappings[org] && name != "*"
    requires e in NamedEntries(p, org, names)
    ensures TellsLookup(p, e)
  {
    hide TellsLookup, NamedEntry;
    var init, last := names[..|names| - 1], names[|names| - 1];
    assert names == init + [last];
    if e in NamedEntries(p, org, init) {
      NamedEntriesTell(p, org, init, e);
    } else {
      NamedEntryTells(p, org, last);
    }
  }

  lemma WildcardEntryTells(p: Provider, org: string)
    requires org != "" && '/' !in org && org in p.mappings && WILDCARD in p.mappings[org]
    ensures TellsLookup(p, WildcardEntry(p, org, p.mappings[org][WILDCARD]))
  {
    hide ResolveBaseTargets, ResolveBehavior, AdditionalChannels;
    forall name | name != "" {
      SplitOfJoin(org, name);
    }
  }

  lemma OrgEntriesTell(p: Provider, org: string, e: Entry)
    requires org != "" && '/' !in org && org in p.mappings && e in OrgEntries(p, org)
    ensures TellsLookup(p, e)
  {
    hide TellsLookup, NamedEntries, NamedEntry, WildcardEntry;
    var names := SortedNames(p.mappings[org].Keys - {WILDCARD});
    assert forall n | n in names :: n in p.mappings[org] && n != WILDCARD;
    hide SortedNames;
    if e in NamedEntries(p, org, names) {
      NamedEntriesTell(p, org, names, e);
    } else {
      WildcardEntryTells(p, org);
    }
  }

  lemma {:induction false} EntriesOfTell(p: Provider, orgs: seq<string>, e: Entry)
    requires forall org | org in orgs :: org in p.mappings && org != "" && '/' !in org
    requires e in EntriesOf(p, orgs)
    ensures TellsLookup(p, e)
  {
    hide TellsLookup, OrgEntries;
    var init, last := orgs[..|orgs| - 1], orgs[|orgs| - 1];
    assert orgs == init + [last];
    if e in EntriesOf(p, init) {
      EntriesOfTell(p, init, e);
    } else {
      assert last in orgs;
      OrgEntriesTell(p, last, e);
    }
  }

  /** Every listed entry is that of a tier and agrees with the lookups. */
  lemma EntriesTellLookups(p: Provider, e: Entry)
    requires forall org | org in p.mappings :: org != "" && '/' !in org
    requires e in AllEntries(p)
    ensures TellsLookup(p, e)
  {
    hide TellsLookup, EntriesOf;
    EntriesOfTell(p, SortedNames(p.mappings.Keys), e);
  }

  /** The tier, named or "*", has its digest enabled, at the schedule. */
  ghost predicate DigestAt(p: Provider, org: string, name: string, schedule: string) {
    && org in p.mappings && name in p.mappings[org]
    && DigestFor(p, org + "/" + name).enabled && DigestFor(p, org + "/" + name).schedule == schedule
  }

  /** The schedules are exactly those of the tiers with an enabled digest. */
  lemma ScheduleIsSomeTiers(p: Provider, schedule: string)
    requires forall org | org in p.mappings :: org != "" && '/' !in org
    ensures schedule in SortedNames(ScheduleSet(p)) <==> exists org, name :: DigestAt(p, org, name, schedule)
  {
    hide AllEntries, DigestFor, SortedNames;
    if org, name :| DigestAt(p, org, name, schedule) {
      TierHasEntry(p, org, name);
    }
    if e :| e in AllEntries(p) && DigestFor(p, e.Key()).enabled && DigestFor(p, e.Key()).schedule == schedule {
      EntriesTellLookups(p, e);
      assert DigestAt(p, e.org, if e.wildcard then WILDCARD else e.repo, schedule);
    }
  }

  // ---------------------------------------------------------------- the order of the entries

  lemma {:induction false} NamedEntryAt(p: Provider, org: string, names: seq<string>, i: nat)
    requires org in p.mappings && forall name | name in names :: name in p.mappings[org]
    requires i < |names|
    ensures NamedEntries(p, org, names)[i].org == org && NamedEntries(p, org, names)[i].repo == names[i]
    ensures !NamedEntries(p, org, names)[i].wildcard
  {
    hide ResolveBaseTargets, ResolveBehavior, AdditionalChannels;
    if i < |names| - 1 {
      NamedEntryAt(p, org, names[..|names| - 1], i);
    }
  }

  /** In an organization the named tiers come by name and the "*" tier after them. */
  lemma NamedBeforeWildcard(p: Provider, org: string, i: nat, j: nat)
    requires org in p.mappings && i < j < |OrgEntries(p, org)|
    ensures var a, b := OrgEntries(p, org)[i], OrgEntries(p, org)[j];
            a.org == b.org == org && !a.wildcard && (!b.wildcard ==> Less(a.repo, b.repo))
  {
    var names := SortedNames(p.mappings[org].Keys - {WILDCARD});
    hide SortedNames, NamedEntries, NamedEntry;
    NamedEntryAt(p, org, names, i);
    if j < |names| {
      NamedEntryAt(p, org, names, j);
    }
  }

  lemma OrgOfEntry(p: Provider, org: string, i: nat)
    requires org in p.mappings && i < |OrgEntries(p, org)|
    ensures OrgEntries(p, org)[i].org == org
  {
    var names := SortedNames(p.mappings[org].Keys - {WILDCARD});
    hide SortedNames, NamedEntries, NamedEntry;
    if i < |names| {
      NamedEntryAt(p, org, names, i);
    }
  }

  lemma {:induction false} OrgsOfEntries(p: Provider, orgs: seq<string>, i: nat)
    requires forall org | org in orgs :: org in p.mappings
    requires i < |EntriesOf(p, orgs)|
    ensures EntriesOf(p, orgs)[i].org in orgs
  {
    hide OrgEntries;
    var init, last := orgs[..|orgs| - 1], orgs[|orgs| - 1];
    assert orgs == init + [last];
    if i < |EntriesOf(p, init)| {
      OrgsOfEntries(p, init, i);
    } else {
      OrgOfEntry(p, last, i - |EntriesOf(p, init)|);
    }
  }

  lemma {:induction false} EntriesOfInOrder(p: Provider, orgs: seq<string>, i: nat, j: nat)
    requires forall org | org in orgs :: org in p.mappings
    requires Increasing(orgs, Less) && i < j < |EntriesOf(p, orgs)|
    ensures EntriesOf(p, orgs)[i].org == EntriesOf(p, orgs)[j].org
            || Less(EntriesOf(p, orgs)[i].org, EntriesOf(p, orgs)[j].org)
  {
    hide OrgEntries, Less;
    var init, last := orgs[..|orgs| - 1], orgs[|orgs| - 1];
    assert orgs == init + [last];
    var n := |EntriesOf(p, init)|;
    if j < n {
      EntriesOfInOrder(p, init, i, j);
    } else {
      OrgOfEntry(p, last, j - n);
      if i < n {
        OrgsOfEntries(p, init, i);
        var k :| 0 <= k < |init| && init[k] == EntriesOf(p, init)[i].org;
        assert Less(orgs[k], orgs[|orgs| - 1]);
      } else {
        OrgOfEntry(p, last, i - n);
      }
    }
  }

  /** The entries are listed organization by organization, by name. */
  lemma OrganizationsInOrder(p: Provider, i: nat, j: nat)
    requires i < j < |AllEntries(p)|
    ensures AllEntries(p)[i].org == AllEntries(p)[j].org || Less(AllEntries(p)[i].org, AllEntries(p)[j].org)
  {
    hide EntriesOf, Less;
    EntriesOfInOrder(p, SortedNames(p.mappings.Keys), i, j);
  }
}
