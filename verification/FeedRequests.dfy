/** The requests of a token: the next pull requests, and those since a moment. */
module FeedRequests {
  import opened Optional
  import opened Sorting
  import opened FeedModel
  import opened FeedTurnPolicy
  import opened FeedTransactions
  import opened FeedRuns
  import opened FeedStore

  /** Which repositories the operator configured; never "*", which is no repository name. */
  type Catalog = Repository -> bool

  ghost predicate NamesRepositories(catalog: Catalog) {
    !catalog(ALL_REPOSITORIES)
  }

  function StoredRepositories(t: Tables): set<Repository> {
    set k | k in t.pullRequests :: k.repository
  }

  function OwnRepositories(t: Tables, token: Token): set<Repository> {
    set f | f in t.subscriptions && f.token == token && f.repository != ALL_REPOSITORIES :: f.repository
  }

  /**
   The repositories of the type a request of the token serves: followed by name or, through "*",
   stored; a subscription by name decides before "*"; only configured ones count.
   */
  function Resolved(t: Tables, catalog: Catalog, token: Token, kind: SubscriptionType): set<Repository> {
    set repository | repository in OwnRepositories(t, token) + StoredRepositories(t)
      && catalog(repository) && TypeFor(t, token, repository) == Some(kind)
  }

  // ---------------------------------------------------------------- resolving

  datatype SubscribedRepositories = SubscribedRepositories(solo: seq<Repository>, party: seq<Repository>) {
    function Add(repository: Repository, kind: SubscriptionType): SubscribedRepositories {
      if kind == Party then this.(party := party + [repository]) else this.(solo := solo + [repository])
    }

    predicate Contains(repository: Repository) {
      repository in solo || repository in party
    }

    /** Each listed repository once, under the type that decides for it. */
    ghost predicate Lists(t: Tables, token: Token, repositories: set<Repository>) {
      && (forall repository :: repository in solo <==>
            repository in repositories && TypeFor(t, token, repository) == Some(Solo))
      && (forall repository :: repository in party <==>
            repository in repositories && TypeFor(t, token, repository) == Some(Party))
    }
  }

  /** The configured ones among the names, each once, in their order. */
  method Configured(catalog: Catalog, names: seq<Repository>) returns (configured: seq<Repository>)
    ensures Distinct(configured)
    ensures forall name :: name in configured <==> name in names && catalog(name)
  {
    var seen := {};
    configured := [];
    for i := 0 to |names|
      invariant Distinct(configured)
      invariant forall name :: name in configured <==> name in names[..i] && catalog(name)
      invariant seen == set name | name in configured
    {
      if names[i] !in seen && catalog(names[i]) {
        seen := seen + {names[i]};
        configured := configured + [names[i]];
      }
    }
  }

  lemma AddLists(listed: SubscribedRepositories, t: Tables, token: Token, repositories: set<Repository>,
                 repository: Repository)
    requires listed.Lists(t, token, repositories) && TypeFor(t, token, repository).Some?
    ensures listed.Add(repository, TypeFor(t, token, repository).value).Lists(t, token, repositories + {repository})
  {
  }

  // ---------------------------------------------------------------- the two definitions of a member

  /** No repository is served as solo and as party at once. */
  lemma SoloAndPartyDisjoint(t: Tables, catalog: Catalog, token: Token)
    ensures Resolved(t, catalog, token, Solo) !! Resolved(t, catalog, token, Party)
  {
  }

  /**
   For a stored, configured repository the member query counts a recently fetching
   token as a candidate exactly when a request of that token serves the repository
   as party.
   */
  lemma MemberExactlyWhenServedAsParty(t: Tables, catalog: Catalog, token: Token, k: Key, activeSince: Time)
    requires NamesRepositories(catalog) && k in t.pullRequests && catalog(k.repository)
    ensures token in Members(t, k.repository, activeSince)
            <==> && token in t.fetches && t.fetches[token] >= activeSince
                 && k.repository in Resolved(t, catalog, token, Party)
  {
  }

  /**
   Although a fetch within a minute of the stored one is not written, a party member counts as active
   for a day less a minute after every fetch, and none is a candidate more than a day after its last.
   */
  lemma FetchKeepsMemberActive(t: Tables, token: Token, repository: Repository, at: Time, now: Time)
    requires token in t.fetches ==> t.fetches[token] <= at
    requires at <= now
    ensures var members := Members(AfterFetch(t, token, at), repository, now - AWAY_AFTER);
      && (now <= at + 86_340 * SECOND ==> (token in members <==> TypeFor(t, token, repository) == Some(Party)))
      && (now > at + 86_400 * SECOND ==> token !in members)
  {
  }

  // ---------------------------------------------------------------- next and since

  function PartyClaimOf(t: Tables, catalog: Catalog, token: Token, now: Time): PartyClaim {
    PartyClaim(token, Resolved(t, catalog, token, Party), now, LoadDay(now), now - AWAY_AFTER)
  }

  /** A request for the next pull requests is three transactions. */
  function SoloStep(t: Tables, catalog: Catalog, token: Token, now: Time): Step {
    SoloTurn(token, Resolved(t, catalog, token, Solo), now)
  }

  function PartyStep(t: Tables, catalog: Catalog, token: Token, now: Time): Step {
    PartyTurn(PartyClaimOf(t, catalog, token, now))
  }

  function AfterNext(t: Tables, catalog: Catalog, token: Token, now: Time): Tables {
    Apply(Apply(Apply(t, SoloStep(t, catalog, token, now)), PartyStep(t, catalog, token, now)), Fetched(token, now))
  }

  /** What the request returns: the solo claim's and the party claim's pull requests. */
  function NextKeys(t: Tables, catalog: Catalog, token: Token, now: Time): set<Key> {
    Gives(t, SoloStep(t, catalog, token, now), token)
    + Gives(Apply(t, SoloStep(t, catalog, token, now)), PartyStep(t, catalog, token, now), token)
  }

  /** What a request since a moment returns. */
  function SinceKeys(t: Tables, catalog: Catalog, token: Token, since: Time): set<Key> {
    ChangedKeys(t, token, Resolved(t, catalog, token, Solo), since)
    + ReceivedKeys(t, token, Resolved(t, catalog, token, Party), since)
  }

  /**
   Recovery: whatever claim handed the token a pull request at or after the moment, a request
   since that moment answers with it while it is stored, subscribed to and configured, whatever
   the subscription type is by then.
   */
  lemma SinceRecoversDeliveries(states: seq<Tables>, steps: seq<Step>, i: nat, n: nat, catalog: Catalog, token: Token,
                                k: Key, since: Time)
    requires IsRun(states, steps) && i < n <= |steps|
    requires k in Gives(states[i], steps[i], token)
    requires (steps[i].SoloTurn? || steps[i].PartyTurn?) && ClaimedAt(steps[i]) >= since
    requires !RemovedBetween(steps, i, n, k)
    requires catalog(k.repository) && TypeFor(states[n], token, k.repository).Some?
    ensures k in SinceKeys(states[n], catalog, token, since)
  {
    hide Apply, Gives;
    ReceivedUntilRemoved(states, steps, i, n, token, k);
    assert k.repository in StoredRepositories(states[n]);
    var kind := TypeFor(states[n], token, k.repository).value;
    assert k.repository in Resolved(states[n], catalog, token, kind);
    assert kind == Solo || kind == Party;
  }

  /** On a party repository a request since a moment never shows what the party gave to others. */
  lemma SinceShowsOnlyOwnPartyPullRequests(t: Tables, catalog: Catalog, token: Token, k: Key, since: Time)
    requires k in SinceKeys(t, catalog, token, since)
    requires TypeFor(t, token, k.repository) == Some(Party)
    ensures Receipt(token, k) in t.deliveries
  {
  }

  /**
   A request since a moment answers with exactly the stored pull requests of configured repositories that the token
   follows: as solo those updated or received since, as party only received ones, updated or received since.
   */
  lemma SinceIs(t: Tables, catalog: Catalog, token: Token, since: Time, k: Key)
    ensures k in SinceKeys(t, catalog, token, since) <==>
      && k in t.pullRequests && catalog(k.repository)
      && (var received := Receipt(token, k) in t.deliveries;
          var recent := t.pullRequests[k].updatedAt >= since || (received && t.deliveries[Receipt(token, k)].at >= since);
          || (TypeFor(t, token, k.repository) == Some(Solo) && recent)
          || (TypeFor(t, token, k.repository) == Some(Party) && received && recent))
  {
    if k in t.pullRequests {
      assert k.repository in StoredRepositories(t);
    }
  }

  /** A request for the next pull requests answers with exactly what the token holds a receipt of from then on. */
  lemma NextIsWhatIsNewlyReceived(t: Tables, catalog: Catalog, token: Token, now: Time, k: Key)
    ensures k in NextKeys(t, catalog, token, now) <==>
      Receipt(token, k) !in t.deliveries && Receipt(token, k) in AfterNext(t, catalog, token, now).deliveries
  {
    hide TakeOf, AfterPartyClaim, Resolved, NextKeys, AfterNext, WaitingKeys;
    var solo, claim := Resolved(t, catalog, token, Solo), PartyClaimOf(t, catalog, token, now);
    var s := AfterClaim(t, token, solo, now);
    NextKeysAre(t, catalog, token, now);
    StepsOfNext(t, catalog, token, now);
    PartyClaimDelivers(s, claim);
    PartyTakesUnreceived(s, claim, k);
  }

  lemma PartyTakesUnreceived(t: Tables, claim: PartyClaim, k: Key)
    ensures k in KeySet(TakeOf(t, claim)) ==> Receipt(claim.token, k) !in t.deliveries
  {
    hide TakeOf;
    PartyClaimDelivers(t, claim);
  }

  /** Nothing of a solo repository is left to receive after a request. */
  lemma NextLeavesNoSolo(t: Tables, catalog: Catalog, token: Token, now: Time, k: Key)
    requires k in t.pullRequests && catalog(k.repository) && TypeFor(t, token, k.repository) == Some(Solo)
    ensures Receipt(token, k) in AfterNext(t, catalog, token, now).deliveries
    ensures Receipt(token, k) !in t.deliveries ==>
      AfterNext(t, catalog, token, now).deliveries[Receipt(token, k)] == Delivery(now, false)
  {
    hide TakeOf, AfterPartyClaim, AfterNext, WaitingKeys;
    var solo, claim := Resolved(t, catalog, token, Solo), PartyClaimOf(t, catalog, token, now);
    var s := AfterClaim(t, token, solo, now);
    assert k.repository in StoredRepositories(t);
    StepsOfNext(t, catalog, token, now);
    PartyClaimDelivers(s, claim);
    PartyTakesUnreceived(s, claim, k);
  }

  ghost predicate Ordered(rows: map<Key, Row>, merged: seq<Key>) {
    forall i, j | 0 <= i < j < |merged| :: !Before(rows, merged[j], merged[i])
  }

  /** A sort by the feed order; no key is lost, added or repeated. */
  method InDeliveryOrder(rows: map<Key, Row>, first: seq<Key>, second: seq<Key>) returns (merged: seq<Key>)
    requires forall k | k in first || k in second :: k in rows
    ensures multiset(merged) == multiset(first) + multiset(second)
    ensures Ordered(rows, merged)
  {
    hide Before;
    var all := first + second;
    merged := [];
    for n := 0 to |all|
      invariant multiset(merged) == multiset(all[..n])
      invariant forall k | k in merged :: k in rows
      invariant Ordered(rows, merged)
    {
      assert all[..n + 1] == all[..n] + [all[n]];
      var at := Place(rows, merged, all[n]);
      InsertKeepsOrder(rows, merged, all[n], at);
      merged := merged[..at] + [all[n]] + merged[at..];
    }
    assert all[..|all|] == all;
  }

  /** Where the key goes: behind everything it is not before. */
  method Place(rows: map<Key, Row>, merged: seq<Key>, k: Key) returns (at: nat)
    requires k in rows && forall m | m in merged :: m in rows
    requires Ordered(rows, merged)
    ensures at <= |merged|
    ensures forall i | 0 <= i < at :: !Before(rows, k, merged[i])
    ensures forall j | at <= j < |merged| :: Before(rows, k, merged[j])
  {
    at := |merged|;
    while at > 0 && Before(rows, k, merged[at - 1])
      invariant at <= |merged|
      invariant forall j | at <= j < |merged| :: Before(rows, k, merged[j])
    {
      at := at - 1;
    }
    forall i | 0 <= i < at ensures !Before(rows, k, merged[i]) {
      NotBeforeEarlier(rows, merged, k, at, i);
    }
  }

  lemma InsertKeepsOrder(rows: map<Key, Row>, merged: seq<Key>, k: Key, at: nat)
    requires k in rows && forall m | m in merged :: m in rows
    requires Ordered(rows, merged) && at <= |merged|
    requires forall i | 0 <= i < at :: !Before(rows, k, merged[i])
    requires forall j | at <= j < |merged| :: Before(rows, k, merged[j])
    ensures Ordered(rows, merged[..at] + [k] + merged[at..])
    ensures multiset(merged[..at] + [k] + merged[at..]) == multiset(merged) + multiset{k}
    ensures forall m | m in merged[..at] + [k] + merged[at..] :: m in rows
  {
    forall j | at <= j < |merged| ensures !Before(rows, merged[j], k) {
      BeforeTotal(rows, k, merged[j]);
    }
    assert merged == merged[..at] + merged[at..];
  }

  lemma NotBeforeEarlier(rows: map<Key, Row>, merged: seq<Key>, k: Key, at: nat, i: nat)
    requires k in rows && forall m | m in merged :: m in rows
    requires Ordered(rows, merged)
    requires i < at <= |merged| && !Before(rows, k, merged[at - 1])
    ensures !Before(rows, k, merged[i])
  {
    BeforeTotal(rows, k, merged[at - 1]);
    BeforeTotal(rows, merged[i], merged[at - 1]);
    if Before(rows, k, merged[i]) && Before(rows, merged[i], merged[at - 1]) {
      BeforeTransitive(rows, k, merged[i], merged[at - 1]);
    }
  }

  /** Merged lists without a common or repeated key come out in feed order, each key once. */
  lemma MergedIsFeedOrder(rows: map<Key, Row>, first: seq<Key>, second: seq<Key>, merged: seq<Key>)
    requires Distinct(first) && Distinct(second) && KeySet(first) !! KeySet(second)
    requires KeySet(first) + KeySet(second) <= rows.Keys
    requires multiset(merged) == multiset(first) + multiset(second)
    requires Ordered(rows, merged)
    ensures merged == FeedOrder(rows, KeySet(first) + KeySet(second))
  {
    DistinctMultiplicity(first);
    DistinctMultiplicity(second);
    forall k ensures k in merged <==> k in KeySet(first) + KeySet(second) {
      assert k in merged <==> k in multiset(merged);
    }
    forall i, j | 0 <= i < j < |merged| ensures Before(rows, merged[i], merged[j]) {
      MultiplicityOne(merged, i, j);
      assert merged[i] in merged && merged[j] in merged;
      assert multiset(merged)[merged[i]] <= 1;
      BeforeTotal(rows, merged[i], merged[j]);
    }
    FeedOrderUnique(rows, merged, KeySet(first) + KeySet(second));
  }

  lemma {:induction false} DistinctMultiplicity(keys: seq<Key>)
    requires Distinct(keys)
    ensures forall k :: multiset(keys)[k] == if k in KeySet(keys) then 1 else 0
  {
    if keys != [] {
      var init, last := keys[..|keys| - 1], keys[|keys| - 1];
      assert keys == init + [last];
      DistinctMultiplicity(init);
    }
  }

  lemma MultiplicityOne(merged: seq<Key>, i: nat, j: nat)
    requires i < j < |merged|
    ensures merged[i] == merged[j] ==> multiset(merged)[merged[i]] >= 2
  {
    assert merged == merged[..i] + [merged[i]] + merged[i + 1..j] + [merged[j]] + merged[j + 1..];
  }

  /** The lists of the two queries hold the keys the request means. */
  lemma ListedAre(t: Tables, token: Token, solo: set<Repository>, party: set<Repository>, since: Time,
                  changed: seq<Key>, received: seq<Key>)
    requires forall k :: k in changed <==>
      && k in t.pullRequests && k.repository in solo
      && (t.pullRequests[k].updatedAt >= since
          || (Receipt(token, k) in t.deliveries && t.deliveries[Receipt(token, k)].at >= since))
    requires forall k :: k in received <==>
      && k in t.pullRequests && k.repository in party && Receipt(token, k) in t.deliveries
      && (t.pullRequests[k].updatedAt >= since || t.deliveries[Receipt(token, k)].at >= since)
    ensures KeySet(changed) == ChangedKeys(t, token, solo, since)
    ensures KeySet(received) == ReceivedKeys(t, token, party, since)
  {
  }

  lemma SinceListsDisjoint(t: Tables, catalog: Catalog, token: Token, since: Time)
    ensures var changed := ChangedKeys(t, token, Resolved(t, catalog, token, Solo), since);
            var received := ReceivedKeys(t, token, Resolved(t, catalog, token, Party), since);
            changed !! received && changed <= t.pullRequests.Keys && received <= t.pullRequests.Keys
  {
  }

  /** The party claim reports exactly what it took, each key once, all waiting. */
  lemma PartyReport(t: Tables, claim: PartyClaim)
    ensures PartyResultOf(t, claim).delivered == TakeOf(t, claim)
    ensures Distinct(TakeOf(t, claim)) && KeySet(TakeOf(t, claim)) <= WaitingKeys(t, claim)
  {
    TakeIsWaiting(t, claim);
  }

  /** A solo claim and a party claim of one request never hand over the same pull request. */
  lemma ClaimsDisjoint(t: Tables, catalog: Catalog, token: Token, now: Time)
    ensures var solo := Unreceived(t, token, Resolved(t, catalog, token, Solo));
            var claim := PartyClaimOf(t, catalog, token, now);
            var u := AfterClaim(t, token, Resolved(t, catalog, token, Solo), now);
            solo !! WaitingKeys(u, claim) && solo + WaitingKeys(u, claim) <= t.pullRequests.Keys
  {
  }

  lemma AnswerOfNext(t: Tables, u: Tables, catalog: Catalog, token: Token, now: Time, solo: seq<Key>,
                     party: PartyResult)
    requires u == AfterClaim(t, token, Resolved(t, catalog, token, Solo), now)
    requires solo == FeedOrder(t.pullRequests, Unreceived(t, token, Resolved(t, catalog, token, Solo)))
    requires party == PartyResultOf(u, PartyClaimOf(t, catalog, token, now))
    ensures NextKeys(t, catalog, token, now) == KeySet(solo) + KeySet(party.delivered) <= t.pullRequests.Keys
    ensures Distinct(solo) && Distinct(party.delivered) && KeySet(solo) !! KeySet(party.delivered)
  {
    hide *;
    ClaimsDisjoint(t, catalog, token, now);
    PartyReport(u, PartyClaimOf(t, catalog, token, now));
    KeysOfOrder(t.pullRequests, Unreceived(t, token, Resolved(t, catalog, token, Solo)));
    NextKeysAre(t, catalog, token, now);
  }

  lemma KeysOfOrder(rows: map<Key, Row>, keys: set<Key>)
    requires keys <= rows.Keys
    ensures KeySet(FeedOrder(rows, keys)) == keys && Distinct(FeedOrder(rows, keys))
  {
  }

  lemma NextKeysAre(t: Tables, catalog: Catalog, token: Token, now: Time)
    ensures NextKeys(t, catalog, token, now)
            == Unreceived(t, token, Resolved(t, catalog, token, Solo))
               + KeySet(TakeOf(AfterClaim(t, token, Resolved(t, catalog, token, Solo), now), PartyClaimOf(t, catalog, token, now)))
  {
    hide TakeOf, Unreceived, Resolved, AfterClaim, KeySet;
  }

  lemma StepsOfNext(t: Tables, catalog: Catalog, token: Token, now: Time)
    ensures AfterNext(t, catalog, token, now)
            == AfterFetch(AfterPartyClaim(AfterClaim(t, token, Resolved(t, catalog, token, Solo), now),
                                          PartyClaimOf(t, catalog, token, now)), token, now)
    ensures AfterNext(t, catalog, token, now).pullRequests == t.pullRequests
  {
  }

  // ---------------------------------------------------------------- the requests

  class PullRequests {
    const database: FeedDatabase
    const catalog: Catalog

    constructor (database: FeedDatabase, catalog: Catalog)
      ensures this.database == database && this.catalog == catalog
    {
      this.database := database;
      this.catalog := catalog;
    }

    /** Delivers what the token may receive and answers with it, each pull request once, in feed order. */
    method Next(token: Token, now: Time) returns (delivered: seq<Key>)
      requires NamesRepositories(catalog)
      modifies database
      ensures database.View() == AfterNext(old(database.View()), catalog, token, now)
      ensures NextKeys(old(database.View()), catalog, token, now) <= old(database.pullRequests).Keys
      ensures database.pullRequests == old(database.pullRequests)
      ensures delivered == FeedOrder(old(database.pullRequests), NextKeys(old(database.View()), catalog, token, now))
    {
      hide FeedOrder, RoundOf, Resolved, AfterPartyClaim, AfterClaim, AfterFetch, AfterNext, NextKeys, PartyResultOf;
      hide Unreceived, Ordered;
      ghost var t := database.View();
      StepsOfNext(t, catalog, token, now);
      var repositories := ResolveRepositories(token);
      var soloNames, partyNames := set r | r in repositories.solo, set r | r in repositories.party;
      var solo := database.Claim(token, soloNames, now);
      ghost var u := database.View();
      ghost var claim := PartyClaimOf(t, catalog, token, now);
      var party := database.ClaimParty(PartyClaim(token, partyNames, now, LoadDay(now), now - AWAY_AFTER));
      database.RecordFetch(token, now);
      AnswerOfNext(t, u, catalog, token, now, solo, party);
      delivered := InDeliveryOrder(database.pullRequests, solo, party.delivered);
      MergedIsFeedOrder(database.pullRequests, solo, party.delivered, delivered);
    }

    /** Answers with what changed or reached the token since the moment and marks nothing. */
    method Since(token: Token, since: Time) returns (listed: seq<Key>)
      requires NamesRepositories(catalog)
      ensures SinceKeys(database.View(), catalog, token, since) <= database.pullRequests.Keys
      ensures listed == FeedOrder(database.pullRequests, SinceKeys(database.View(), catalog, token, since))
    {
      hide FeedOrder, Resolved, ChangedKeys, ReceivedKeys;
      var repositories := ResolveRepositories(token);
      var solo, party := set r | r in repositories.solo, set r | r in repositories.party;
      var changed := database.ChangedSince(token, solo, since);
      var received := database.ReceivedSince(token, party, since);
      SinceListsDisjoint(database.View(), catalog, token, since);
      ghost var c, r := ChangedKeys(database.View(), token, solo, since), ReceivedKeys(database.View(), token, party, since);
      ListedAre(database.View(), token, solo, party, since, changed, received);
      listed := InDeliveryOrder(database.pullRequests, changed, received);
      MergedIsFeedOrder(database.pullRequests, changed, received, listed);
    }

    method ResolveRepositories(token: Token) returns (repositories: SubscribedRepositories)
      requires NamesRepositories(catalog)
      ensures (set r | r in repositories.solo) == Resolved(database.View(), catalog, token, Solo)
      ensures (set r | r in repositories.party) == Resolved(database.View(), catalog, token, Party)
    {
      ghost var t := database.View();
      var subscribed := database.List(token);
      repositories := SubscribedRepositories([], []);
      var all: Option<SubscriptionType> := None;
      ghost var named := {};
      for i := 0 to |subscribed|
        invariant named == set entry | entry in subscribed[..i] && entry.0 != ALL_REPOSITORIES :: entry.0
        invariant repositories.Lists(t, token, named)
        invariant all.Some? ==> (ALL_REPOSITORIES, all.value) in subscribed[..i]
        invariant all.None? ==> forall entry | entry in subscribed[..i] :: entry.0 != ALL_REPOSITORIES
      {
        var (repository, kind) := subscribed[i];
        assert subscribed[i] in subscribed && subscribed[..i + 1] == subscribed[..i] + [subscribed[i]];
        if repository == ALL_REPOSITORIES {
          all := Some(kind);
        } else {
          AddLists(repositories, t, token, named, repository);
          repositories := repositories.Add(repository, kind);
          named := named + {repository};
        }
      }
      assert subscribed[..|subscribed|] == subscribed;
      NamedAreOwn(t, token, subscribed, named);
      if all.Some? {
        assert (ALL_REPOSITORIES, all.value) in subscribed;
        repositories := AddStored(token, repositories, all.value);
      } else {
        WithoutAll(t, token, subscribed);
      }
      var solo := Configured(catalog, repositories.solo);
      var party := Configured(catalog, repositories.party);
      repositories := SubscribedRepositories(solo, party);
    }

    /** "*" adds the stored repositories the token does not follow by name. */
    method AddStored(token: Token, named: SubscribedRepositories, kind: SubscriptionType)
      returns (repositories: SubscribedRepositories)
      requires named.Lists(database.View(), token, OwnRepositories(database.View(), token))
      requires Follow(token, ALL_REPOSITORIES) in database.subscriptions
               && database.subscriptions[Follow(token, ALL_REPOSITORIES)] == kind
      ensures var t := database.View();
              repositories.Lists(t, token, OwnRepositories(t, token) + StoredRepositories(t))
    {
      ghost var t := database.View();
      var stored := database.Repositories();
      repositories := named;
      ghost var listed := OwnRepositories(t, token);
      for i := 0 to |stored|
        invariant listed == OwnRepositories(t, token) + set repository | repository in stored[..i]
        invariant repositories.Lists(t, token, listed)
      {
        var repository := stored[i];
        assert stored[..i + 1] == stored[..i] + [repository];
        assert TypeFor(t, token, repository).Some?;
        if !repositories.Contains(repository) {
          AddLists(repositories, t, token, listed, repository);
          repositories := repositories.Add(repository, kind);
        }
        listed := listed + {repository};
      }
      assert stored[..|stored|] == stored;
      assert StoredRepositories(t) == set repository | repository in stored;
    }
  }

  lemma NamedAreOwn(t: Tables, token: Token, subscribed: seq<(Repository, SubscriptionType)>, named: set<Repository>)
    requires IsListing(t, token, subscribed)
    requires named == set entry | entry in subscribed && entry.0 != ALL_REPOSITORIES :: entry.0
    ensures named == OwnRepositories(t, token)
  {
    forall f | f in t.subscriptions && f.token == token && f.repository != ALL_REPOSITORIES ensures f.repository in named {
      assert (f.repository, t.subscriptions[f]) in subscribed;
    }
    forall entry | entry in subscribed && entry.0 != ALL_REPOSITORIES ensures entry.0 in OwnRepositories(t, token) {
      assert Follow(token, entry.0) in t.subscriptions;
    }
  }

  lemma WithoutAll(t: Tables, token: Token, subscribed: seq<(Repository, SubscriptionType)>)
    requires IsListing(t, token, subscribed)
    ensures Follow(token, ALL_REPOSITORIES) in t.subscriptions ==> exists entry :: entry in subscribed && entry.0 == ALL_REPOSITORIES
  {
    if Follow(token, ALL_REPOSITORIES) in t.subscriptions {
      assert (ALL_REPOSITORIES, t.subscriptions[Follow(token, ALL_REPOSITORIES)]) in subscribed;
    }
  }
}
