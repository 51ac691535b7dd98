/**
 What one feed transaction does to the tables. A transaction is atomic, so a run
 of the feed is a sequence of these.
 */
module FeedTransactions {
  import opened Optional
  import opened Sorting
  import opened FeedModel
  import opened FeedTurnPolicy

  // ---------------------------------------------------------------- deliveries

  /** The token receives the keys; receipts it already holds must not be among them. */
  function Deliver(t: Tables, token: Token, keys: set<Key>, at: Time, party: bool): (u: Tables)
    ensures u == t.(deliveries := u.deliveries)
    ensures forall r :: r in u.deliveries <==> r in t.deliveries || (r.token == token && r.key in keys)
    ensures forall r | r in u.deliveries ::
      u.deliveries[r] == if r.token == token && r.key in keys then Delivery(at, party) else t.deliveries[r]
  {
    t.(deliveries := t.deliveries + map k | k in keys :: Receipt(token, k) := Delivery(at, party))
  }

  /** A solo claim delivers everything of the repositories the token has not received. */
  function AfterClaim(t: Tables, token: Token, repositories: set<Repository>, at: Time): Tables {
    Deliver(t, token, Unreceived(t, token, repositories), at, false)
  }

  // ---------------------------------------------------------------- party claims

  datatype PartyClaim = PartyClaim(
    token: Token,
    repositories: set<Repository>,
    at: Time,
    day: int,
    activeSince: Time)

  datatype PartyResult = PartyResult(delivered: seq<Key>, taken: int, waiting: int)

  function WaitingKeys(t: Tables, claim: PartyClaim): set<Key> {
    set k | k in Unreceived(t, claim.token, claim.repositories) && !AtCap(t, k)
  }

  function TakenByOthers(t: Tables, claim: PartyClaim): set<Key> {
    set k | k in Unreceived(t, claim.token, claim.repositories) && AtCap(t, k)
  }

  function WaitingRepositories(t: Tables, claim: PartyClaim): set<Repository> {
    set k | k in WaitingKeys(t, claim) :: k.repository
  }

  /** The other active members of the party that have not received the pull request, by token. */
  function CandidatesOf(t: Tables, claim: PartyClaim, k: Key): seq<Token> {
    SortedNames(Members(t, k.repository, claim.activeSince) - {claim.token} - Holders(t, k))
  }

  function WaitingOf(t: Tables, claim: PartyClaim, k: Key): WaitingPullRequest
    requires k in t.pullRequests
  {
    var row := t.pullRequests[k];
    WaitingPullRequest(k, row.reviewers, row.deadlineAt, |PartyHolders(t, k)|, CandidatesOf(t, claim, k))
  }

  function WaitingInOrder(t: Tables, claim: PartyClaim): seq<Key> {
    FeedOrder(t.pullRequests, WaitingKeys(t, claim))
  }

  lemma WaitingListed(t: Tables, claim: PartyClaim)
    ensures var waiting := WaitingInOrder(t, claim);
            && |waiting| == |WaitingKeys(t, claim)| && Distinct(waiting)
            && forall k :: k in waiting <==> k in WaitingKeys(t, claim)
  {
  }

  function RoundLoads(t: Tables, claim: PartyClaim): map<Member, int> {
    map load | load in t.loads && load.day == claim.day && load.repository in WaitingRepositories(t, claim)
      :: Member(load.token, load.repository) := t.loads[load]
  }

  /** The round the turn rule judges, as the tables determine it. */
  function RoundOf(t: Tables, claim: PartyClaim): PartyRound {
    var waiting := WaitingInOrder(t, claim);
    PartyRound(
      claim.token, claim.at,
      seq(|waiting|, i requires 0 <= i < |waiting| => assert waiting[i] in waiting; WaitingOf(t, claim, waiting[i])),
      RoundLoads(t, claim))
  }

  lemma RoundEntry(t: Tables, claim: PartyClaim, i: nat)
    requires i < |WaitingInOrder(t, claim)|
    ensures |RoundOf(t, claim).pullRequests| == |WaitingInOrder(t, claim)|
    ensures var k := WaitingInOrder(t, claim)[i];
            k in WaitingKeys(t, claim) && RoundOf(t, claim).pullRequests[i] == WaitingOf(t, claim, k)
  {
  }

  /** The loads of days before the given one are deleted. */
  function PruneLoads(t: Tables, day: int): Tables {
    t.(loads := map load | load in t.loads && load.day >= day :: t.loads[load])
  }

  /** The token's load rows of the day for the repositories of the keys. */
  function LoadsOfKeys(day: int, token: Token, keys: seq<Key>): (loads: set<LoadKey>)
    ensures forall load :: load in loads <==> load.day == day && load.token == token && CountIn(keys, load.repository) > 0
  {
    var loads := set k | k in keys :: LoadKey(day, k.repository, token);
    assert forall load: LoadKey :: load in loads <==> load.day == day && load.token == token && CountIn(keys, load.repository) > 0 by {
      forall load: LoadKey { CountInPositive(keys, load.repository); }
      assert forall k | k in keys :: LoadKey(day, k.repository, token) in loads;
    }
    loads
  }

  /** The token's load of the day rises by the number of keys of each repository. */
  function AddLoads(t: Tables, day: int, token: Token, keys: seq<Key>): Tables {
    t.(loads := t.loads + map load | load in LoadsOfKeys(day, token, keys)
         :: LoadOf(t, day, load.repository, token) + CountIn(keys, load.repository))
  }

  function KeySet(keys: seq<Key>): set<Key> {
    set k | k in keys
  }

  /** The taken keys become party deliveries and count toward the loads of the day. */
  function RecordTake(t: Tables, claim: PartyClaim, take: seq<Key>): Tables {
    AddLoads(Deliver(t, claim.token, KeySet(take), claim.at, true), claim.day, claim.token, take)
  }

  function AfterPartyClaim(t: Tables, claim: PartyClaim): Tables {
    if claim.repositories == {} then t
    else RecordTake(PruneLoads(t, claim.day), claim, Decision(RoundOf(t, claim)).take)
  }

  /** What a party claim reports: the pull requests delivered, those at their cap and those where others have the turn. */
  function PartyResultOf(t: Tables, claim: PartyClaim): PartyResult {
    if claim.repositories == {} then PartyResult([], 0, 0)
    else
      var decision := Decision(RoundOf(t, claim));
      PartyResult(decision.take, |TakenByOthers(t, claim)| + decision.taken, decision.waiting)
  }

  // ---------------------------------------------------------------- pull request rows

  /** The row after a conflict: a creation time once known and a record time once set survive, guarded party values too. */
  function MergeRow(stored: Row, excluded: Row, keepStoredParty: bool): Row {
    var keep := keepStoredParty && stored.recordedAt.Some?;
    Row(
      excluded.details,
      if excluded.createdAt.Some? then excluded.createdAt else stored.createdAt,
      excluded.updatedAt,
      if keep then stored.reviewers else excluded.reviewers,
      if stored.recordedAt.Some? then stored.recordedAt else excluded.recordedAt,
      if keep then stored.deadlineAt else excluded.deadlineAt)
  }

  function AfterUpsert(t: Tables, k: Key, row: Row, keepStoredParty: bool): Tables {
    t.(pullRequests :=
      t.pullRequests[k := if k in t.pullRequests then MergeRow(t.pullRequests[k], row, keepStoredParty) else row])
  }

  /** Deleting pull requests deletes their deliveries; loads stay. */
  function AfterDelete(t: Tables, keys: set<Key>): Tables {
    t.(pullRequests := t.pullRequests - keys,
       deliveries := map r | r in t.deliveries && r.key !in keys :: t.deliveries[r])
  }

  // ---------------------------------------------------------------- subscriptions and fetches

  /** One subscription row per repository. */
  function FollowRows(token: Token, repositories: set<Repository>): (rows: set<Follow>)
    ensures forall f :: f in rows <==> f.token == token && f.repository in repositories
  {
    set repository | repository in repositories :: Follow(token, repository)
  }

  /** New rows for repositories not yet followed; a present row stays as it is. */
  function AfterSubscribe(t: Tables, token: Token, repositories: set<Repository>, kind: SubscriptionType): Tables {
    t.(subscriptions := (map f | f in FollowRows(token, repositories) :: kind) + t.subscriptions)
  }

  function AfterUnsubscribe(t: Tables, follows: set<Follow>): Tables {
    t.(subscriptions := t.subscriptions - follows)
  }

  /** None stands for every subscription of the token. */
  function AfterSetType(t: Tables, token: Token, repositories: Option<set<Repository>>,
                        kind: SubscriptionType): Tables {
    t.(subscriptions := map f | f in t.subscriptions ::
         if f.token == token && (repositories.None? || f.repository in repositories.value) then kind
         else t.subscriptions[f])
  }

  /** A stored fetch time less than the resolution older stays. */
  function AfterFetch(t: Tables, token: Token, at: Time): Tables {
    if token in t.fetches && t.fetches[token] >= at - FETCH_RESOLUTION then t
    else t.(fetches := t.fetches[token := at])
  }

  // ---------------------------------------------------------------- whose type decides

  /** A subscription by name decides for its repository, whatever the "*" subscription says. */
  lemma OwnTypeDecides(t: Tables, token: Token, repository: Repository, kind: SubscriptionType)
    requires Follow(token, repository) in t.subscriptions
    ensures TypeFor(t, token, repository) == Some(t.subscriptions[Follow(token, repository)])
    ensures TypeFor(AfterSetType(t, token, Some({repository}), kind), token, repository) == Some(kind)
    ensures TypeFor(AfterSubscribe(t, token, {repository}, kind), token, repository) == TypeFor(t, token, repository)
  {
  }

  /** Without a subscription by name the "*" subscription decides, and without either nothing does. */
  lemma AllTypeDecidesTheRest(t: Tables, token: Token, repository: Repository)
    requires Follow(token, repository) !in t.subscriptions
    ensures Follow(token, ALL_REPOSITORIES) in t.subscriptions ==>
      TypeFor(t, token, repository) == Some(t.subscriptions[Follow(token, ALL_REPOSITORIES)])
    ensures Follow(token, ALL_REPOSITORIES) !in t.subscriptions ==> TypeFor(t, token, repository) == None
  {
  }

  /** A dropped subscription is gone, the others stay, and "*" decides for the repository again. */
  lemma DroppedFallsBack(t: Tables, token: Token, repository: Repository)
    requires repository != ALL_REPOSITORIES
    ensures var u := AfterUnsubscribe(t, {Follow(token, repository)});
      && (forall f :: f in u.subscriptions <==> f in t.subscriptions && f != Follow(token, repository))
      && (forall f | f in u.subscriptions :: u.subscriptions[f] == t.subscriptions[f])
      && TypeFor(u, token, repository) == TypeFor(t.(subscriptions := t.subscriptions - {Follow(token, repository)}), token, "*")
  {
  }
}
