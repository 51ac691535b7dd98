/**
 The tables of the agent feed and the queries over them. A table is a map from
 its primary key; a NULL column or a zero time is None; a moment is a number of
 nanoseconds.
 */
module FeedModel {
  import opened Optional
  import opened Sorting

  type Token = string
  type Repository = string
  type Time = int

  const SECOND: Time := 1_000_000_000
  const DAY_LENGTH: Time := 86400 * SECOND
  /** A member silent for longer than this is away. */
  const AWAY_AFTER: Time := 24 * 3600 * SECOND
  /** Fetches this close to the stored one are not worth a write. */
  const FETCH_RESOLUTION: Time := 60 * SECOND
  const ALL_REPOSITORIES: Repository := "*"

  /** The UTC day of a moment; the party loads of a day are counted apart. */
  function LoadDay(moment: Time): int {
    moment / DAY_LENGTH
  }

  datatype SubscriptionType = Solo | Party

  datatype Key = Key(repository: Repository, number: int)

  /** feed_pull_requests without its key. details stands for the text columns. */
  datatype Row = Row(
    details: string,
    createdAt: Option<Time>,
    updatedAt: Time,
    reviewers: int,
    recordedAt: Option<Time>,
    deadlineAt: Option<Time>)

  datatype Follow = Follow(token: Token, repository: Repository)
  datatype Receipt = Receipt(token: Token, key: Key)
  datatype Delivery = Delivery(at: Time, party: bool)
  datatype LoadKey = LoadKey(day: int, repository: Repository, token: Token)

  datatype Tables = Tables(
    subscriptions: map<Follow, SubscriptionType>,
    pullRequests: map<Key, Row>,
    deliveries: map<Receipt, Delivery>,
    loads: map<LoadKey, int>,
    fetches: map<Token, Time>)

  /** The foreign key of feed_deliveries: a delivery belongs to a stored pull request. */
  ghost predicate ForeignKey(t: Tables) {
    forall r | r in t.deliveries :: r.key in t.pullRequests
  }

  // ---------------------------------------------------------------- order

  /** ORDER BY updated_at, repository, number. */
  predicate Before(rows: map<Key, Row>, a: Key, b: Key) {
    && a in rows && b in rows
    && (rows[a].updatedAt < rows[b].updatedAt
        || (rows[a].updatedAt == rows[b].updatedAt
            && (Less(a.repository, b.repository)
                || (a.repository == b.repository && a.number < b.number))))
  }

  lemma BeforeTotal(rows: map<Key, Row>, a: Key, b: Key)
    requires a in rows && b in rows
    ensures !(Before(rows, a, b) && Before(rows, b, a))
    ensures a == b <==> !Before(rows, a, b) && !Before(rows, b, a)
  {
    LessTotal(a.repository, b.repository);
  }

  lemma BeforeTransitive(rows: map<Key, Row>, a: Key, b: Key, c: Key)
    requires Before(rows, a, b) && Before(rows, b, c)
    ensures Before(rows, a, c)
  {
    if Less(a.repository, b.repository) && Less(b.repository, c.repository) {
      LessTransitive(a.repository, b.repository, c.repository);
    }
  }

  lemma BeforeIsStrictOrder(rows: map<Key, Row>, keys: set<Key>)
    requires keys <= rows.Keys
    ensures StrictOrderOn(keys, (a, b) => Before(rows, a, b))
  {
    forall a | a in keys ensures !Before(rows, a, a) { BeforeTotal(rows, a, a); }
    forall a, b, c | a in keys && b in keys && c in keys && Before(rows, a, b) && Before(rows, b, c)
      ensures Before(rows, a, c)
    {
      BeforeTransitive(rows, a, b, c);
    }
    forall a, b | a in keys && b in keys ensures a == b || Before(rows, a, b) || Before(rows, b, a) {
      BeforeTotal(rows, a, b);
    }
  }

  /** The keys in feed order: oldest update first, then repository, then number. */
  function FeedOrder(rows: map<Key, Row>, keys: set<Key>): (r: seq<Key>)
    requires keys <= rows.Keys
    ensures |r| == |keys|
    ensures forall k :: k in r <==> k in keys
    ensures forall i, j | 0 <= i < j < |r| :: Before(rows, r[i], r[j])
    ensures Distinct(r)
  {
    BeforeIsStrictOrder(rows, keys);
    Sorted(keys, (a, b) => Before(rows, a, b))
  }

  /** Feed order is the only way to list the keys with no later key before an earlier one. */
  lemma FeedOrderUnique(rows: map<Key, Row>, listed: seq<Key>, keys: set<Key>)
    requires keys <= rows.Keys
    requires forall k :: k in listed <==> k in keys
    requires forall i, j | 0 <= i < j < |listed| :: Before(rows, listed[i], listed[j])
    ensures listed == FeedOrder(rows, keys)
  {
    forall a | a in listed ensures !Before(rows, a, a) { BeforeTotal(rows, a, a); }
    forall a, b | a in listed && b in listed ensures !(Before(rows, a, b) && Before(rows, b, a)) {
      BeforeTotal(rows, a, b);
    }
    IncreasingUnique(listed, FeedOrder(rows, keys), (a, b) => Before(rows, a, b));
  }

  // ---------------------------------------------------------------- queries

  /** What is stored in the repositories and has no receipt of the token. */
  function Unreceived(t: Tables, token: Token, repositories: set<Repository>): set<Key> {
    set k | k in t.pullRequests && k.repository in repositories && Receipt(token, k) !in t.deliveries
  }

  /** The tokens that hold a party delivery of the pull request. */
  function PartyHolders(t: Tables, k: Key): (holders: set<Token>)
    ensures forall token :: token in holders <==> Receipt(token, k) in t.deliveries && t.deliveries[Receipt(token, k)].party
  {
    set r | r in t.deliveries && r.key == k && t.deliveries[r].party :: r.token
  }

  /** The tokens that hold any delivery of the pull request. */
  function Holders(t: Tables, k: Key): (holders: set<Token>)
    ensures forall token :: token in holders <==> Receipt(token, k) in t.deliveries
  {
    set r | r in t.deliveries && r.key == k :: r.token
  }

  predicate AtCap(t: Tables, k: Key)
    requires k in t.pullRequests
  {
    |PartyHolders(t, k)| >= t.pullRequests[k].reviewers
  }

  /** The subscription type that decides for the repository: its own row, else the "*" row. */
  function TypeFor(t: Tables, token: Token, repository: Repository): Option<SubscriptionType> {
    if Follow(token, repository) in t.subscriptions then Some(t.subscriptions[Follow(token, repository)])
    else if Follow(token, ALL_REPOSITORIES) in t.subscriptions then Some(t.subscriptions[Follow(token, ALL_REPOSITORIES)])
    else None
  }

  /**
   The party member query: a subscription row of type party, for the repository
   itself or for "*" when the token has no row of its own for the repository,
   of a token that fetched since activeSince.
   */
  predicate IsMember(t: Tables, repository: Repository, activeSince: Time, token: Token) {
    && token in t.fetches && t.fetches[token] >= activeSince
    && ((Follow(token, repository) in t.subscriptions && t.subscriptions[Follow(token, repository)] == Party)
        || (&& Follow(token, ALL_REPOSITORIES) in t.subscriptions
            && t.subscriptions[Follow(token, ALL_REPOSITORIES)] == Party
            && Follow(token, repository) !in t.subscriptions))
  }

  function Members(t: Tables, repository: Repository, activeSince: Time): set<Token> {
    set token | token in t.fetches && IsMember(t, repository, activeSince, token)
  }

  function LoadOf(t: Tables, day: int, repository: Repository, token: Token): int {
    if LoadKey(day, repository, token) in t.loads then t.loads[LoadKey(day, repository, token)] else 0
  }

  /** Pull requests updated since, or delivered to the token since, solo or party. */
  function ChangedKeys(t: Tables, token: Token, repositories: set<Repository>, since: Time): set<Key> {
    set k | k in t.pullRequests && k.repository in repositories
      && (t.pullRequests[k].updatedAt >= since
          || (Receipt(token, k) in t.deliveries && t.deliveries[Receipt(token, k)].at >= since))
  }

  /** Pull requests the token received that were updated since or delivered to it since. */
  function ReceivedKeys(t: Tables, token: Token, repositories: set<Repository>, since: Time): set<Key> {
    set k | k in t.pullRequests && k.repository in repositories && Receipt(token, k) in t.deliveries
      && (t.pullRequests[k].updatedAt >= since || t.deliveries[Receipt(token, k)].at >= since)
  }

  /** Lists the token's subscriptions, each repository once. */
  ghost predicate IsListing(t: Tables, token: Token, listed: seq<(Repository, SubscriptionType)>) {
    && (forall i, j | 0 <= i < j < |listed| :: listed[i].0 != listed[j].0)
    && (forall entry :: entry in listed <==>
          Follow(token, entry.0) in t.subscriptions && t.subscriptions[Follow(token, entry.0)] == entry.1)
  }

  /** How many of the keys are of the repository. */
  function CountIn(keys: seq<Key>, repository: Repository): (n: nat)
    ensures n <= |keys|
  {
    if keys == [] then 0
    else CountIn(keys[..|keys| - 1], repository) + (if keys[|keys| - 1].repository == repository then 1 else 0)
  }

  lemma CountInAppend(keys: seq<Key>, k: Key, repository: Repository)
    ensures CountIn(keys + [k], repository) == CountIn(keys, repository) + (if k.repository == repository then 1 else 0)
  {
  }

  lemma {:induction false} CountInPositive(keys: seq<Key>, repository: Repository)
    ensures CountIn(keys, repository) > 0 <==> exists k :: k in keys && k.repository == repository
  {
    if keys != [] {
      var init, last := keys[..|keys| - 1], keys[|keys| - 1];
      assert keys == init + [last];
      CountInPositive(init, repository);
    }
  }

  // ---------------------------------------------------------------- what order and days are

  /** Feed order is oldest update first; of the same update the repositories by name, of one repository the numbers. */
  lemma OldestFirst(rows: map<Key, Row>, keys: set<Key>, i: nat, j: nat)
    requires keys <= rows.Keys && i < j < |keys|
    ensures |FeedOrder(rows, keys)| == |keys|
    ensures var a, b := FeedOrder(rows, keys)[i], FeedOrder(rows, keys)[j];
      && a in keys && b in keys && rows[a].updatedAt <= rows[b].updatedAt
      && (rows[a].updatedAt == rows[b].updatedAt && a.repository != b.repository ==> Less(a.repository, b.repository))
      && (rows[a].updatedAt == rows[b].updatedAt && a.repository == b.repository ==> a.number < b.number)
  {
    var listed := FeedOrder(rows, keys);
    assert listed[i] in listed && listed[j] in listed;
    assert Before(rows, listed[i], listed[j]);
    LessTotal(listed[i].repository, listed[j].repository);
  }

  /** The day of a moment holds the moment, and a day is 86400 seconds of a billion nanoseconds. */
  lemma MomentInItsDay(moment: Time)
    ensures 86_400_000_000_000 * LoadDay(moment) <= moment < 86_400_000_000_000 * (LoadDay(moment) + 1)
  {
  }
}
