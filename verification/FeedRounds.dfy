/** From the rows a party claim reads to the round the turn rule judges. */
module FeedRounds {
  import opened Optional
  import opened Sorting
  import opened FeedModel
  import opened FeedTurnPolicy
  import opened FeedTransactions

  datatype WaitingRow = WaitingRow(key: Key, reviewers: int, deadlineAt: Option<Time>)
  datatype DeliveryRow = DeliveryRow(receipt: Receipt, delivery: Delivery)
  datatype LoadRow = LoadRow(load: LoadKey, taken: int)

  datatype Snapshot = Snapshot(
    waiting: seq<WaitingRow>,
    deliveries: seq<DeliveryRow>,
    members: map<Repository, seq<Token>>,
    loads: seq<LoadRow>)

  function WaitingRowOf(t: Tables, k: Key): WaitingRow
    requires k in t.pullRequests
  {
    WaitingRow(k, t.pullRequests[k].reviewers, t.pullRequests[k].deadlineAt)
  }

  /** The waiting pull requests in feed order, one row each. */
  ghost predicate ReadsWaiting(t: Tables, claim: PartyClaim, waiting: seq<WaitingRow>) {
    var keys := WaitingInOrder(t, claim);
    && |waiting| == |keys|
    && forall i | 0 <= i < |keys| :: keys[i] in t.pullRequests && waiting[i] == WaitingRowOf(t, keys[i])
  }

  /** Every delivery of the waiting pull requests, once. */
  ghost predicate ReadsDeliveries(t: Tables, claim: PartyClaim, deliveries: seq<DeliveryRow>) {
    && Distinct(deliveries)
    && forall row :: row in deliveries <==>
         row.receipt in t.deliveries && row.receipt.key in WaitingKeys(t, claim) && row.delivery == t.deliveries[row.receipt]
  }

  /** The other active members of each waiting repository, by token. */
  ghost predicate ReadsMembers(t: Tables, claim: PartyClaim, members: map<Repository, seq<Token>>) {
    && members.Keys == WaitingRepositories(t, claim)
    && forall repository | repository in members ::
         members[repository] == SortedNames(Members(t, repository, claim.activeSince) - {claim.token})
  }

  /** The loads of the claim's day in the waiting repositories. */
  ghost predicate ReadsLoads(t: Tables, claim: PartyClaim, loads: seq<LoadRow>) {
    forall row :: row in loads <==>
      && row.load in t.loads && row.taken == t.loads[row.load]
      && row.load.day == claim.day && row.load.repository in WaitingRepositories(t, claim)
  }

  ghost predicate Reads(t: Tables, claim: PartyClaim, snapshot: Snapshot) {
    && ReadsWaiting(t, claim, snapshot.waiting)
    && ReadsDeliveries(t, claim, snapshot.deliveries)
    && ReadsMembers(t, claim, snapshot.members)
    && ReadsLoads(t, claim, snapshot.loads)
  }

  // ---------------------------------------------------------------- deliveries by key

  function OfKey(rows: seq<DeliveryRow>, k: Key): seq<DeliveryRow> {
    if rows == [] then []
    else
      var earlier, last := OfKey(rows[..|rows| - 1], k), rows[|rows| - 1];
      if last.receipt.key == k then earlier + [last] else earlier
  }

  lemma {:induction false} OfKeyKeepsRows(rows: seq<DeliveryRow>, k: Key)
    ensures forall row :: row in OfKey(rows, k) <==> row in rows && row.receipt.key == k
    ensures Distinct(rows) ==> Distinct(OfKey(rows, k))
  {
    if rows != [] {
      var init, last := rows[..|rows| - 1], rows[|rows| - 1];
      assert rows == init + [last];
      OfKeyKeepsRows(init, k);
      if Distinct(rows) { assert last !in init; }
    }
  }

  function Lookup(byKey: map<Key, seq<DeliveryRow>>, k: Key): seq<DeliveryRow> {
    if k in byKey then byKey[k] else []
  }

  method DeliveriesByKey(deliveries: seq<DeliveryRow>) returns (byKey: map<Key, seq<DeliveryRow>>)
    ensures forall k :: Lookup(byKey, k) == OfKey(deliveries, k)
  {
    byKey := map[];
    for i := 0 to |deliveries|
      invariant forall k :: Lookup(byKey, k) == OfKey(deliveries[..i], k)
    {
      var row := deliveries[i];
      assert deliveries[..i + 1][..i] == deliveries[..i];
      byKey := byKey[row.receipt.key := Lookup(byKey, row.receipt.key) + [row]];
    }
    assert deliveries[..|deliveries|] == deliveries;
  }

  // ---------------------------------------------------------------- counts and candidates

  function PartyTokens(rows: seq<DeliveryRow>): set<Token> {
    set row | row in rows && row.delivery.party :: row.receipt.token
  }

  /** The rows of one pull request name each token at most once, so counting rows counts tokens. */
  method CountPartyDeliveries(deliveries: seq<DeliveryRow>) returns (count: nat)
    requires forall i, j | 0 <= i < j < |deliveries| :: deliveries[i].receipt.token != deliveries[j].receipt.token
    ensures count == |PartyTokens(deliveries)|
  {
    count := 0;
    for i := 0 to |deliveries|
      invariant count == |PartyTokens(deliveries[..i])|
    {
      var row := deliveries[i];
      assert deliveries[..i + 1] == deliveries[..i] + [row];
      if row.delivery.party {
        assert PartyTokens(deliveries[..i + 1]) == PartyTokens(deliveries[..i]) + {row.receipt.token};
        count := count + 1;
      } else {
        assert PartyTokens(deliveries[..i + 1]) == PartyTokens(deliveries[..i]);
      }
    }
    assert deliveries[..|deliveries|] == deliveries;
  }

  function Tokens(rows: seq<DeliveryRow>): set<Token> {
    set row | row in rows :: row.receipt.token
  }

  method CandidatesWithoutDelivery(members: seq<Token>, deliveries: seq<DeliveryRow>, claimant: Token)
    returns (candidates: seq<Token>)
    requires Increasing(members, Less)
    ensures candidates == SortedNames((set m | m in members) - Tokens(deliveries) - {claimant})
  {
    var delivered := {claimant};
    for i := 0 to |deliveries|
      invariant delivered == {claimant} + Tokens(deliveries[..i])
    {
      assert deliveries[..i + 1] == deliveries[..i] + [deliveries[i]];
      delivered := delivered + {deliveries[i].receipt.token};
    }
    assert deliveries[..|deliveries|] == deliveries;
    ghost var kept := (set m | m in members) - Tokens(deliveries) - {claimant};
    candidates := [];
    for i := 0 to |members|
      invariant Increasing(candidates, Less)
      invariant forall c :: c in candidates <==> c in kept && c in members[..i]
      invariant delivered == {claimant} + Tokens(deliveries) + (set c | c in candidates)
    {
      var member := members[i];
      assert members[..i + 1] == members[..i] + [member];
      forall c | c in candidates ensures Less(c, member) {
        var j :| 0 <= j < i && members[j] == c;
      }
      LessTotal(member, member);
      if member !in delivered {
        candidates := candidates + [member];
        delivered := delivered + {member};
      }
    }
    IncreasingNames(candidates, kept);
  }

  lemma IncreasingNames(names: seq<string>, elements: set<string>)
    requires Increasing(names, Less)
    requires forall x :: x in names <==> x in elements
    ensures names == SortedNames(elements)
  {
    LessIsStrictOrder(elements);
    forall x, y | x in names && y in names ensures !(Less(x, y) && Less(y, x)) { LessTotal(x, y); }
    IncreasingUnique(names, SortedNames(elements), Less);
  }

  // ---------------------------------------------------------------- the round

  method LoadsByMember(ghost t: Tables, claim: PartyClaim, rows: seq<LoadRow>) returns (loads: map<Member, int>)
    requires ReadsLoads(t, claim, rows)
    ensures loads == RoundLoads(t, claim)
  {
    loads := map[];
    for i := 0 to |rows|
      invariant forall row | row in rows[..i] :: Member(row.load.token, row.load.repository) in loads
      invariant forall m | m in loads :: m in RoundLoads(t, claim) && loads[m] == RoundLoads(t, claim)[m]
    {
      var row := rows[i];
      assert rows[..i + 1] == rows[..i] + [row];
      assert row in rows;
      loads := loads[Member(row.load.token, row.load.repository) := row.taken];
    }
    forall m | m in RoundLoads(t, claim) ensures m in loads {
      var load := LoadKey(claim.day, m.repository, m.token);
      assert LoadRow(load, t.loads[load]) in rows;
    }
  }

  lemma NamesWithout(members: seq<Token>, all: set<Token>, delivered: set<Token>, claimant: Token)
    requires members == SortedNames(all - {claimant})
    ensures (set m | m in members) - delivered - {claimant} == all - {claimant} - delivered
  {
  }

  ghost predicate OwnRows(t: Tables, own: seq<DeliveryRow>, k: Key) {
    && (forall i, j | 0 <= i < j < |own| :: own[i].receipt.token != own[j].receipt.token)
    && PartyTokens(own) == PartyHolders(t, k)
    && Tokens(own) == Holders(t, k)
  }

  method PullRequestOfRow(ghost t: Tables, claim: PartyClaim, row: WaitingRow, deliveries: seq<DeliveryRow>,
                          members: seq<Token>)
    returns (pullRequest: WaitingPullRequest)
    requires OwnRows(t, deliveries, row.key)
    requires members == SortedNames(Members(t, row.key.repository, claim.activeSince) - {claim.token})
    requires row.key in t.pullRequests && row == WaitingRowOf(t, row.key)
    ensures pullRequest == WaitingOf(t, claim, row.key)
  {
    var partyDeliveries := CountPartyDeliveries(deliveries);
    var candidates := CandidatesWithoutDelivery(members, deliveries, claim.token);
    NamesWithout(members, Members(t, row.key.repository, claim.activeSince), Tokens(deliveries), claim.token);
    pullRequest := WaitingPullRequest(row.key, row.reviewers, row.deadlineAt, partyDeliveries, candidates);
  }

  /** The pull requests of the round match the waiting keys one by one. */
  ghost predicate Matches(t: Tables, claim: PartyClaim, keys: seq<Key>, pullRequests: seq<WaitingPullRequest>) {
    && |pullRequests| <= |keys|
    && forall j | 0 <= j < |pullRequests| :: keys[j] in t.pullRequests && pullRequests[j] == WaitingOf(t, claim, keys[j])
  }

  lemma MatchingRound(t: Tables, claim: PartyClaim, pullRequests: seq<WaitingPullRequest>)
    requires Matches(t, claim, WaitingInOrder(t, claim), pullRequests)
    requires |pullRequests| == |WaitingInOrder(t, claim)|
    ensures RoundOf(t, claim) == PartyRound(claim.token, claim.at, pullRequests, RoundLoads(t, claim))
  {
    assert RoundOf(t, claim).pullRequests == pullRequests;
  }

  method RowToPullRequest(ghost t: Tables, claim: PartyClaim, snapshot: Snapshot, byKey: map<Key, seq<DeliveryRow>>,
                          row: WaitingRow)
    returns (pullRequest: WaitingPullRequest)
    requires ReadsDeliveries(t, claim, snapshot.deliveries) && ReadsMembers(t, claim, snapshot.members)
    requires Lookup(byKey, row.key) == OfKey(snapshot.deliveries, row.key)
    requires row.key in WaitingKeys(t, claim) && row == WaitingRowOf(t, row.key)
    ensures pullRequest == WaitingOf(t, claim, row.key)
  {
    DeliveriesOfWaiting(t, claim, snapshot.deliveries, row.key);
    assert row.key.repository in snapshot.members.Keys;
    pullRequest := PullRequestOfRow(t, claim, row, Lookup(byKey, row.key), snapshot.members[row.key.repository]);
  }

  /** The rows of the snapshot make exactly the round the tables determine. */
  method PartyRoundFromSnapshot(ghost t: Tables, claim: PartyClaim, snapshot: Snapshot) returns (round: PartyRound)
    requires Reads(t, claim, snapshot)
    ensures round == RoundOf(t, claim)
  {
    var loads := LoadsByMember(t, claim, snapshot.loads);
    WaitingListed(t, claim);
    var pullRequests := WaitingPullRequests(t, claim, WaitingInOrder(t, claim), snapshot);
    MatchingRound(t, claim, pullRequests);
    round := PartyRound(claim.token, claim.at, pullRequests, loads);
  }

  method WaitingPullRequests(ghost t: Tables, claim: PartyClaim, ghost keys: seq<Key>, snapshot: Snapshot)
    returns (pullRequests: seq<WaitingPullRequest>)
    requires ReadsDeliveries(t, claim, snapshot.deliveries) && ReadsMembers(t, claim, snapshot.members)
    requires |snapshot.waiting| == |keys|
    requires forall i | 0 <= i < |keys| :: keys[i] in WaitingKeys(t, claim) && snapshot.waiting[i] == WaitingRowOf(t, keys[i])
    ensures |pullRequests| == |keys| && Matches(t, claim, keys, pullRequests)
  {
    hide ReadsDeliveries, ReadsMembers, WaitingOf;
    var byKey := DeliveriesByKey(snapshot.deliveries);
    pullRequests := [];
    for i := 0 to |snapshot.waiting|
      invariant |pullRequests| == i && Matches(t, claim, keys, pullRequests)
    {
      var pullRequest := RowToPullRequest(t, claim, snapshot, byKey, snapshot.waiting[i]);
      pullRequests := pullRequests + [pullRequest];
    }
  }

  lemma DeliveriesOfWaiting(t: Tables, claim: PartyClaim, rows: seq<DeliveryRow>, k: Key)
    requires ReadsDeliveries(t, claim, rows) && k in WaitingKeys(t, claim)
    ensures OwnRows(t, OfKey(rows, k), k)
  {
    OfKeyKeepsRows(rows, k);
    var own := OfKey(rows, k);
    forall i, j | 0 <= i < j < |own| ensures own[i].receipt.token != own[j].receipt.token {
      assert own[i] in own && own[j] in own;
    }
    forall r | r in t.deliveries && r.key == k ensures DeliveryRow(r, t.deliveries[r]) in own {
    }
    forall token ensures token in PartyTokens(own) <==> token in PartyHolders(t, k) {
      if token in PartyTokens(own) {
        var row :| row in own && row.delivery.party && row.receipt.token == token;
        assert row.receipt in t.deliveries;
      }
      if token in PartyHolders(t, k) {
        assert DeliveryRow(Receipt(token, k), t.deliveries[Receipt(token, k)]) in own;
      }
    }
    forall token ensures token in Tokens(own) <==> token in Holders(t, k) {
      if token in Tokens(own) {
        var row :| row in own && row.receipt.token == token;
        assert row.receipt in t.deliveries;
      }
      if token in Holders(t, k) {
        assert DeliveryRow(Receipt(token, k), t.deliveries[Receipt(token, k)]) in own;
      }
    }
  }
}
