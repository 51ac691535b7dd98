/**
 No deadlock in a review party: as long as a pull request is below its cap and
 an active member lacks it, someone can take one now, before any deadline; and
 repeated rounds over the active members come to rest only when nothing is left.
 */
module FeedProgress {
  import opened Optional
  import opened Sorting
  import opened FeedModel
  import opened FeedTurnPolicy
  import opened FeedTransactions
  import opened FeedRuns
  import opened FeedRequests

  // ---------------------------------------------------------------- one claim

  lemma {:induction false} TakenGrows(round: PartyRound, i: nat, n: nat, k: Key)
    requires i <= n <= |round.pullRequests|
    requires k in TakenKeys(round, i)
    ensures k in TakenKeys(round, n)
  {
    if i < n {
      TakenGrows(round, i, n - 1, k);
    }
  }

  /** In a waiting repository the round knows every member's load of the day. */
  lemma RoundKnowsLoads(t: Tables, claim: PartyClaim, k: Key, token: Token)
    requires k in WaitingKeys(t, claim)
    ensures LoadIn(RoundOf(t, claim).loads, Member(token, k.repository)) == LoadOf(t, claim.day, k.repository, token)
  {
  }

  /** The position of a waiting key in the round. */
  lemma WaitingIndex(t: Tables, claim: PartyClaim, k: Key) returns (i: nat)
    requires k in WaitingKeys(t, claim)
    ensures k in t.pullRequests
    ensures i < |RoundOf(t, claim).pullRequests| && RoundOf(t, claim).pullRequests[i] == WaitingOf(t, claim, k)
  {
    var waiting := WaitingInOrder(t, claim);
    assert k in waiting;
    i :| 0 <= i < |waiting| && waiting[i] == k;
    RoundEntry(t, claim, i);
  }

  /** No member that lacks the pull request has a lower load than the claimant. */
  ghost predicate LeastLoaded(t: Tables, claim: PartyClaim, k: Key) {
    forall other | other in Members(t, k.repository, claim.activeSince) && Receipt(other, k) !in t.deliveries ::
      LoadOf(t, claim.day, k.repository, claim.token) <= LoadOf(t, claim.day, k.repository, other)
  }

  /** Without a take in its repository so far, the claimant takes a pull request of which it is the least loaded taker. */
  lemma LeastLoadedIsNotBlocked(t: Tables, claim: PartyClaim, k: Key, took: seq<Key>)
    requires k in WaitingKeys(t, claim) && LeastLoaded(t, claim, k)
    requires CountIn(took, k.repository) == 0
    ensures Judge(RoundOf(t, claim), took, WaitingOf(t, claim, k)) == Takes
  {
    hide RoundOf, WaitingOf, WaitingKeys, LighterCount;
    WaitingFacts(t, claim, k);
    var round, pullRequest := RoundOf(t, claim), WaitingOf(t, claim, k);
    forall c | c in pullRequest.candidates ensures !IsLighter(round, took, k.repository, c) {
      RoundKnowsLoads(t, claim, k, c);
      RoundKnowsLoads(t, claim, k, claim.token);
    }
    LighterCountZero(round, took, k.repository, pullRequest.candidates);
  }

  /** A waiting pull request is below its cap and its candidates are other active members that lack it. */
  lemma WaitingFacts(t: Tables, claim: PartyClaim, k: Key)
    requires k in WaitingKeys(t, claim)
    ensures k in t.pullRequests && RoundOf(t, claim).token == claim.token
    ensures var pullRequest := WaitingOf(t, claim, k);
      && pullRequest.key == k && pullRequest.partyDeliveries < pullRequest.reviewers
      && forall c | c in pullRequest.candidates ::
           c in Members(t, k.repository, claim.activeSince) && Receipt(c, k) !in t.deliveries && c != claim.token
  {
  }

  lemma WaitingKey(t: Tables, claim: PartyClaim, k: Key)
    requires k in t.pullRequests
    ensures WaitingOf(t, claim, k).key == k
  {
  }

  lemma TakeOfWaiting(t: Tables, claim: PartyClaim, k: Key)
    requires k in WaitingKeys(t, claim)
    ensures TakeOf(t, claim) == TakenKeys(RoundOf(t, claim), |RoundOf(t, claim).pullRequests|)
  {
  }

  /** The least loaded member that lacks a waiting pull request takes one of its repository, whatever the deadlines are. */
  lemma LeastLoadedTakes(t: Tables, claim: PartyClaim, k: Key)
    requires k in WaitingKeys(t, claim) && LeastLoaded(t, claim, k)
    ensures exists taken :: taken in TakeOf(t, claim) && taken.repository == k.repository
  {
    hide RoundOf, WaitingOf, LeastLoaded, WaitingKeys, TakeOf;
    TakeOfWaiting(t, claim, k);
    var round := RoundOf(t, claim);
    var n := |round.pullRequests|;
    var i := WaitingIndex(t, claim, k);
    var took := TakenKeys(round, i);
    if CountIn(took, k.repository) == 0 {
      LeastLoadedIsNotBlocked(t, claim, k, took);
      assert TakenKeys(round, i + 1) == took + [WaitingOf(t, claim, k).key];
      WaitingKey(t, claim, k);
      TakenGrows(round, i + 1, n, k);
    } else {
      CountInPositive(took, k.repository);
      var taken :| taken in took && taken.repository == k.repository;
      TakenGrows(round, i, n, taken);
    }
  }

  // ---------------------------------------------------------------- one request

  /** The two states look the same to a claim in the repository on the day, but for the fetch times. */
  ghost predicate SameFor(t: Tables, u: Tables, repository: Repository, day: int) {
    && u.pullRequests == t.pullRequests && u.subscriptions == t.subscriptions
    && (forall r: Receipt | r.key.repository == repository :: r in u.deliveries <==> r in t.deliveries)
    && (forall r: Receipt | r.key.repository == repository && r in u.deliveries && r in t.deliveries ::
          u.deliveries[r] == t.deliveries[r])
    && (forall token :: LoadOf(u, day, repository, token) == LoadOf(t, day, repository, token))
  }

  /** A solo claim leaves the repositories it does not name as they are. */
  lemma SoloClaimElsewhere(t: Tables, token: Token, repositories: set<Repository>, at: Time, repository: Repository,
                           day: int)
    requires repository !in repositories
    ensures SameFor(t, AfterClaim(t, token, repositories, at), repository, day)
    ensures AfterClaim(t, token, repositories, at).fetches == t.fetches
  {
  }

  /** The cap counts the same holders in both states. */
  lemma SameCap(t: Tables, u: Tables, k: Key, day: int)
    requires SameFor(t, u, k.repository, day) && k in t.pullRequests
    ensures AtCap(u, k) <==> AtCap(t, k)
  {
    forall token ensures token in PartyHolders(u, k) <==> token in PartyHolders(t, k) {
      assert Receipt(token, k).key.repository == k.repository;
    }
    assert PartyHolders(u, k) == PartyHolders(t, k);
  }

  /** What decides about a take of the least loaded is the same in both states. */
  lemma SameWaiting(t: Tables, u: Tables, claim: PartyClaim, k: Key)
    requires SameFor(t, u, k.repository, claim.day) && u.fetches == t.fetches
    requires k in WaitingKeys(t, claim) && LeastLoaded(t, claim, k)
    ensures k in WaitingKeys(u, claim) && LeastLoaded(u, claim, k)
  {
    SameCap(t, u, k, claim.day);
    assert Receipt(claim.token, k).key.repository == k.repository;
    assert Members(u, k.repository, claim.activeSince) == Members(t, k.repository, claim.activeSince);
    forall other | other in Members(u, k.repository, claim.activeSince) && Receipt(other, k) !in u.deliveries
      ensures LoadOf(u, claim.day, k.repository, claim.token) <= LoadOf(u, claim.day, k.repository, other)
    {
      assert Receipt(other, k) !in t.deliveries;
    }
  }

  /**
   No deadlock: if a configured repository has a pull request below its cap that active members lack,
   the request a least loaded one of them makes now is answered with a pull request of that repository.
   */
  lemma NoDeadlock(t: Tables, catalog: Catalog, member: Token, k: Key, now: Time)
    requires NamesRepositories(catalog) && catalog(k.repository)
    requires k in t.pullRequests && !AtCap(t, k)
    requires TypeFor(t, member, k.repository) == Some(Party) && Receipt(member, k) !in t.deliveries
    requires LeastLoaded(t, PartyClaimOf(t, catalog, member, now), k)
    ensures exists taken :: taken in NextKeys(t, catalog, member, now) && taken.repository == k.repository
  {
    hide TakeOf, AfterClaim, LeastLoaded, AtCap;
    var claim, solo := PartyClaimOf(t, catalog, member, now), Resolved(t, catalog, member, Solo);
    SoloClaimElsewhere(t, member, solo, now, k.repository, claim.day);
    assert k.repository in StoredRepositories(t);
    var u := AfterClaim(t, member, solo, now);
    SameWaiting(t, u, claim, k);
    LeastLoadedTakes(u, claim, k);
    NextKeysAre(t, catalog, member, now);
    var taken :| taken in TakeOf(u, claim) && taken.repository == k.repository;
    assert taken in KeySet(TakeOf(u, claim));
  }
}
