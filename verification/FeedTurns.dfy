/** What a party claim does and reports, said over the tables alone. */
module FeedTurns {
  import opened Optional
  import opened Sorting
  import opened FeedModel
  import opened FeedTurnPolicy
  import opened FeedTransactions
  import opened FeedStore
  import opened FeedRuns
  import opened FeedRequests
  import opened FeedProgress

  // ---------------------------------------------------------------- who has the turn

  /** Stored in a claimed repository, without a receipt of the token, and with a place left. */
  ghost predicate HasPlaceFor(t: Tables, claim: PartyClaim, k: Key) {
    && k in t.pullRequests && k.repository in claim.repositories && Receipt(claim.token, k) !in t.deliveries
    && |PartyHolders(t, k)| < t.pullRequests[k].reviewers
  }

  /** What the claim takes in the repository before the pull request in feed order. */
  function TakenEarlier(t: Tables, claim: PartyClaim, k: Key): set<Key> {
    set e | e in TakeOf(t, claim) && e.repository == k.repository && Before(t.pullRequests, e, k)
  }

  /** The other active members without the pull request whose load is below the claimant's with its takes before. */
  function LighterMembers(t: Tables, claim: PartyClaim, k: Key): set<Token> {
    set other | other in Members(t, k.repository, claim.activeSince) && other != claim.token
      && Receipt(other, k) !in t.deliveries
      && LoadOf(t, claim.day, k.repository, other)
         < LoadOf(t, claim.day, k.repository, claim.token) + |TakenEarlier(t, claim, k)|
  }

  lemma WaitingOrdered(t: Tables, claim: PartyClaim)
    ensures var waiting := WaitingInOrder(t, claim);
      && (forall e :: e in waiting <==> e in WaitingKeys(t, claim))
      && (forall i | 0 <= i < |waiting| :: waiting[i] in t.pullRequests)
      && (forall i, j | 0 <= i < j < |waiting| ::
            Before(t.pullRequests, waiting[i], waiting[j]) && !Before(t.pullRequests, waiting[j], waiting[i]))
      && (forall i | 0 <= i < |waiting| :: !Before(t.pullRequests, waiting[i], waiting[i]))
  {
    hide WaitingKeys;
    var waiting := WaitingInOrder(t, claim);
    forall i | 0 <= i < |waiting| ensures waiting[i] in t.pullRequests {
      RoundEntry(t, claim, i);
      StoredWaiting(t, claim, waiting[i]);
    }
    forall i, j | 0 <= i <= j < |waiting| ensures !Before(t.pullRequests, waiting[j], waiting[i]) {
      BeforeTotal(t.pullRequests, waiting[i], waiting[j]);
    }
  }

  lemma StoredWaiting(t: Tables, claim: PartyClaim, k: Key)
    requires k in WaitingKeys(t, claim)
    ensures k in t.pullRequests && claim.repositories != {}
  {
    assert k.repository in claim.repositories;
  }

  lemma EarlierInRound(t: Tables, claim: PartyClaim, k: Key, i: nat)
    requires k in WaitingKeys(t, claim)
    requires i < |RoundOf(t, claim).pullRequests| && RoundOf(t, claim).pullRequests[i] == WaitingOf(t, claim, k)
    ensures TakesBefore(RoundOf(t, claim), i) == TakenEarlier(t, claim, k)
  {
    hide RoundOf, WaitingOf, WaitingKeys, WaitingInOrder, Members, Before, TakenKeys;
    StoredWaiting(t, claim, k);
    WaitingKey(t, claim, k);
    TakeIsWaiting(t, claim);
    RoundKeys(t, claim);
    WaitingOrdered(t, claim);
    var waiting, round := WaitingInOrder(t, claim), RoundOf(t, claim);
    assert TakeOf(t, claim) == Decision(round).take;
    hide TakeOf, Decision;
    forall e ensures e in TakesBefore(round, i) <==> e in TakenEarlier(t, claim, k) {
      if e in TakenEarlier(t, claim, k) {
        assert e in waiting;
        var j :| 0 <= j < |waiting| && waiting[j] == e;
        assert j < i && round.pullRequests[j].key == e;
      }
      if e in TakesBefore(round, i) {
        var j :| 0 <= j < i && round.pullRequests[j].key == e;
        assert waiting[j] == e && Before(t.pullRequests, waiting[j], waiting[i]);
      }
    }
  }

  lemma RoundKeys(t: Tables, claim: PartyClaim)
    ensures |RoundOf(t, claim).pullRequests| == |WaitingInOrder(t, claim)|
    ensures forall i | 0 <= i < |WaitingInOrder(t, claim)| ::
              RoundOf(t, claim).pullRequests[i].key == WaitingInOrder(t, claim)[i]
  {
    hide WaitingOf;
    forall i | 0 <= i < |WaitingInOrder(t, claim)|
      ensures |RoundOf(t, claim).pullRequests| == |WaitingInOrder(t, claim)|
      ensures RoundOf(t, claim).pullRequests[i].key == WaitingInOrder(t, claim)[i]
    {
      RoundEntry(t, claim, i);
      WaitingKey(t, claim, WaitingInOrder(t, claim)[i]);
    }
  }

  lemma LighterInRound(t: Tables, claim: PartyClaim, k: Key, i: nat)
    requires k in WaitingKeys(t, claim)
    requires i < |RoundOf(t, claim).pullRequests| && RoundOf(t, claim).pullRequests[i] == WaitingOf(t, claim, k)
    ensures LighterCandidates(RoundOf(t, claim), i) == LighterMembers(t, claim, k)
  {
    hide RoundOf, WaitingOf, WaitingKeys, TakenEarlier, TakesBefore, Members, LoadIn, LoadOf;
    EarlierInRound(t, claim, k, i);
    CandidatesAre(t, claim, k);
    forall other { RoundKnowsLoads(t, claim, k, other); }
    assert forall other :: other in LighterCandidates(RoundOf(t, claim), i) <==> other in LighterMembers(t, claim, k);
  }

  lemma CandidatesAre(t: Tables, claim: PartyClaim, k: Key)
    requires k in WaitingKeys(t, claim)
    ensures WaitingOf(t, claim, k).key == k && RoundOf(t, claim).token == claim.token
    ensures Distinct(WaitingOf(t, claim, k).candidates)
    ensures forall other :: other in WaitingOf(t, claim, k).candidates <==>
              && other in Members(t, k.repository, claim.activeSince) && other != claim.token
              && Receipt(other, k) !in t.deliveries
  {
  }

  /**
   The turn rule: a claim leaves a pull request with a free place exactly when its timer still runs and at least as
   many active members that lack it are lighter than the claimant as there are free places.
   */
  lemma LeftToLighterMembers(t: Tables, claim: PartyClaim, k: Key)
    requires HasPlaceFor(t, claim, k)
    ensures var row := t.pullRequests[k];
            k !in TakeOf(t, claim) <==>
            && row.deadlineAt.Some? && claim.at < row.deadlineAt.value
            && |LighterMembers(t, claim, k)| >= row.reviewers - |PartyHolders(t, k)|
  {
    var i := WaitingIndex(t, claim, k);
    LighterInRound(t, claim, k, i);
    CandidatesAre(t, claim, k);
    RoundKeysDistinct(t, claim);
    TakeOfWaiting(t, claim, k);
    EntryFacts(t, claim, k);
    hide RoundOf, WaitingOf, WaitingKeys, LighterCandidates, LighterMembers, TakeOf, DistinctKeys;
    TakenWhen(RoundOf(t, claim), i);
  }

  lemma EntryFacts(t: Tables, claim: PartyClaim, k: Key)
    requires k in t.pullRequests
    ensures RoundOf(t, claim).now == claim.at
    ensures var pullRequest, row := WaitingOf(t, claim, k), t.pullRequests[k];
      && pullRequest.key == k && pullRequest.reviewers == row.reviewers && pullRequest.deadlineAt == row.deadlineAt
      && pullRequest.partyDeliveries == |PartyHolders(t, k)|
  {
  }

  /** Once the timer ran out the first to ask takes it. */
  lemma FirstComeAfterDeadline(t: Tables, claim: PartyClaim, k: Key)
    requires HasPlaceFor(t, claim, k)
    requires t.pullRequests[k].deadlineAt.None? || t.pullRequests[k].deadlineAt.value <= claim.at
    ensures k in TakeOf(t, claim)
  {
    LeftToLighterMembers(t, claim, k);
  }

  // ---------------------------------------------------------------- what a claim reports

  /** The unreceived stored pull requests of the claimed repositories that have all the members they may have. */
  function AllPlacesTaken(t: Tables, claim: PartyClaim): set<Key> {
    set k | k in t.pullRequests && k.repository in claim.repositories && Receipt(claim.token, k) !in t.deliveries
      && |PartyHolders(t, k)| >= t.pullRequests[k].reviewers
  }

  /** Those that have a place left and still no receipt of the claimant after the claim. */
  function StillWithPlace(t: Tables, claim: PartyClaim): set<Key> {
    set k | k in t.pullRequests && k.repository in claim.repositories
      && Receipt(claim.token, k) !in AfterPartyClaim(t, claim).deliveries
      && |PartyHolders(t, k)| < t.pullRequests[k].reviewers
  }

  /** A claim reports what it delivered, how many had no place left, and how many it left to others. */
  lemma ReportIs(t: Tables, claim: PartyClaim)
    ensures var result := PartyResultOf(t, claim);
      && (forall k :: k in result.delivered <==>
            Receipt(claim.token, k) !in t.deliveries && Receipt(claim.token, k) in AfterPartyClaim(t, claim).deliveries)
      && result.taken == |AllPlacesTaken(t, claim)|
      && result.waiting == |StillWithPlace(t, claim)|
  {
    DeliveredIsTake(t, claim);
    NoClaimNoKeys(t, claim);
    if claim.repositories != {} {
      NoneTakenInRound(t, claim);
      PlacesTakenByOthers(t, claim);
      LeftOver(t, claim);
    }
    hide RoundOf, AfterPartyClaim, AllPlacesTaken, StillWithPlace, Decision, TakeOf, TakenByOthers;
  }

  lemma NoClaimNoKeys(t: Tables, claim: PartyClaim)
    ensures claim.repositories == {} ==> AllPlacesTaken(t, claim) == {} && StillWithPlace(t, claim) == {}
  {
    hide AfterPartyClaim;
  }

  lemma PlacesTakenByOthers(t: Tables, claim: PartyClaim)
    ensures AllPlacesTaken(t, claim) == TakenByOthers(t, claim)
  {
  }

  lemma DeliveredIsTake(t: Tables, claim: PartyClaim)
    ensures PartyResultOf(t, claim).delivered == TakeOf(t, claim)
    ensures forall k :: k in TakeOf(t, claim) <==>
              Receipt(claim.token, k) !in t.deliveries && Receipt(claim.token, k) in AfterPartyClaim(t, claim).deliveries
  {
    hide RoundOf, AfterPartyClaim;
    PartyClaimDelivers(t, claim);
    forall k ensures k in TakeOf(t, claim) <==> k in KeySet(TakeOf(t, claim)) {
    }
  }

  lemma NoneTakenInRound(t: Tables, claim: PartyClaim)
    ensures Decision(RoundOf(t, claim)).taken == 0
  {
    var round := RoundOf(t, claim);
    forall i | 0 <= i < |round.pullRequests| ensures round.pullRequests[i].partyDeliveries < round.pullRequests[i].reviewers {
      RoundLengthIs(t, claim);
      RoundEntry(t, claim, i);
    }
    NoneAtCap(round, |round.pullRequests|);
  }

  lemma RoundLengthIs(t: Tables, claim: PartyClaim)
    ensures |RoundOf(t, claim).pullRequests| == |WaitingInOrder(t, claim)|
  {
  }

  lemma LeftOver(t: Tables, claim: PartyClaim)
    requires claim.repositories != {}
    ensures Decision(RoundOf(t, claim)).waiting == |StillWithPlace(t, claim)|
  {
    hide WaitingKeys, StillWithPlace, AfterPartyClaim, RoundOf, WaitingInOrder, TakenKeys, VerdictCount;
    NoneTakenInRound(t, claim);
    LeftKeys(t, claim);
    TakeIsWaiting(t, claim);
    RoundLengthIs(t, claim);
    WaitingListed(t, claim);
    var round := RoundOf(t, claim);
    EveryPullRequestJudged(round, |round.pullRequests|);
    assert TakeOf(t, claim) == Decision(round).take;
    DistinctSize(TakeOf(t, claim));
    TakenAndLeft(WaitingKeys(t, claim), KeySet(TakeOf(t, claim)));
  }

  lemma TakenAndLeft(waiting: set<Key>, take: set<Key>)
    requires take <= waiting
    ensures |waiting - take| == |waiting| - |take|
  {
    assert waiting == take + (waiting - take);
  }

  lemma LeftKeys(t: Tables, claim: PartyClaim)
    ensures StillWithPlace(t, claim) == WaitingKeys(t, claim) - KeySet(TakeOf(t, claim))
  {
    hide TakeOf, AfterPartyClaim, PartyHolders;
    PartyClaimDelivers(t, claim);
    assert forall k :: Receipt(claim.token, k) in AfterPartyClaim(t, claim).deliveries <==>
                       Receipt(claim.token, k) in t.deliveries || k in KeySet(TakeOf(t, claim));
    hide Deliver;
    assert forall k :: k in StillWithPlace(t, claim) <==> k in WaitingKeys(t, claim) - KeySet(TakeOf(t, claim));
  }

  /** The loads of earlier days are gone after a claim, those of later days stay. */
  lemma OnlyEarlierLoadsGo(t: Tables, claim: PartyClaim, load: LoadKey)
    requires claim.repositories != {}
    ensures load.day < claim.day ==> load !in AfterPartyClaim(t, claim).loads
    ensures load.day > claim.day && load in t.loads ==>
      load in AfterPartyClaim(t, claim).loads && AfterPartyClaim(t, claim).loads[load] == t.loads[load]
  {
    hide RoundOf, Decision;
  }

  // ---------------------------------------------------------------- the rule as a request sees it

  /** What the answer brings in the repository before the pull request in feed order. */
  function AnsweredEarlier(t: Tables, catalog: Catalog, token: Token, now: Time, k: Key): set<Key> {
    set e | e in NextKeys(t, catalog, token, now) && e.repository == k.repository && Before(t.pullRequests, e, k)
  }

  /**
   The other party subscribers that fetched within the last 24 hours, lack the pull request and have a lower load of
   the day than the requester with what the answer brings before it.
   */
  function LighterNow(t: Tables, catalog: Catalog, token: Token, now: Time, k: Key): set<Token> {
    set other | other in t.fetches && now - 86_400 * SECOND <= t.fetches[other] && other != token
      && TypeFor(t, other, k.repository) == Some(Party) && Receipt(other, k) !in t.deliveries
      && LoadOf(t, LoadDay(now), k.repository, other)
         < LoadOf(t, LoadDay(now), k.repository, token) + |AnsweredEarlier(t, catalog, token, now, k)|
  }

  /**
   The turn rule of a whole request: of a configured party repository it leaves a pull request with a free place
   exactly when its timer still runs and at least as many recent, lighter subscribers lack it as there are free places.
   */
  lemma RequestLeavesToLighter(t: Tables, catalog: Catalog, token: Token, now: Time, k: Key)
    requires k in t.pullRequests && catalog(k.repository) && TypeFor(t, token, k.repository) == Some(Party)
    requires Receipt(token, k) !in t.deliveries && |PartyHolders(t, k)| < t.pullRequests[k].reviewers
    ensures var row := t.pullRequests[k];
            k !in NextKeys(t, catalog, token, now) <==>
            && row.deadlineAt.Some? && now < row.deadlineAt.value
            && |LighterNow(t, catalog, token, now, k)| >= row.reviewers - |PartyHolders(t, k)|
  {
    hide TakeOf, AfterClaim, Resolved, NextKeys, Members, LighterMembers, LighterNow;
    var claim, s := PartyClaimOf(t, catalog, token, now), AfterClaim(t, token, Resolved(t, catalog, token, Solo), now);
    PartyServed(t, catalog, token, now, k.repository, k);
    SoloClaimElsewhere(t, token, Resolved(t, catalog, token, Solo), now, k.repository, claim.day);
    SameHolders(t, s, k, claim.day);
    LeftToLighterMembers(s, claim, k);
    AnswerOfParty(t, catalog, token, now, k);
    LighterInRequest(t, catalog, token, now, k);
  }

  lemma PartyServed(t: Tables, catalog: Catalog, token: Token, now: Time, repository: Repository, k: Key)
    requires k in t.pullRequests && k.repository == repository
    requires catalog(repository) && TypeFor(t, token, repository) == Some(Party)
    ensures repository in PartyClaimOf(t, catalog, token, now).repositories
    ensures repository !in Resolved(t, catalog, token, Solo)
  {
    assert repository in StoredRepositories(t);
  }

  lemma SameHolders(t: Tables, u: Tables, k: Key, day: int)
    requires SameFor(t, u, k.repository, day)
    ensures PartyHolders(u, k) == PartyHolders(t, k) && u.pullRequests == t.pullRequests
    ensures forall token :: Receipt(token, k) in u.deliveries <==> Receipt(token, k) in t.deliveries
  {
    forall token ensures Receipt(token, k) in u.deliveries <==> Receipt(token, k) in t.deliveries {
      assert Receipt(token, k).key.repository == k.repository;
    }
    forall token ensures token in PartyHolders(u, k) <==> token in PartyHolders(t, k) {
      assert Receipt(token, k).key.repository == k.repository;
    }
  }

  /** In a party repository the answer is what the party claim takes. */
  lemma AnswerOfParty(t: Tables, catalog: Catalog, token: Token, now: Time, e: Key)
    requires TypeFor(t, token, e.repository) == Some(Party)
    ensures e in NextKeys(t, catalog, token, now) <==>
            e in TakeOf(AfterClaim(t, token, Resolved(t, catalog, token, Solo), now), PartyClaimOf(t, catalog, token, now))
  {
    hide TakeOf, AfterClaim, NextKeys;
    NextKeysAre(t, catalog, token, now);
  }

  lemma LighterInRequest(t: Tables, catalog: Catalog, token: Token, now: Time, k: Key)
    requires k in t.pullRequests && catalog(k.repository) && TypeFor(t, token, k.repository) == Some(Party)
    ensures LighterMembers(AfterClaim(t, token, Resolved(t, catalog, token, Solo), now),
                           PartyClaimOf(t, catalog, token, now), k)
            == LighterNow(t, catalog, token, now, k)
  {
    hide TakeOf, AfterClaim, Resolved, NextKeys, LoadOf, Before;
    var solo, claim := Resolved(t, catalog, token, Solo), PartyClaimOf(t, catalog, token, now);
    var s := AfterClaim(t, token, solo, now);
    PartyServed(t, catalog, token, now, k.repository, k);
    SoloClaimElsewhere(t, token, solo, now, k.repository, claim.day);
    SameHolders(t, s, k, claim.day);
    forall e: Key | e.repository == k.repository { AnswerOfParty(t, catalog, token, now, e); }
    assert TakenEarlier(s, claim, k) == AnsweredEarlier(t, catalog, token, now, k);
    hide TakenEarlier, AnsweredEarlier, PartyHolders;
    assert forall other :: other in LighterMembers(s, claim, k) <==> other in LighterNow(t, catalog, token, now, k);
  }
}
