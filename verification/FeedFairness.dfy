/**
 Fair loads: with cap 1, while the same members stay active, nobody receives the
 repository's pull requests as solo and no timer below its cap runs out, the members' loads
 of the day never differ by more than one.
 */
module FeedFairness {
  import opened Optional
  import opened Sorting
  import opened FeedModel
  import opened FeedTurnPolicy
  import opened FeedTransactions
  import opened FeedRuns
  import opened FeedProgress
  import FeedStore

  datatype Party = Party(repository: Repository, members: set<Token>, day: int)

  ghost predicate EvenLoads(t: Tables, party: Party) {
    forall a, b | a in party.members && b in party.members ::
      LoadOf(t, party.day, party.repository, a) <= LoadOf(t, party.day, party.repository, b) + 1
  }

  /** Cap 1 everywhere in the repository and no solo delivery of its pull requests. */
  ghost predicate PartyOnly(t: Tables, repository: Repository) {
    && (forall k | k in t.pullRequests && k.repository == repository :: t.pullRequests[k].reviewers == 1)
    && (forall r | r in t.deliveries && r.key.repository == repository :: t.deliveries[r].party)
  }

  /** A claim comes from a member, while exactly the members are active and every timer below its cap still runs. */
  ghost predicate CalmClaim(t: Tables, claim: PartyClaim, party: Party) {
    && claim.token in party.members
    && Members(t, party.repository, claim.activeSince) + {claim.token} == party.members
    && forall k | k in t.pullRequests && k.repository == party.repository && !AtCap(t, k) ::
         t.pullRequests[k].deadlineAt.Some? && claim.at < t.pullRequests[k].deadlineAt.value
  }

  ghost predicate CalmStep(t: Tables, step: Step, party: Party) {
    match step
    case SoloTurn(_, repositories, _) => party.repository !in repositories
    case PartyTurn(claim) =>
      claim.day == party.day && (party.repository in claim.repositories ==> CalmClaim(t, claim, party))
    case Stored(key, row, _) => key.repository == party.repository ==> row.reviewers == 1
    case _ => true
  }

  // ---------------------------------------------------------------- inside one claim

  /** Nobody holds a waiting pull request, so every other member is a candidate for it. */
  lemma AllOthersAreCandidates(t: Tables, claim: PartyClaim, party: Party, k: Key, other: Token)
    requires PartyOnly(t, party.repository) && CalmClaim(t, claim, party)
    requires k in WaitingKeys(t, claim) && k.repository == party.repository
    requires other in party.members && other != claim.token
    ensures other in WaitingOf(t, claim, k).candidates
    ensures WaitingOf(t, claim, k).reviewers - WaitingOf(t, claim, k).partyDeliveries == 1
  {
  }

  /** The claimant only takes while no other member has a lower load. */
  lemma TakesOnlyAsLightest(t: Tables, claim: PartyClaim, party: Party, k: Key, took: seq<Key>, other: Token)
    requires PartyOnly(t, party.repository) && CalmClaim(t, claim, party)
    requires k in WaitingKeys(t, claim) && k.repository == party.repository
    requires Judge(RoundOf(t, claim), took, WaitingOf(t, claim, k)) == Takes && claim.day == party.day
    requires other in party.members && other != claim.token
    ensures LoadOf(t, party.day, party.repository, claim.token) + CountIn(took, party.repository)
            <= LoadOf(t, party.day, party.repository, other)
  {
    AllOthersAreCandidates(t, claim, party, k, other);
    var round, pullRequest := RoundOf(t, claim), WaitingOf(t, claim, k);
    LighterCountZero(round, took, k.repository, pullRequest.candidates);
    RoundKnowsLoads(t, claim, k, other);
    RoundKnowsLoads(t, claim, k, claim.token);
    assert TimerRuns(round, pullRequest);
    assert !IsLighter(round, took, k.repository, other);
  }

  lemma RoundLength(t: Tables, claim: PartyClaim)
    ensures |RoundOf(t, claim).pullRequests| == |WaitingInOrder(t, claim)|
  {
  }

  lemma EntryKey(t: Tables, claim: PartyClaim, i: nat)
    requires i < |WaitingInOrder(t, claim)|
    ensures |RoundOf(t, claim).pullRequests| == |WaitingInOrder(t, claim)|
    ensures var k := WaitingInOrder(t, claim)[i];
      && k in WaitingKeys(t, claim) && k in t.pullRequests
      && RoundOf(t, claim).pullRequests[i] == WaitingOf(t, claim, k)
      && RoundOf(t, claim).pullRequests[i].key == k
  {
  }

  /** Through every prefix of the round the claimant stays at most one above each other member. */
  lemma {:induction false} EvenInsideRound(t: Tables, claim: PartyClaim, party: Party, n: nat, other: Token)
    requires PartyOnly(t, party.repository) && CalmClaim(t, claim, party) && claim.day == party.day
    requires EvenLoads(t, party)
    requires n <= |RoundOf(t, claim).pullRequests|
    requires other in party.members && other != claim.token
    ensures LoadOf(t, party.day, party.repository, claim.token) + CountIn(TakenKeys(RoundOf(t, claim), n), party.repository)
            <= LoadOf(t, party.day, party.repository, other) + 1
  {
    hide RoundOf, WaitingOf, WaitingInOrder, Judge, PartyOnly;
    assert claim.token in party.members;
    var round := RoundOf(t, claim);
    RoundLength(t, claim);
    if n > 0 {
      EvenInsideRound(t, claim, party, n - 1, other);
      var took, k := TakenKeys(round, n - 1), WaitingInOrder(t, claim)[n - 1];
      EntryKey(t, claim, n - 1);
      CountInAppend(took, k, party.repository);
      if k.repository == party.repository && Judge(round, took, WaitingOf(t, claim, k)) == Takes {
        TakesOnlyAsLightest(t, claim, party, k, took, other);
      }
    }
  }

  // ---------------------------------------------------------------- steps and runs

  lemma NothingElsewhere(t: Tables, claim: PartyClaim, repository: Repository)
    requires repository !in claim.repositories
    ensures CountIn(TakeOf(t, claim), repository) == 0
  {
    hide TakeOf;
    PartyClaimDelivers(t, claim);
    CountInPositive(TakeOf(t, claim), repository);
    forall k | k in TakeOf(t, claim) ensures k.repository != repository {
      assert k in KeySet(TakeOf(t, claim));
    }
  }

  lemma CalmClaimKeepsEven(t: Tables, claim: PartyClaim, party: Party)
    requires PartyOnly(t, party.repository) && EvenLoads(t, party) && CalmStep(t, PartyTurn(claim), party)
    ensures EvenLoads(AfterPartyClaim(t, claim), party)
  {
    hide AfterPartyClaim, RoundOf, TakeOf, LoadOf;
    var u := AfterPartyClaim(t, claim);
    forall token { ClaimLoads(t, claim, party.repository, token); }
    if party.repository in claim.repositories {
      TakesOf(t, claim, party.repository);
      forall other | other in party.members && other != claim.token
        ensures LoadOf(u, party.day, party.repository, claim.token) <= LoadOf(u, party.day, party.repository, other) + 1
      {
        EvenInsideRound(t, claim, party, |RoundOf(t, claim).pullRequests|, other);
      }
    } else {
      NothingElsewhere(t, claim, party.repository);
    }
  }

  lemma TakesOf(t: Tables, claim: PartyClaim, repository: Repository)
    requires repository in claim.repositories
    ensures TakeOf(t, claim) == TakenKeys(RoundOf(t, claim), |RoundOf(t, claim).pullRequests|)
  {
  }

  lemma CalmStepKeepsEven(t: Tables, step: Step, party: Party)
    requires PartyOnly(t, party.repository) && EvenLoads(t, party) && CalmStep(t, step, party)
    ensures EvenLoads(Apply(t, step), party)
  {
    hide AfterPartyClaim, PartyOnly, CalmClaim;
    if step.PartyTurn? {
      CalmClaimKeepsEven(t, step.claim, party);
    } else {
      hide Apply;
      OtherStepsKeepLoads(t, step);
    }
  }

  lemma CalmStepKeepsPartyOnly(t: Tables, step: Step, party: Party)
    requires PartyOnly(t, party.repository) && CalmStep(t, step, party)
    ensures PartyOnly(Apply(t, step), party.repository)
  {
  }

  /** From equal loads, any calm run keeps every two members' loads of the day within one of each other. */
  lemma {:induction false} FairLoads(states: seq<Tables>, steps: seq<Step>, n: nat, party: Party)
    requires IsRun(states, steps) && n < |states|
    requires PartyOnly(states[0], party.repository)
    requires forall a, b | a in party.members && b in party.members ::
      LoadOf(states[0], party.day, party.repository, a) == LoadOf(states[0], party.day, party.repository, b)
    requires forall i | 0 <= i < n :: CalmStep(states[i], steps[i], party)
    ensures PartyOnly(states[n], party.repository) && EvenLoads(states[n], party)
  {
    if n > 0 {
      hide Apply, PartyOnly, EvenLoads, CalmStep;
      FairLoads(states, steps, n - 1, party);
      CalmStepKeepsEven(states[n - 1], steps[n - 1], party);
      CalmStepKeepsPartyOnly(states[n - 1], steps[n - 1], party);
    }
  }
}
