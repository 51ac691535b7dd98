/**
 Runs of the feed: any sequence of transactions, by any tokens, interleaved in
 any way. What every transaction keeps and what holds over a whole run.
 */
module FeedRuns {
  import opened Optional
  import opened Sorting
  import opened FeedModel
  import opened FeedTurnPolicy
  import opened FeedTransactions
  import FeedStore

  datatype Step =
    | SoloTurn(token: Token, repositories: set<Repository>, at: Time)
    | PartyTurn(claim: PartyClaim)
    | Fetched(token: Token, at: Time)
    | Stored(key: Key, row: Row, keepStoredParty: bool)
    | Removed(keys: set<Key>)
    | Subscribed(token: Token, repositories: set<Repository>, kind: SubscriptionType)
    | Unsubscribed(follows: set<Follow>)
    | TypeChanged(token: Token, changed: Option<set<Repository>>, kind: SubscriptionType)

  function Apply(t: Tables, step: Step): Tables {
    match step
    case SoloTurn(token, repositories, at) => AfterClaim(t, token, repositories, at)
    case PartyTurn(claim) => AfterPartyClaim(t, claim)
    case Fetched(token, at) => AfterFetch(t, token, at)
    case Stored(key, row, keepStoredParty) => AfterUpsert(t, key, row, keepStoredParty)
    case Removed(keys) => AfterDelete(t, keys)
    case Subscribed(token, repositories, kind) => AfterSubscribe(t, token, repositories, kind)
    case Unsubscribed(follows) => AfterUnsubscribe(t, follows)
    case TypeChanged(token, changed, kind) => AfterSetType(t, token, changed, kind)
  }

  /** The pull requests the step hands to the token. */
  function Gives(t: Tables, step: Step, token: Token): set<Key> {
    match step
    case SoloTurn(claimant, repositories, at) => if claimant == token then Unreceived(t, token, repositories) else {}
    case PartyTurn(claim) => if claim.token == token then KeySet(TakeOf(t, claim)) else {}
    case _ => {}
  }

  /** The moment a claim stamps on what it gives. */
  function ClaimedAt(step: Step): Time
    requires step.SoloTurn? || step.PartyTurn?
  {
    if step.SoloTurn? then step.at else step.claim.at
  }

  ghost predicate IsRun(states: seq<Tables>, steps: seq<Step>) {
    && |states| == |steps| + 1
    && forall i | 0 <= i < |steps| :: states[i + 1] == Apply(states[i], steps[i])
  }

  // ---------------------------------------------------------------- one step

  /** What the party claim takes; nothing when it names no repository. */
  function TakeOf(t: Tables, claim: PartyClaim): seq<Key> {
    if claim.repositories == {} then [] else Decision(RoundOf(t, claim)).take
  }

  lemma RecordTakeDelivers(t: Tables, claim: PartyClaim, take: seq<Key>)
    ensures var u := RecordTake(PruneLoads(t, claim.day), claim, take);
            && u.deliveries == Deliver(t, claim.token, KeySet(take), claim.at, true).deliveries
            && u == t.(deliveries := u.deliveries, loads := u.loads)
  {
  }

  /** A party claim only adds receipts of its own token for waiting keys, marked party, at the claim's time. */
  lemma PartyClaimDelivers(t: Tables, claim: PartyClaim)
    ensures KeySet(TakeOf(t, claim)) <= WaitingKeys(t, claim)
    ensures var u := AfterPartyClaim(t, claim);
            && u.deliveries == Deliver(t, claim.token, KeySet(TakeOf(t, claim)), claim.at, true).deliveries
            && u == t.(deliveries := u.deliveries, loads := u.loads)
  {
    FeedStore.TakeIsWaiting(t, claim);
    hide RoundOf, Decision, WaitingKeys, RecordTake, PruneLoads;
    RecordTakeDelivers(t, claim, TakeOf(t, claim));
  }

  /** A claim adds to its own token's load what it takes in the repository, and to no other load of the day. */
  lemma ClaimLoads(t: Tables, claim: PartyClaim, repository: Repository, token: Token)
    ensures LoadOf(AfterPartyClaim(t, claim), claim.day, repository, token)
            == LoadOf(t, claim.day, repository, token)
               + (if token == claim.token then CountIn(TakeOf(t, claim), repository) else 0)
  {
    var take := TakeOf(t, claim);
    if claim.repositories != {} {
      RecordTakeLoads(PruneLoads(t, claim.day), claim, take, repository, token);
    }
  }

  lemma RecordTakeLoads(t: Tables, claim: PartyClaim, take: seq<Key>, repository: Repository, token: Token)
    ensures LoadOf(RecordTake(t, claim, take), claim.day, repository, token)
            == LoadOf(t, claim.day, repository, token) + (if token == claim.token then CountIn(take, repository) else 0)
  {
  }

  lemma OtherStepsKeepLoads(t: Tables, step: Step)
    requires !step.PartyTurn?
    ensures Apply(t, step).loads == t.loads
  {
  }

  /** The foreign key holds after every transaction. */
  lemma StepKeepsForeignKey(t: Tables, step: Step)
    requires ForeignKey(t)
    ensures ForeignKey(Apply(t, step))
  {
    if step.PartyTurn? {
      PartyClaimDelivers(t, step.claim);
    }
  }

  /** A claim hands over only what the token has not received, and the receipt is stored with the claim's time. */
  lemma GivenOnceAndRecorded(t: Tables, step: Step, token: Token, k: Key)
    requires k in Gives(t, step, token)
    ensures step.SoloTurn? || step.PartyTurn?
    ensures k in t.pullRequests && Receipt(token, k) !in t.deliveries
    ensures Receipt(token, k) in Apply(t, step).deliveries && k in Apply(t, step).pullRequests
    ensures Apply(t, step).deliveries[Receipt(token, k)] == Delivery(ClaimedAt(step), step.PartyTurn?)
  {
    if step.PartyTurn? {
      PartyClaimDelivers(t, step.claim);
    }
  }

  /** A receipt stays as it is until its pull request is removed. */
  lemma ReceiptStays(t: Tables, step: Step, r: Receipt)
    requires r in t.deliveries && r.key in t.pullRequests
    requires step.Removed? ==> r.key !in step.keys
    ensures r in Apply(t, step).deliveries && Apply(t, step).deliveries[r] == t.deliveries[r]
    ensures r.key in Apply(t, step).pullRequests
  {
    if step.PartyTurn? {
      PartyClaimDelivers(t, step.claim);
    }
  }

  // ---------------------------------------------------------------- cap safety

  /**
   No step raises a pull request's party deliveries above the cap stored at that
   step: a step that adds a holder adds one, below the cap; every other step adds none.
   */
  lemma StepRespectsCap(t: Tables, step: Step, k: Key)
    ensures
      var before, after := PartyHolders(t, k), PartyHolders(Apply(t, step), k);
      || after <= before
      || (&& step.PartyTurn? && k in t.pullRequests
          && after == before + {step.claim.token} && |before| < t.pullRequests[k].reviewers && |after| == |before| + 1)
  {
    if step.PartyTurn? {
      PartyClaimDelivers(t, step.claim);
      DeliverHolders(t, Apply(t, step), step.claim.token, KeySet(TakeOf(t, step.claim)), step.claim.at, k);
    } else {
      OtherStepsAddNoHolder(t, step, k);
    }
  }

  lemma DeliverHolders(t: Tables, u: Tables, token: Token, given: set<Key>, at: Time, k: Key)
    requires u.deliveries == Deliver(t, token, given, at, true).deliveries
    requires forall g | g in given :: Receipt(token, g) !in t.deliveries
    ensures PartyHolders(u, k) == PartyHolders(t, k) + (if k in given then {token} else {})
    ensures k in given ==> |PartyHolders(u, k)| == |PartyHolders(t, k)| + 1
  {
    hide PartyHolders, Deliver;
    forall holder ensures holder in PartyHolders(u, k) <==> holder in PartyHolders(t, k) || (k in given && holder == token) {
      assert Receipt(holder, k) in u.deliveries <==> Receipt(holder, k) in t.deliveries || (k in given && holder == token);
    }
    assert PartyHolders(u, k) == PartyHolders(t, k) + (if k in given then {token} else {});
  }

  lemma OtherStepsAddNoHolder(t: Tables, step: Step, k: Key)
    requires !step.PartyTurn?
    ensures PartyHolders(Apply(t, step), k) <= PartyHolders(t, k)
  {
  }

  /** The largest cap stored for the pull request since its row was created; 0 without a row. */
  function LargestCap(states: seq<Tables>, n: nat, k: Key): (cap: int)
    requires n < |states|
  {
    if k !in states[n].pullRequests then 0
    else Max(states[n].pullRequests[k].reviewers, if n == 0 then 0 else LargestCap(states, n - 1, k))
  }

  function Max(a: int, b: int): int {
    if a > b then a else b
  }

  /** Over any run the members holding a pull request never outnumber the largest cap its row ever had. */
  lemma {:induction false} CapNeverExceeded(states: seq<Tables>, steps: seq<Step>, n: nat, k: Key)
    requires IsRun(states, steps) && n < |states|
    requires ForeignKey(states[0])
    requires |PartyHolders(states[0], k)| <= LargestCap(states, 0, k)
    ensures ForeignKey(states[n])
    ensures |PartyHolders(states[n], k)| <= LargestCap(states, n, k)
  {
    if n > 0 {
      CapNeverExceeded(states, steps, n - 1, k);
      var t, step := states[n - 1], steps[n - 1];
      StepKeepsForeignKey(t, step);
      StepRespectsCap(t, step, k);
      FewerHolders(t, Apply(t, step), k);
      if k !in states[n].pullRequests {
        NoRowNoHolder(states[n], k);
      } else if k !in t.pullRequests {
        NoRowNoHolder(t, k);
      } else if step.PartyTurn? {
        PartyClaimDelivers(t, step.claim);
      }
    }
  }

  lemma FewerHolders(t: Tables, u: Tables, k: Key)
    ensures PartyHolders(u, k) <= PartyHolders(t, k) ==> |PartyHolders(u, k)| <= |PartyHolders(t, k)|
  {
    if PartyHolders(u, k) <= PartyHolders(t, k) {
      SubsetSize(PartyHolders(u, k), PartyHolders(t, k));
    }
  }

  lemma SubsetSize<T>(a: set<T>, b: set<T>)
    requires a <= b
    ensures |a| <= |b|
  {
    assert b == a + (b - a);
  }

  lemma NoRowNoHolder(t: Tables, k: Key)
    requires ForeignKey(t) && k !in t.pullRequests
    ensures PartyHolders(t, k) == {}
  {
  }

  // ---------------------------------------------------------------- accounting

  /** A party claim accounts for exactly the stored pull requests of its repositories the token had not received. */
  lemma ClaimAccountsForAll(t: Tables, claim: PartyClaim)
    ensures var result := PartyResultOf(t, claim);
            && |result.delivered| + result.taken + result.waiting == |Unreceived(t, claim.token, claim.repositories)|
            && Distinct(result.delivered)
            && |KeySet(result.delivered)| == |result.delivered|
  {
    var unreceived := Unreceived(t, claim.token, claim.repositories);
    if claim.repositories == {} {
      assert unreceived == {};
    } else {
      var round := RoundOf(t, claim);
      EveryPullRequestJudged(round, |round.pullRequests|);
      FeedStore.TakeIsWaiting(t, claim);
      assert unreceived == WaitingKeys(t, claim) + TakenByOthers(t, claim);
      assert WaitingKeys(t, claim) !! TakenByOthers(t, claim);
      assert |unreceived| == |WaitingKeys(t, claim)| + |TakenByOthers(t, claim)|;
    }
    DistinctSize(PartyResultOf(t, claim).delivered);
  }

  lemma {:induction false} DistinctSize(keys: seq<Key>)
    requires Distinct(keys)
    ensures |KeySet(keys)| == |keys|
  {
    if keys != [] {
      var init, last := keys[..|keys| - 1], keys[|keys| - 1];
      DistinctSize(init);
      assert keys == init + [last];
      assert KeySet(keys) == KeySet(init) + {last};
    }
  }

  // ---------------------------------------------------------------- exactly once

  ghost predicate RemovedBetween(steps: seq<Step>, i: nat, j: nat, k: Key) {
    exists m :: i < m < j && m < |steps| && steps[m].Removed? && k in steps[m].keys
  }

  lemma RemovedBefore(steps: seq<Step>, i: nat, n: nat, k: Key)
    requires i + 1 < n <= |steps|
    ensures RemovedBetween(steps, i, n - 1, k) ==> RemovedBetween(steps, i, n, k)
    ensures steps[n - 1].Removed? && k in steps[n - 1].keys ==> RemovedBetween(steps, i, n, k)
  {
  }

  /** What a token received at step i it still holds, with the same time, until the pull request is removed. */
  lemma {:induction false} ReceivedUntilRemoved(states: seq<Tables>, steps: seq<Step>, i: nat, n: nat, token: Token,
                                                k: Key)
    requires IsRun(states, steps) && i < n <= |steps|
    requires k in Gives(states[i], steps[i], token)
    requires !RemovedBetween(steps, i, n, k)
    ensures steps[i].SoloTurn? || steps[i].PartyTurn?
    ensures k in states[n].pullRequests && Receipt(token, k) in states[n].deliveries
    ensures states[n].deliveries[Receipt(token, k)] == Delivery(ClaimedAt(steps[i]), steps[i].PartyTurn?)
    decreases n
  {
    hide Apply, Gives;
    GivenOnceAndRecorded(states[i], steps[i], token, k);
    if n > i + 1 {
      RemovedBefore(steps, i, n, k);
      ReceivedUntilRemoved(states, steps, i, n - 1, token, k);
      ReceiptStays(states[n - 1], steps[n - 1], Receipt(token, k));
    }
  }

  /** A token gets a pull request twice only if it was removed in between, through any mix of types and type changes. */
  lemma DeliveredAtMostOnce(states: seq<Tables>, steps: seq<Step>, i: nat, j: nat, token: Token, k: Key)
    requires IsRun(states, steps) && i < j < |steps|
    requires k in Gives(states[i], steps[i], token)
    requires k in Gives(states[j], steps[j], token)
    ensures RemovedBetween(steps, i, j, k)
  {
    GivenOnceAndRecorded(states[j], steps[j], token, k);
    if !RemovedBetween(steps, i, j, k) {
      ReceivedUntilRemoved(states, steps, i, j, token, k);
    }
  }
}
