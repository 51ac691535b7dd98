/** The turn rule of a review party: which waiting pull requests one fetcher takes. */
module FeedTurnPolicy {
  import opened Optional
  import opened Sorting
  import opened FeedModel

  datatype Member = Member(token: Token, repository: Repository)

  /** An entry of a party round; its candidates are the other active members that lack it. */
  datatype WaitingPullRequest = WaitingPullRequest(
    key: Key,
    reviewers: int,
    deadlineAt: Option<Time>,
    partyDeliveries: int,
    candidates: seq<Token>)

  datatype PartyRound = PartyRound(
    token: Token,
    now: Time,
    pullRequests: seq<WaitingPullRequest>,
    loads: map<Member, int>)

  datatype PartyDecision = PartyDecision(take: seq<Key>, taken: int, waiting: int)

  // ---------------------------------------------------------------- the rule

  datatype Verdict = Taken | Waits | Takes

  function LoadIn(loads: map<Member, int>, member: Member): int {
    if member in loads then loads[member] else 0
  }

  /** A member's load after the fetcher took the keys in this round. */
  function LoadAfter(round: PartyRound, took: seq<Key>, member: Member): int {
    LoadIn(round.loads, member) + (if member.token == round.token then CountIn(took, member.repository) else 0)
  }

  predicate TimerRuns(round: PartyRound, pullRequest: WaitingPullRequest) {
    pullRequest.deadlineAt.Some? && round.now < pullRequest.deadlineAt.value
  }

  predicate IsLighter(round: PartyRound, took: seq<Key>, repository: Repository, candidate: Token) {
    LoadAfter(round, took, Member(candidate, repository)) < LoadAfter(round, took, Member(round.token, repository))
  }

  function LighterCount(round: PartyRound, took: seq<Key>, repository: Repository, candidates: seq<Token>): (n: nat)
    ensures n <= |candidates|
  {
    if candidates == [] then 0
    else
      LighterCount(round, took, repository, candidates[..|candidates| - 1])
      + (if IsLighter(round, took, repository, candidates[|candidates| - 1]) then 1 else 0)
  }

  /** What happens to one pull request when the fetcher already took some keys in this round. */
  function Judge(round: PartyRound, took: seq<Key>, pullRequest: WaitingPullRequest): Verdict {
    if pullRequest.partyDeliveries >= pullRequest.reviewers then Taken
    else if
      && TimerRuns(round, pullRequest)
      && LighterCount(round, took, pullRequest.key.repository, pullRequest.candidates)
         >= pullRequest.reviewers - pullRequest.partyDeliveries
    then Waits
    else Takes
  }

  /** The keys taken among the first n pull requests, in their order. */
  function TakenKeys(round: PartyRound, n: nat): (took: seq<Key>)
    requires n <= |round.pullRequests|
    ensures |took| <= n
  {
    if n == 0 then []
    else
      var took := TakenKeys(round, n - 1);
      if Judge(round, took, round.pullRequests[n - 1]) == Takes
      then took + [round.pullRequests[n - 1].key]
      else took
  }

  function VerdictCount(round: PartyRound, n: nat, verdict: Verdict): nat
    requires n <= |round.pullRequests|
  {
    if n == 0 then 0
    else
      VerdictCount(round, n - 1, verdict)
      + (if Judge(round, TakenKeys(round, n - 1), round.pullRequests[n - 1]) == verdict then 1 else 0)
  }

  function Decision(round: PartyRound): PartyDecision {
    var n := |round.pullRequests|;
    PartyDecision(TakenKeys(round, n), VerdictCount(round, n, Taken), VerdictCount(round, n, Waits))
  }

  // ---------------------------------------------------------------- the loop

  /** The copied load map holds every member's load after the takes so far. */
  ghost predicate Tracks(round: PartyRound, loads: map<Member, int>, took: seq<Key>) {
    forall member :: LoadIn(loads, member) == LoadAfter(round, took, member)
  }

  lemma TakingTracks(round: PartyRound, loads: map<Member, int>, took: seq<Key>, k: Key)
    requires Tracks(round, loads, took)
    ensures var fetcher := Member(round.token, k.repository);
            Tracks(round, loads[fetcher := LoadIn(loads, fetcher) + 1], took + [k])
  {
    var fetcher := Member(round.token, k.repository);
    var raised := loads[fetcher := LoadIn(loads, fetcher) + 1];
    forall member ensures LoadIn(raised, member) == LoadAfter(round, took + [k], member) {
      CountInAppend(took, k, member.repository);
      assert LoadIn(loads, member) == LoadAfter(round, took, member);
    }
  }

  class TurnPolicy {
    constructor () {}

    method Choose(round: PartyRound) returns (decision: PartyDecision)
      ensures decision == Decision(round)
    {
      var loads := round.loads;
      decision := PartyDecision([], 0, 0);
      var i := 0;
      while i < |round.pullRequests|
        invariant i <= |round.pullRequests|
        invariant decision == PartyDecision(TakenKeys(round, i), VerdictCount(round, i, Taken), VerdictCount(round, i, Waits))
        invariant Tracks(round, loads, decision.take)
      {
        var pullRequest := round.pullRequests[i];
        i := i + 1;
        if pullRequest.partyDeliveries >= pullRequest.reviewers {
          decision := decision.(taken := decision.taken + 1);
          continue;
        }
        var fetcher := Member(round.token, pullRequest.key.repository);
        if pullRequest.deadlineAt.Some? && round.now < pullRequest.deadlineAt.value {
          var lighterCandidates := CountLighter(round, loads, decision.take, pullRequest);
          if lighterCandidates >= pullRequest.reviewers - pullRequest.partyDeliveries {
            decision := decision.(waiting := decision.waiting + 1);
            continue;
          }
        }
        TakingTracks(round, loads, decision.take, pullRequest.key);
        decision := decision.(take := decision.take + [pullRequest.key]);
        loads := loads[fetcher := LoadIn(loads, fetcher) + 1];
      }
    }

    /** The inner loop of Choose. */
    method CountLighter(round: PartyRound, loads: map<Member, int>, ghost took: seq<Key>,
                        pullRequest: WaitingPullRequest)
      returns (lighterCandidates: nat)
      requires Tracks(round, loads, took)
      ensures lighterCandidates == LighterCount(round, took, pullRequest.key.repository, pullRequest.candidates)
    {
      var repository := pullRequest.key.repository;
      var candidates := pullRequest.candidates;
      lighterCandidates := 0;
      for i := 0 to |candidates|
        invariant lighterCandidates == LighterCount(round, took, repository, candidates[..i])
      {
        assert candidates[..i + 1][..i] == candidates[..i];
        if LoadIn(loads, Member(candidates[i], repository)) < LoadIn(loads, Member(round.token, repository)) {
          lighterCandidates := lighterCandidates + 1;
        }
      }
      assert candidates[..|candidates|] == candidates;
    }
  }

  // ---------------------------------------------------------------- what the rule promises

  ghost predicate DistinctKeys(round: PartyRound) {
    forall i, j | 0 <= i < j < |round.pullRequests| :: round.pullRequests[i].key != round.pullRequests[j].key
  }

  lemma {:induction false} TakenFromPrefix(round: PartyRound, n: nat, k: Key)
    requires n <= |round.pullRequests|
    ensures k in TakenKeys(round, n) ==> exists i :: 0 <= i < n && round.pullRequests[i].key == k
  {
    if n > 0 {
      TakenFromPrefix(round, n - 1, k);
    }
  }

  /** Every pull request is judged once: what is not taken waits or is at its cap. */
  lemma {:induction false} EveryPullRequestJudged(round: PartyRound, n: nat)
    requires n <= |round.pullRequests|
    ensures |TakenKeys(round, n)| + VerdictCount(round, n, Taken) + VerdictCount(round, n, Waits) == n
  {
    if n > 0 {
      EveryPullRequestJudged(round, n - 1);
    }
  }

  /** With distinct keys, a pull request is taken exactly when its own verdict at its turn says so. */
  lemma {:induction false} TakenExactlyWhenJudgedTakes(round: PartyRound, n: nat, i: nat)
    requires DistinctKeys(round) && i < n <= |round.pullRequests|
    ensures round.pullRequests[i].key in TakenKeys(round, n)
            <==> Judge(round, TakenKeys(round, i), round.pullRequests[i]) == Takes
  {
    TakenFromPrefix(round, n - 1, round.pullRequests[n - 1].key);
    if i < n - 1 {
      TakenExactlyWhenJudgedTakes(round, n - 1, i);
    } else {
      TakenFromPrefix(round, n, round.pullRequests[i].key);
    }
  }

  /** No key is taken twice. */
  lemma {:induction false} TakenOnce(round: PartyRound, n: nat)
    requires DistinctKeys(round) && n <= |round.pullRequests|
    ensures Distinct(TakenKeys(round, n))
  {
    if n > 0 {
      TakenOnce(round, n - 1);
      TakenFromPrefix(round, n - 1, round.pullRequests[n - 1].key);
    }
  }

  /** No candidate counts exactly when none has a lower load than the fetcher. */
  lemma {:induction false} LighterCountZero(round: PartyRound, took: seq<Key>, repository: Repository,
                                            candidates: seq<Token>)
    ensures LighterCount(round, took, repository, candidates) == 0
            <==> forall c | c in candidates :: !IsLighter(round, took, repository, c)
  {
    if candidates != [] {
      var init, last := candidates[..|candidates| - 1], candidates[|candidates| - 1];
      assert candidates == init + [last];
      LighterCountZero(round, took, repository, init);
    }
  }

  /** A fetcher without a rival takes every pull request below its cap, at once and in order. */
  lemma {:induction false} AloneTakesAll(round: PartyRound, n: nat)
    requires n <= |round.pullRequests|
    requires forall i | 0 <= i < n :: round.pullRequests[i].candidates == []
    requires forall i | 0 <= i < n :: round.pullRequests[i].partyDeliveries < round.pullRequests[i].reviewers
    ensures |TakenKeys(round, n)| == n
    ensures forall i | 0 <= i < n :: TakenKeys(round, n)[i] == round.pullRequests[i].key
  {
    if n > 0 {
      AloneTakesAll(round, n - 1);
    }
  }

  // ---------------------------------------------------------------- the rule in plain terms

  /** The earlier entries of the same repository that the fetcher takes in the round. */
  function TakesBefore(round: PartyRound, i: nat): set<Key>
    requires i < |round.pullRequests|
  {
    set j | 0 <= j < i && round.pullRequests[j].key.repository == round.pullRequests[i].key.repository
      && round.pullRequests[j].key in Decision(round).take :: round.pullRequests[j].key
  }

  /** The candidates whose load is below the fetcher's load, raised by its takes before. */
  function LighterCandidates(round: PartyRound, i: nat): set<Token>
    requires i < |round.pullRequests|
  {
    var pullRequest := round.pullRequests[i];
    var repository := pullRequest.key.repository;
    set c | c in pullRequest.candidates && c != round.token
      && LoadIn(round.loads, Member(c, repository)) < LoadIn(round.loads, Member(round.token, repository)) + |TakesBefore(round, i)|
  }

  function KeysIn(keys: seq<Key>, repository: Repository): set<Key> {
    set k | k in keys && k.repository == repository
  }

  lemma {:induction false} CountInDistinct(keys: seq<Key>, repository: Repository)
    requires Distinct(keys)
    ensures CountIn(keys, repository) == |KeysIn(keys, repository)|
  {
    if keys != [] {
      var init, last := keys[..|keys| - 1], keys[|keys| - 1];
      assert keys == init + [last];
      assert Distinct(init) && last !in init;
      CountInDistinct(init, repository);
      if last.repository == repository {
        assert KeysIn(keys, repository) == KeysIn(init, repository) + {last};
      } else {
        assert KeysIn(keys, repository) == KeysIn(init, repository);
      }
    }
  }

  lemma CountsTakesBefore(round: PartyRound, i: nat)
    requires DistinctKeys(round) && i < |round.pullRequests|
    ensures CountIn(TakenKeys(round, i), round.pullRequests[i].key.repository) == |TakesBefore(round, i)|
  {
    hide Judge;
    var took, repository, n := TakenKeys(round, i), round.pullRequests[i].key.repository, |round.pullRequests|;
    TakenOnce(round, i);
    CountInDistinct(took, repository);
    forall j | 0 <= j < i ensures round.pullRequests[j].key in took <==> round.pullRequests[j].key in TakenKeys(round, n) {
      TakenExactlyWhenJudgedTakes(round, i, j);
      TakenExactlyWhenJudgedTakes(round, n, j);
    }
    forall k | k in took ensures exists j :: 0 <= j < i && round.pullRequests[j].key == k {
      TakenFromPrefix(round, i, k);
    }
    assert TakesBefore(round, i) == KeysIn(took, repository);
  }

  lemma {:induction false} LighterCountIs(round: PartyRound, took: seq<Key>, repository: Repository,
                                          candidates: seq<Token>)
    requires Distinct(candidates)
    ensures LighterCount(round, took, repository, candidates)
            == |set c | c in candidates && IsLighter(round, took, repository, c)|
  {
    hide IsLighter;
    if candidates != [] {
      var init, last := candidates[..|candidates| - 1], candidates[|candidates| - 1];
      assert candidates == init + [last];
      LighterCountIs(round, took, repository, init);
      var before := set c | c in init && IsLighter(round, took, repository, c);
      assert (set c | c in candidates && IsLighter(round, took, repository, c))
          == before + if IsLighter(round, took, repository, last) then {last} else {};
    }
  }

  /**
   A pull request is taken exactly when it is below its cap and either has no running timer or has more
   free places than lighter candidates.
   */
  lemma TakenWhen(round: PartyRound, i: nat)
    requires DistinctKeys(round) && i < |round.pullRequests| && Distinct(round.pullRequests[i].candidates)
    ensures var pullRequest := round.pullRequests[i];
            pullRequest.key in Decision(round).take <==>
            && pullRequest.partyDeliveries < pullRequest.reviewers
            && (|| pullRequest.deadlineAt.None?
                || pullRequest.deadlineAt.value <= round.now
                || |LighterCandidates(round, i)| < pullRequest.reviewers - pullRequest.partyDeliveries)
  {
    var pullRequest, took := round.pullRequests[i], TakenKeys(round, i);
    var repository := pullRequest.key.repository;
    TakenExactlyWhenJudgedTakes(round, |round.pullRequests|, i);
    CountsTakesBefore(round, i);
    LighterCountIs(round, took, repository, pullRequest.candidates);
    forall c | c in pullRequest.candidates
      ensures IsLighter(round, took, repository, c) <==> c in LighterCandidates(round, i)
    {
    }
    assert LighterCandidates(round, i) == set c | c in pullRequest.candidates && IsLighter(round, took, repository, c);
  }

  lemma {:induction false} NoneAtCap(round: PartyRound, n: nat)
    requires n <= |round.pullRequests|
    requires forall i | 0 <= i < n :: round.pullRequests[i].partyDeliveries < round.pullRequests[i].reviewers
    ensures VerdictCount(round, n, Taken) == 0
  {
    if n > 0 {
      NoneAtCap(round, n - 1);
    }
  }

  /** The entries among the first n that are at their cap. */
  function AtCapAmong(round: PartyRound, n: nat): set<Key>
    requires n <= |round.pullRequests|
  {
    set i | 0 <= i < n && round.pullRequests[i].partyDeliveries >= round.pullRequests[i].reviewers
      :: round.pullRequests[i].key
  }

  /** The decision counts as taken what is at its cap, wherever it stands in the round. */
  lemma {:induction false} CountsAtCap(round: PartyRound, n: nat)
    requires DistinctKeys(round) && n <= |round.pullRequests|
    ensures VerdictCount(round, n, Taken) == |AtCapAmong(round, n)|
  {
    if n > 0 {
      CountsAtCap(round, n - 1);
      AtCapNext(round, n);
      TakenVerdictIs(round, TakenKeys(round, n - 1), round.pullRequests[n - 1]);
    } else {
      assert AtCapAmong(round, 0) == {};
    }
    hide Judge, AtCapAmong, TakenKeys, DistinctKeys;
  }

  lemma TakenVerdictIs(round: PartyRound, took: seq<Key>, pullRequest: WaitingPullRequest)
    ensures Judge(round, took, pullRequest) == Taken <==> pullRequest.partyDeliveries >= pullRequest.reviewers
  {
  }

  lemma AtCapNext(round: PartyRound, n: nat)
    requires DistinctKeys(round) && 0 < n <= |round.pullRequests|
    ensures var last := round.pullRequests[n - 1];
      && last.key !in AtCapAmong(round, n - 1)
      && AtCapAmong(round, n) == AtCapAmong(round, n - 1) + if last.partyDeliveries >= last.reviewers then {last.key} else {}
  {
  }
}
