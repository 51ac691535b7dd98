/**
 Rounds of requests: as long as every active member of a party keeps asking, each at
 its own time, the rounds come to rest, and only when nothing is left to hand over.
 */
module FeedVisits {
  import opened Optional
  import opened Sorting
  import opened FeedModel
  import opened FeedTurnPolicy
  import opened FeedTransactions
  import opened FeedRuns
  import opened FeedRequests
  import opened FeedProgress

  /** One request for the next pull requests, at its own clock reading. */
  datatype Visit = Visit(token: Token, at: Time)

  function AfterVisits(t: Tables, catalog: Catalog, visits: seq<Visit>): Tables
    decreases |visits|
  {
    if visits == [] then t
    else AfterVisits(AfterNext(t, catalog, visits[0].token, visits[0].at), catalog, visits[1..])
  }

  // ---------------------------------------------------------------- what a party waits for

  /** Every stored pull request of the repository is at its cap or received by all members. */
  ghost predicate Settled(t: Tables, repository: Repository, members: set<Token>) {
    forall k | k in t.pullRequests && k.repository == repository && !AtCap(t, k) ::
      forall member | member in members :: Receipt(member, k) in t.deliveries
  }

  /** The receipts the members lack in the repository. */
  function Missing(t: Tables, repository: Repository, members: set<Token>): set<Receipt> {
    set member, k | member in members && k in t.pullRequests && k.repository == repository
      && Receipt(member, k) !in t.deliveries :: Receipt(member, k)
  }

  /** The members are exactly the active ones at both ends of the period, hence throughout it. */
  ghost predicate Attend(t: Tables, repository: Repository, members: set<Token>, from: Time, to: Time) {
    && Members(t, repository, from - AWAY_AFTER) == members
    && Members(t, repository, to - AWAY_AFTER) == members
  }

  lemma AttendThroughout(t: Tables, repository: Repository, members: set<Token>, from: Time, to: Time, now: Time)
    requires Attend(t, repository, members, from, to) && from <= now <= to
    ensures Members(t, repository, now - AWAY_AFTER) == members
    ensures forall member | member in members :: TypeFor(t, member, repository) == Some(Party)
  {
    var early, late := Members(t, repository, from - AWAY_AFTER), Members(t, repository, to - AWAY_AFTER);
    forall token ensures token in Members(t, repository, now - AWAY_AFTER) <==> token in members {
      assert token in late ==> token in Members(t, repository, now - AWAY_AFTER);
      assert token in Members(t, repository, now - AWAY_AFTER) ==> token in early;
    }
  }

  /** No load is stamped with a later day. */
  ghost predicate LoadsUntil(t: Tables, day: int) {
    forall load | load in t.loads :: load.day <= day
  }

  /** No member that lacks the pull request has a lower load of the day. */
  ghost predicate LeastOn(t: Tables, day: int, members: set<Token>, token: Token, k: Key) {
    forall other | other in members && Receipt(other, k) !in t.deliveries ::
      LoadOf(t, day, k.repository, token) <= LoadOf(t, day, k.repository, other)
  }

  // ---------------------------------------------------------------- one visit

  /** A claim adds receipts and nothing else that a member could be missing by. */
  ghost predicate OnlyAddsReceipts(t: Tables, u: Tables) {
    && u.pullRequests == t.pullRequests && u.subscriptions == t.subscriptions
    && (forall r :: r in t.deliveries ==> r in u.deliveries && u.deliveries[r] == t.deliveries[r])
  }

  lemma FewerAreMissing(t: Tables, u: Tables, repository: Repository, members: set<Token>)
    requires OnlyAddsReceipts(t, u)
    ensures Missing(u, repository, members) <= Missing(t, repository, members)
  {
  }

  /** A party claim either hands over a missing receipt of the repository or leaves the repository as it is. */
  lemma ClaimTakesOrRests(t: Tables, claim: PartyClaim, repository: Repository, members: set<Token>)
    requires claim.token in members
    ensures var u := AfterPartyClaim(t, claim);
      && OnlyAddsReceipts(t, u) && u.fetches == t.fetches
      && (SameFor(t, u, repository, claim.day) || Missing(u, repository, members) < Missing(t, repository, members))
      && ((exists taken :: taken in TakeOf(t, claim) && taken.repository == repository) ==>
            Missing(u, repository, members) < Missing(t, repository, members))
  {
    hide TakeOf, AfterPartyClaim, WaitingKeys;
    var u := AfterPartyClaim(t, claim);
    PartyClaimDelivers(t, claim);
    TakenWereMissing(t, claim);
    FewerAreMissing(t, u, repository, members);
    if taken :| taken in TakeOf(t, claim) && taken.repository == repository {
      assert taken in KeySet(TakeOf(t, claim));
      assert Receipt(claim.token, taken) in Missing(t, repository, members);
      assert Receipt(claim.token, taken) !in Missing(u, repository, members);
    } else {
      QuietClaim(t, claim, repository);
    }
  }

  lemma TakenWereMissing(t: Tables, claim: PartyClaim)
    ensures forall taken | taken in KeySet(TakeOf(t, claim)) ::
              taken in t.pullRequests && Receipt(claim.token, taken) !in t.deliveries
  {
    hide TakeOf;
    PartyClaimDelivers(t, claim);
  }

  lemma QuietClaim(t: Tables, claim: PartyClaim, repository: Repository)
    requires forall taken | taken in TakeOf(t, claim) :: taken.repository != repository
    ensures SameFor(t, AfterPartyClaim(t, claim), repository, claim.day)
  {
    hide TakeOf, AfterPartyClaim, LoadOf;
    PartyClaimDelivers(t, claim);
    CountInPositive(TakeOf(t, claim), repository);
    forall token { ClaimLoads(t, claim, repository, token); }
  }

  lemma SameTransitive(t: Tables, u: Tables, v: Tables, repository: Repository, day: int)
    requires SameFor(t, u, repository, day) && SameFor(u, v, repository, day)
    ensures SameFor(t, v, repository, day)
  {
  }

  lemma SameMissing(t: Tables, u: Tables, repository: Repository, day: int, members: set<Token>)
    requires SameFor(t, u, repository, day)
    ensures Missing(u, repository, members) == Missing(t, repository, members)
  {
    forall r: Receipt ensures r in Missing(u, repository, members) <==> r in Missing(t, repository, members) {
    }
  }

  /** What a visit does in three transactions: the solo claim elsewhere, the party claim, the fetch. */
  lemma VisitTakesOrRests(t: Tables, catalog: Catalog, repository: Repository, members: set<Token>, v: Visit)
    requires v.token in members && TypeFor(t, v.token, repository) == Some(Party)
    ensures var u := AfterNext(t, catalog, v.token, v.at);
      && OnlyAddsReceipts(t, u) && u.fetches == AfterFetch(t, v.token, v.at).fetches
      && (SameFor(t, u, repository, LoadDay(v.at)) || Missing(u, repository, members) < Missing(t, repository, members))
      && Missing(u, repository, members) <= Missing(t, repository, members)
      && ((exists taken :: taken in NextKeys(t, catalog, v.token, v.at) && taken.repository == repository) ==>
            Missing(u, repository, members) < Missing(t, repository, members))
  {
    hide AfterClaim, AfterPartyClaim, TakeOf, Missing, SameFor, NextKeys, AfterNext, Unreceived;
    var solo, claim := Resolved(t, catalog, v.token, Solo), PartyClaimOf(t, catalog, v.token, v.at);
    var s := AfterClaim(t, v.token, solo, v.at);
    var p := AfterPartyClaim(s, claim);
    var u := AfterNext(t, catalog, v.token, v.at);
    StepsOfNext(t, catalog, v.token, v.at);
    SoloAdds(t, v.token, solo, v.at);
    SoloClaimElsewhere(t, v.token, solo, v.at, repository, claim.day);
    SameMissing(t, s, repository, claim.day, members);
    ClaimTakesOrRests(s, claim, repository, members);
    FetchChangesFetches(p, v.token, v.at, repository, claim.day);
    SameMissing(p, u, repository, claim.day, members);
    FewerAreMissing(t, u, repository, members);
    if SameFor(s, p, repository, claim.day) {
      SameTransitive(t, s, p, repository, claim.day);
      SameTransitive(t, p, u, repository, claim.day);
    }
    if taken :| taken in NextKeys(t, catalog, v.token, v.at) && taken.repository == repository {
      AnsweredByParty(t, catalog, v, taken);
    }
  }

  lemma SoloAdds(t: Tables, token: Token, repositories: set<Repository>, at: Time)
    ensures OnlyAddsReceipts(t, AfterClaim(t, token, repositories, at))
  {
  }

  lemma FetchChangesFetches(t: Tables, token: Token, at: Time, repository: Repository, day: int)
    ensures OnlyAddsReceipts(t, AfterFetch(t, token, at)) && SameFor(t, AfterFetch(t, token, at), repository, day)
  {
  }

  /** On a party repository the answer comes from the party claim. */
  lemma AnsweredByParty(t: Tables, catalog: Catalog, v: Visit, taken: Key)
    requires taken in NextKeys(t, catalog, v.token, v.at) && TypeFor(t, v.token, taken.repository) == Some(Party)
    ensures taken in TakeOf(AfterClaim(t, v.token, Resolved(t, catalog, v.token, Solo), v.at),
                            PartyClaimOf(t, catalog, v.token, v.at))
  {
    hide TakeOf, AfterClaim;
    NextKeysAre(t, catalog, v.token, v.at);
  }

  /** A visit's loads are stamped with its own day. */
  lemma VisitLoads(t: Tables, catalog: Catalog, v: Visit, day: int)
    requires LoadsUntil(t, day) && day <= LoadDay(v.at)
    ensures LoadsUntil(AfterNext(t, catalog, v.token, v.at), LoadDay(v.at))
  {
    hide TakeOf, Decision, RoundOf, Resolved;
    StepsOfNext(t, catalog, v.token, v.at);
  }

  lemma LaterDay(a: Time, b: Time)
    requires a <= b
    ensures LoadDay(a) <= LoadDay(b)
  {
  }

  /** A visit within the period keeps exactly the same members active throughout it. */
  lemma VisitKeepsAttend(t: Tables, u: Tables, repository: Repository, members: set<Token>, from: Time, to: Time,
                         v: Visit)
    requires Attend(t, repository, members, from, to) && v.token in members && from <= v.at <= to
    requires u.subscriptions == t.subscriptions && u.fetches == AfterFetch(t, v.token, v.at).fetches
    ensures Attend(u, repository, members, from, to)
  {
    forall token ensures token in Members(u, repository, from - AWAY_AFTER) <==> token in members {
      assert token in Members(t, repository, from - AWAY_AFTER) <==> token in members;
    }
    forall token ensures token in Members(u, repository, to - AWAY_AFTER) <==> token in members {
      assert token in Members(t, repository, to - AWAY_AFTER) <==> token in members;
    }
  }

  /** All a visit within the period keeps and moves. */
  lemma VisitWithin(t: Tables, catalog: Catalog, repository: Repository, members: set<Token>, from: Time, to: Time,
                    v: Visit, day: int)
    requires Attend(t, repository, members, from, to) && v.token in members && from <= v.at <= to
    requires LoadsUntil(t, day) && day <= LoadDay(v.at)
    ensures var u := AfterNext(t, catalog, v.token, v.at);
      && Attend(u, repository, members, from, to) && LoadsUntil(u, LoadDay(v.at)) && OnlyAddsReceipts(t, u)
      && Missing(u, repository, members) <= Missing(t, repository, members)
      && (SameFor(t, u, repository, LoadDay(v.at)) || Missing(u, repository, members) < Missing(t, repository, members))
      && ((exists taken :: taken in NextKeys(t, catalog, v.token, v.at) && taken.repository == repository) ==>
            Missing(u, repository, members) < Missing(t, repository, members))
  {
    hide AfterNext, Attend, Missing, LoadsUntil, SameFor, NextKeys, AfterFetch;
    AttendThroughout(t, repository, members, from, to, v.at);
    VisitTakesOrRests(t, catalog, repository, members, v);
    VisitLoads(t, catalog, v, day);
    VisitKeepsAttend(t, AfterNext(t, catalog, v.token, v.at), repository, members, from, to, v);
  }

  // ---------------------------------------------------------------- a list of visits

  /** The members visit within the period, in the order of the clock, on no day before the given one. */
  ghost predicate InPeriod(visits: seq<Visit>, members: set<Token>, from: Time, to: Time, day: int) {
    && (forall i | 0 <= i < |visits| :: visits[i].token in members && from <= visits[i].at <= to)
    && (forall i, j | 0 <= i < j < |visits| :: visits[i].at <= visits[j].at)
    && (forall i | 0 <= i < |visits| :: day <= LoadDay(visits[i].at))
    && day <= LoadDay(to)
  }

  lemma RestInPeriod(visits: seq<Visit>, members: set<Token>, from: Time, to: Time, day: int)
    requires visits != [] && InPeriod(visits, members, from, to, day)
    ensures visits[0].token in members && from <= visits[0].at <= to && day <= LoadDay(visits[0].at)
    ensures InPeriod(visits[1..], members, from, to, LoadDay(visits[0].at))
  {
    hide LoadDay;
    var rest := visits[1..];
    forall i | 0 <= i < |rest| ensures LoadDay(visits[0].at) <= LoadDay(rest[i].at) {
      LaterDay(visits[0].at, rest[i].at);
    }
    LaterDay(visits[0].at, to);
  }

  /** Over all the visits the missing receipts never grow, and what a visit keeps still holds. */
  lemma {:induction false} VisitsNeverGrow(t: Tables, catalog: Catalog, repository: Repository, members: set<Token>,
                                           visits: seq<Visit>, from: Time, to: Time, day: int)
    requires Attend(t, repository, members, from, to) && InPeriod(visits, members, from, to, day) && LoadsUntil(t, day)
    ensures var u := AfterVisits(t, catalog, visits);
      && OnlyAddsReceipts(t, u) && LoadsUntil(u, LoadDay(to))
      && Missing(u, repository, members) <= Missing(t, repository, members)
    decreases |visits|
  {
    hide AfterNext, Attend, Missing, SameFor, NextKeys, LoadDay;
    if visits != [] {
      hide InPeriod, LoadsUntil;
      RestInPeriod(visits, members, from, to, day);
      VisitWithin(t, catalog, repository, members, from, to, visits[0], day);
      VisitsNeverGrow(AfterNext(t, catalog, visits[0].token, visits[0].at), catalog, repository, members, visits[1..],
                      from, to, LoadDay(visits[0].at));
    }
  }

  /** The least loaded stays the least loaded on a later day, on which nobody took anything yet. */
  lemma LeastOnLaterDay(t: Tables, members: set<Token>, token: Token, k: Key, day: int, later: int)
    requires LeastOn(t, day, members, token, k) && LoadsUntil(t, day) && day <= later
    ensures LeastOn(t, later, members, token, k)
  {
  }

  lemma LeastOnSame(t: Tables, u: Tables, members: set<Token>, token: Token, k: Key, day: int)
    requires LeastOn(t, day, members, token, k) && SameFor(t, u, k.repository, day)
    ensures LeastOn(u, day, members, token, k)
    ensures Receipt(token, k) in u.deliveries <==> Receipt(token, k) in t.deliveries
  {
    forall other ensures Receipt(other, k) in u.deliveries <==> Receipt(other, k) in t.deliveries {
      assert Receipt(other, k).key.repository == k.repository;
    }
  }

  /** The visit of a least loaded member that lacks a pull request below its cap hands one over. */
  lemma TakerShrinks(t: Tables, catalog: Catalog, members: set<Token>, from: Time, to: Time, v: Visit, k: Key)
    requires NamesRepositories(catalog) && catalog(k.repository)
    requires Attend(t, k.repository, members, from, to) && v.token in members && from <= v.at <= to
    requires k in t.pullRequests && !AtCap(t, k) && Receipt(v.token, k) !in t.deliveries
    requires LeastOn(t, LoadDay(v.at), members, v.token, k)
    ensures exists taken :: taken in NextKeys(t, catalog, v.token, v.at) && taken.repository == k.repository
  {
    AttendThroughout(t, k.repository, members, from, to, v.at);
    hide Attend, Members, AtCap, NextKeys, Resolved;
    NoDeadlock(t, catalog, v.token, k, v.at);
  }

  /**
   Visits that include one of a least loaded member that lacks a pull request below its cap are not
   all in vain, however the other members' visits, midnights and solo claims fall in between.
   */
  lemma {:induction false} VisitsWithTakerShrink(t: Tables, catalog: Catalog, members: set<Token>, visits: seq<Visit>,
                                                 from: Time, to: Time, day: int, taker: Token, k: Key)
    requires NamesRepositories(catalog) && catalog(k.repository)
    requires Attend(t, k.repository, members, from, to) && InPeriod(visits, members, from, to, day) && LoadsUntil(t, day)
    requires k in t.pullRequests && !AtCap(t, k) && Receipt(taker, k) !in t.deliveries
    requires LeastOn(t, day, members, taker, k)
    requires exists i :: 0 <= i < |visits| && visits[i].token == taker
    ensures Missing(AfterVisits(t, catalog, visits), k.repository, members) < Missing(t, k.repository, members)
    decreases |visits|
  {
    hide AfterNext, Attend, Missing, SameFor, NextKeys, LoadDay, InPeriod, LoadsUntil, LeastOn, AtCap;
    hide NamesRepositories;
    var v, rest := visits[0], visits[1..];
    var u := AfterNext(t, catalog, v.token, v.at);
    RestInPeriod(visits, members, from, to, day);
    VisitWithin(t, catalog, k.repository, members, from, to, v, day);
    VisitsNeverGrow(u, catalog, k.repository, members, rest, from, to, LoadDay(v.at));
    LeastOnLaterDay(t, members, taker, k, day, LoadDay(v.at));
    if v.token == taker {
      TakerShrinks(t, catalog, members, from, to, v, k);
    } else if SameFor(t, u, k.repository, LoadDay(v.at)) {
      SameCap(t, u, k, LoadDay(v.at));
      LeastOnSame(t, u, members, taker, k, LoadDay(v.at));
      OtherVisit(visits, taker);
      VisitsWithTakerShrink(u, catalog, members, rest, from, to, LoadDay(v.at), taker, k);
    }
  }

  lemma OtherVisit(visits: seq<Visit>, taker: Token)
    requires visits != [] && visits[0].token != taker
    requires exists i :: 0 <= i < |visits| && visits[i].token == taker
    ensures exists i :: 0 <= i < |visits[1..]| && visits[1..][i].token == taker
  {
    var i :| 0 <= i < |visits| && visits[i].token == taker;
    assert visits[1..][i - 1].token == taker;
  }

  // ---------------------------------------------------------------- rounds

  datatype Round = Round(from: Time, to: Time, visits: seq<Visit>)

  /** Every member, and nobody else, visits at least once within the round, in any order. */
  ghost predicate IsRound(r: Round, members: set<Token>) {
    && r.from <= r.to && InPeriod(r.visits, members, r.from, r.to, LoadDay(r.from))
    && forall member | member in members :: exists i :: 0 <= i < |r.visits| && r.visits[i].token == member
  }

  /** Among the tokens one has the lowest load of the day. */
  lemma LowestExists(t: Tables, day: int, repository: Repository, tokens: set<Token>) returns (lowest: Token)
    requires tokens != {}
    ensures lowest in tokens
    ensures forall other | other in tokens :: LoadOf(t, day, repository, lowest) <= LoadOf(t, day, repository, other)
  {
    lowest :| lowest in tokens;
    if tokens != {lowest} {
      var other := LowestExists(t, day, repository, tokens - {lowest});
      if LoadOf(t, day, repository, other) < LoadOf(t, day, repository, lowest) {
        lowest := other;
      }
    }
  }

  /** A round hands something over unless the repository is settled. */
  lemma UnsettledRoundShrinks(t: Tables, catalog: Catalog, repository: Repository, members: set<Token>, r: Round)
    requires NamesRepositories(catalog) && catalog(repository)
    requires IsRound(r, members) && Attend(t, repository, members, r.from, r.to) && LoadsUntil(t, LoadDay(r.from))
    requires !Settled(t, repository, members)
    ensures Missing(AfterVisits(t, catalog, r.visits), repository, members) < Missing(t, repository, members)
  {
    hide AfterVisits, Attend, Missing, LoadsUntil, InPeriod, AtCap;
    var k, lacking :| k in t.pullRequests && k.repository == repository && !AtCap(t, k)
      && lacking in members && Receipt(lacking, k) !in t.deliveries;
    var tokens := set token | token in members && Receipt(token, k) !in t.deliveries;
    assert lacking in tokens;
    var taker := LowestExists(t, LoadDay(r.from), repository, tokens);
    VisitsWithTakerShrink(t, catalog, members, r.visits, r.from, r.to, LoadDay(r.from), taker, k);
  }

  /** Added receipts leave a settled repository settled. */
  lemma SettledStays(t: Tables, u: Tables, repository: Repository, members: set<Token>)
    requires OnlyAddsReceipts(t, u) && Settled(t, repository, members)
    ensures Settled(u, repository, members)
  {
    forall k | k in t.pullRequests && AtCap(t, k) ensures AtCap(u, k) {
      SubsetSize(PartyHolders(t, k), PartyHolders(u, k));
    }
  }

  /** A settled repository is at rest: no member's request is answered with a pull request of it. */
  lemma SettledIsAtRest(t: Tables, catalog: Catalog, repository: Repository, members: set<Token>, v: Visit, taken: Key)
    requires Settled(t, repository, members) && v.token in members
    requires TypeFor(t, v.token, repository) == Some(Party)
    requires taken in NextKeys(t, catalog, v.token, v.at)
    ensures taken.repository != repository
  {
    if taken.repository == repository {
      hide TakeOf, AfterClaim, AtCap, NextKeys, SameFor;
      var solo, claim := Resolved(t, catalog, v.token, Solo), PartyClaimOf(t, catalog, v.token, v.at);
      var s := AfterClaim(t, v.token, solo, v.at);
      AnsweredByParty(t, catalog, v, taken);
      PartyClaimDelivers(s, claim);
      assert taken in KeySet(TakeOf(s, claim));
      SoloClaimElsewhere(t, v.token, solo, v.at, repository, claim.day);
      SameReceipt(t, s, taken, v.token, claim.day);
      SameCap(t, s, taken, claim.day);
    }
  }

  lemma SameReceipt(t: Tables, u: Tables, k: Key, token: Token, day: int)
    requires SameFor(t, u, k.repository, day)
    ensures u.pullRequests == t.pullRequests && (Receipt(token, k) in u.deliveries <==> Receipt(token, k) in t.deliveries)
  {
    assert Receipt(token, k).key.repository == k.repository;
  }

  // ---------------------------------------------------------------- one round after the other

  /**
   Each round starts after the one before and ends within the away time, less the fetch resolution,
   of that round's start, so no member that keeps asking goes away.
   */
  ghost predicate IsSchedule(rounds: seq<Round>, members: set<Token>) {
    && (forall i | 0 <= i < |rounds| :: IsRound(rounds[i], members))
    && forall i | 0 <= i < |rounds| - 1 ::
         && rounds[i].to <= rounds[i + 1].from
         && rounds[i + 1].to <= rounds[i].from + AWAY_AFTER - FETCH_RESOLUTION
  }

  function AfterRounds(t: Tables, catalog: Catalog, rounds: seq<Round>): Tables
    decreases |rounds|
  {
    if rounds == [] then t else AfterRounds(AfterVisits(t, catalog, rounds[0].visits), catalog, rounds[1..])
  }

  lemma NextFetches(t: Tables, catalog: Catalog, v: Visit)
    ensures AfterNext(t, catalog, v.token, v.at).fetches == AfterFetch(t, v.token, v.at).fetches
    ensures AfterNext(t, catalog, v.token, v.at).subscriptions == t.subscriptions
  {
    StepsOfNext(t, catalog, v.token, v.at);
    hide AfterPartyClaim, TakeOf, WaitingKeys;
    PartyClaimDelivers(AfterClaim(t, v.token, Resolved(t, catalog, v.token, Solo), v.at),
                       PartyClaimOf(t, catalog, v.token, v.at));
  }

  /** No stored fetch time is lost or moves back. */
  ghost predicate NoOlderFetch(t: Tables, u: Tables) {
    forall token | token in t.fetches :: token in u.fetches && t.fetches[token] <= u.fetches[token]
  }

  ghost predicate OnlyMembersFetch(t: Tables, u: Tables, members: set<Token>) {
    forall token | token in u.fetches && token !in members :: token in t.fetches && u.fetches[token] == t.fetches[token]
  }

  /** A visitor's stored fetch time is at most the resolution older than the start. */
  ghost predicate KnowsVisits(u: Tables, visits: seq<Visit>, from: Time) {
    forall i | 0 <= i < |visits| ::
      visits[i].token in u.fetches && from - FETCH_RESOLUTION <= u.fetches[visits[i].token]
  }

  lemma FetchStep(t: Tables, catalog: Catalog, v: Visit, members: set<Token>, from: Time)
    requires v.token in members && from <= v.at
    ensures var u := AfterNext(t, catalog, v.token, v.at);
            u.subscriptions == t.subscriptions && NoOlderFetch(t, u) && OnlyMembersFetch(t, u, members)
            && KnowsVisits(u, [v], from)
  {
    hide AfterNext;
    NextFetches(t, catalog, v);
  }

  lemma FetchesBefore(t: Tables, s: Tables, u: Tables, members: set<Token>, visits: seq<Visit>, from: Time)
    requires visits != [] && NoOlderFetch(t, s) && OnlyMembersFetch(t, s, members) && KnowsVisits(s, [visits[0]], from)
    requires NoOlderFetch(s, u) && OnlyMembersFetch(s, u, members) && KnowsVisits(u, visits[1..], from)
    ensures NoOlderFetch(t, u) && OnlyMembersFetch(t, u, members) && KnowsVisits(u, visits, from)
  {
    assert [visits[0]][0].token in s.fetches;
    assert forall i | 0 < i < |visits| :: visits[i] == visits[1..][i - 1];
  }

  lemma {:induction false} VisitsFetch(t: Tables, catalog: Catalog, visits: seq<Visit>, members: set<Token>, from: Time)
    requires forall i | 0 <= i < |visits| :: visits[i].token in members && from <= visits[i].at
    ensures var u := AfterVisits(t, catalog, visits);
            u.subscriptions == t.subscriptions && NoOlderFetch(t, u) && OnlyMembersFetch(t, u, members)
            && KnowsVisits(u, visits, from)
    decreases |visits|
  {
    if visits != [] {
      hide AfterNext, NoOlderFetch, OnlyMembersFetch, KnowsVisits;
      var v := visits[0];
      var s := AfterNext(t, catalog, v.token, v.at);
      FetchStep(t, catalog, v, members, from);
      VisitsFetch(s, catalog, visits[1..], members, from);
      FetchesBefore(t, s, AfterVisits(s, catalog, visits[1..]), members, visits, from);
    }
  }

  /** Having visited in one round, exactly the same members are active throughout the next. */
  lemma RoundKeepsAttend(t: Tables, catalog: Catalog, repository: Repository, members: set<Token>, r: Round,
                         next: Round)
    requires IsRound(r, members) && Attend(t, repository, members, r.from, r.to)
    requires r.to <= next.from <= next.to <= r.from + AWAY_AFTER - FETCH_RESOLUTION
    ensures Attend(AfterVisits(t, catalog, r.visits), repository, members, next.from, next.to)
  {
    hide AfterVisits, LoadDay;
    VisitsFetch(t, catalog, r.visits, members, r.from);
    var u := AfterVisits(t, catalog, r.visits);
    ActiveAgain(t, u, repository, members, r, next.from);
    ActiveAgain(t, u, repository, members, r, next.to);
  }

  lemma ActiveAgain(t: Tables, u: Tables, repository: Repository, members: set<Token>, r: Round, now: Time)
    requires IsRound(r, members) && Attend(t, repository, members, r.from, r.to) && u.subscriptions == t.subscriptions
    requires r.from <= now <= r.from + AWAY_AFTER - FETCH_RESOLUTION
    requires OnlyMembersFetch(t, u, members) && KnowsVisits(u, r.visits, r.from)
    ensures Members(u, repository, now - AWAY_AFTER) == members
  {
    forall token ensures token in Members(u, repository, now - AWAY_AFTER) <==> token in members {
      if token in members {
        assert token in Members(t, repository, r.from - AWAY_AFTER);
        var i :| 0 <= i < |r.visits| && r.visits[i].token == token;
        assert token in u.fetches && now - AWAY_AFTER <= u.fetches[token];
      } else {
        assert token !in Members(t, repository, r.from - AWAY_AFTER);
      }
    }
  }

  /**
   Rounds of requests come to rest within as many rounds as receipts are missing: then every pull
   request of the repository is at its cap or received by all members. Each request has its own
   time and is the whole request; rounds may span midnights and the schedule any number of days.
   */
  lemma {:induction false} RoundsSettle(t: Tables, catalog: Catalog, repository: Repository, members: set<Token>,
                                        rounds: seq<Round>)
    requires NamesRepositories(catalog) && catalog(repository)
    requires IsSchedule(rounds, members)
    requires rounds != [] ==>
      Attend(t, repository, members, rounds[0].from, rounds[0].to) && LoadsUntil(t, LoadDay(rounds[0].from))
    requires |Missing(t, repository, members)| <= |rounds|
    ensures Settled(AfterRounds(t, catalog, rounds), repository, members)
    decreases |rounds|
  {
    hide Settled, Missing, AfterVisits, Attend, LoadsUntil, IsRound, LoadDay, NamesRepositories;
    if rounds == [] {
      NothingMissing(t, repository, members);
    } else if Settled(t, repository, members) {
      RoundsOnlyAdd(t, catalog, repository, members, rounds);
      SettledStays(t, AfterRounds(t, catalog, rounds), repository, members);
    } else {
      var u := AfterVisits(t, catalog, rounds[0].visits);
      UnsettledRoundShrinks(t, catalog, repository, members, rounds[0]);
      ProperSubsetSize(Missing(u, repository, members), Missing(t, repository, members));
      NextRound(t, catalog, repository, members, rounds);
      RoundsSettle(u, catalog, repository, members, rounds[1..]);
    }
  }

  /** After a round the next one starts under the same conditions. */
  lemma NextRound(t: Tables, catalog: Catalog, repository: Repository, members: set<Token>, rounds: seq<Round>)
    requires rounds != [] && IsSchedule(rounds, members)
    requires Attend(t, repository, members, rounds[0].from, rounds[0].to) && LoadsUntil(t, LoadDay(rounds[0].from))
    ensures var u, rest := AfterVisits(t, catalog, rounds[0].visits), rounds[1..];
      && OnlyAddsReceipts(t, u) && IsSchedule(rest, members)
      && (rest != [] ==>
            Attend(u, repository, members, rest[0].from, rest[0].to) && LoadsUntil(u, LoadDay(rest[0].from)))
  {
    hide AfterVisits, Attend, Missing, InPeriod;
    var r, rest := rounds[0], rounds[1..];
    VisitsNeverGrow(t, catalog, repository, members, r.visits, r.from, r.to, LoadDay(r.from));
    forall i | 0 <= i < |rest| - 1
      ensures rest[i].to <= rest[i + 1].from && rest[i + 1].to <= rest[i].from + AWAY_AFTER - FETCH_RESOLUTION
    {
      assert rounds[i + 1].to <= rounds[i + 1 + 1].from;
    }
    if rest != [] {
      assert rounds[0].to <= rounds[0 + 1].from;
      RoundKeepsAttend(t, catalog, repository, members, r, rest[0]);
    }
  }

  lemma {:induction false} RoundsOnlyAdd(t: Tables, catalog: Catalog, repository: Repository, members: set<Token>,
                                         rounds: seq<Round>)
    requires IsSchedule(rounds, members)
    requires rounds != [] ==>
      Attend(t, repository, members, rounds[0].from, rounds[0].to) && LoadsUntil(t, LoadDay(rounds[0].from))
    ensures OnlyAddsReceipts(t, AfterRounds(t, catalog, rounds))
    decreases |rounds|
  {
    hide AfterVisits, Attend, LoadsUntil, IsSchedule, LoadDay;
    if rounds != [] {
      NextRound(t, catalog, repository, members, rounds);
      RoundsOnlyAdd(AfterVisits(t, catalog, rounds[0].visits), catalog, repository, members, rounds[1..]);
    }
  }

  lemma ProperSubsetSize<T>(a: set<T>, b: set<T>)
    requires a < b
    ensures |a| < |b|
  {
    assert b == a + (b - a);
    assert b - a != {};
  }

  lemma NothingMissing(t: Tables, repository: Repository, members: set<Token>)
    requires |Missing(t, repository, members)| == 0
    ensures Settled(t, repository, members)
  {
    forall k, member | k in t.pullRequests && k.repository == repository && member in members
      ensures Receipt(member, k) in t.deliveries
    {
      assert Receipt(member, k) !in Missing(t, repository, members);
    }
  }
}
