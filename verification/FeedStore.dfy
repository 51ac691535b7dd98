/** The feed repositories over the tables: each public method is one transaction. */
module FeedStore {
  import opened Optional
  import opened Sorting
  import opened FeedModel
  import opened FeedTurnPolicy
  import opened FeedTransactions
  import opened FeedRounds

  /** Lists a set of rows, each once, in an order of the database's choosing. */
  method Rows<T(==,!new)>(rows: set<T>) returns (listed: seq<T>)
    ensures Distinct(listed)
    ensures forall row :: row in listed <==> row in rows
  {
    listed := [];
    var rest := rows;
    while rest != {}
      invariant rest <= rows
      invariant Distinct(listed)
      invariant forall row :: row in listed <==> row in rows - rest
    {
      var row :| row in rest;
      assert row !in listed;
      listed := listed + [row];
      rest := rest - {row};
    }
  }

  /** The chosen keys that are waiting, each at its first occurrence. */
  function Kept(chosen: seq<Key>, waiting: set<Key>): seq<Key> {
    if chosen == [] then []
    else
      var kept, last := Kept(chosen[..|chosen| - 1], waiting), chosen[|chosen| - 1];
      if last in waiting && last !in kept then kept + [last] else kept
  }

  lemma {:induction false} KeptElements(chosen: seq<Key>, waiting: set<Key>)
    ensures Distinct(Kept(chosen, waiting))
    ensures forall k :: k in Kept(chosen, waiting) <==> k in chosen && k in waiting
  {
    if chosen != [] {
      var init, last := chosen[..|chosen| - 1], chosen[|chosen| - 1];
      assert chosen == init + [last];
      KeptElements(init, waiting);
    }
  }

  /** The filter removes nothing from distinct keys that are all waiting. */
  lemma {:induction false} KeepsAll(chosen: seq<Key>, waiting: set<Key>)
    requires Distinct(chosen) && forall k | k in chosen :: k in waiting
    ensures Kept(chosen, waiting) == chosen
  {
    if chosen != [] {
      var init, last := chosen[..|chosen| - 1], chosen[|chosen| - 1];
      assert chosen == init + [last];
      KeepsAll(init, waiting);
    }
  }

  method KeepWaitingKeys(waiting: seq<WaitingRow>, chosen: seq<Key>) returns (kept: seq<Key>)
    ensures kept == Kept(chosen, set row | row in waiting :: row.key)
  {
    ghost var allowed := set row | row in waiting :: row.key;
    var notYetKept := {};
    for i := 0 to |waiting|
      invariant notYetKept == set row | row in waiting[..i] :: row.key
    {
      assert waiting[..i + 1] == waiting[..i] + [waiting[i]];
      notYetKept := notYetKept + {waiting[i].key};
    }
    assert waiting[..|waiting|] == waiting;
    kept := [];
    for i := 0 to |chosen|
      invariant kept == Kept(chosen[..i], allowed)
      invariant notYetKept == allowed - KeySet(kept)
    {
      var k := chosen[i];
      assert chosen[..i + 1][..i] == chosen[..i];
      if k in notYetKept {
        assert KeySet(kept + [k]) == KeySet(kept) + {k};
        kept := kept + [k];
        notYetKept := notYetKept - {k};
      }
    }
    assert chosen[..|chosen|] == chosen;
  }

  /** The chosen keys among the inserted ones, in the chosen order. */
  function Selected(chosen: seq<Key>, inserted: set<Key>): seq<Key> {
    if chosen == [] then []
    else
      var selected, last := Selected(chosen[..|chosen| - 1], inserted), chosen[|chosen| - 1];
      if last in inserted then selected + [last] else selected
  }

  lemma {:induction false} SelectsAll(chosen: seq<Key>, inserted: set<Key>)
    requires forall k | k in chosen :: k in inserted
    ensures Selected(chosen, inserted) == chosen
  {
    if chosen != [] {
      var init, last := chosen[..|chosen| - 1], chosen[|chosen| - 1];
      assert chosen == init + [last];
      SelectsAll(init, inserted);
    }
  }

  function RowsOfKeys(t: Tables, keys: seq<Key>): (rows: seq<WaitingRow>)
    requires forall k | k in keys :: k in t.pullRequests
    ensures |rows| == |keys|
    ensures forall i | 0 <= i < |keys| :: keys[i] in t.pullRequests && rows[i] == WaitingRowOf(t, keys[i])
  {
    seq(|keys|, i requires 0 <= i < |keys| => assert keys[i] in keys; WaitingRowOf(t, keys[i]))
  }

  function WaitingRows(t: Tables, claim: PartyClaim): (rows: seq<WaitingRow>)
    ensures ReadsWaiting(t, claim, rows)
  {
    WaitingListed(t, claim);
    RowsOfKeys(t, WaitingInOrder(t, claim))
  }

  // ---------------------------------------------------------------- what pruning leaves alone

  /** Everything but the loads decides who waits, who holds and who is a member. */
  lemma OnlyLoadsDiffer(t: Tables, u: Tables, claim: PartyClaim)
    requires u == t.(loads := u.loads)
    ensures WaitingKeys(u, claim) == WaitingKeys(t, claim)
    ensures TakenByOthers(u, claim) == TakenByOthers(t, claim)
    ensures WaitingInOrder(u, claim) == WaitingInOrder(t, claim)
    ensures forall k | k in t.pullRequests :: WaitingOf(u, claim, k) == WaitingOf(t, claim, k)
  {
    assert forall k :: PartyHolders(u, k) == PartyHolders(t, k) && Holders(u, k) == Holders(t, k);
    assert Unreceived(u, claim.token, claim.repositories) == Unreceived(t, claim.token, claim.repositories);
    assert WaitingKeys(u, claim) == WaitingKeys(t, claim);
    forall k | k in t.pullRequests ensures WaitingOf(u, claim, k) == WaitingOf(t, claim, k) {
      assert Members(u, k.repository, claim.activeSince) == Members(t, k.repository, claim.activeSince);
    }
  }

  lemma PruningKeepsLoads(t: Tables, claim: PartyClaim)
    ensures RoundLoads(PruneLoads(t, claim.day), claim) == RoundLoads(t, claim)
  {
    hide WaitingKeys, WaitingInOrder, WaitingOf, TakenByOthers;
    OnlyLoadsDiffer(t, PruneLoads(t, claim.day), claim);
    assert WaitingRepositories(PruneLoads(t, claim.day), claim) == WaitingRepositories(t, claim);
  }

  /** Deleting the loads of earlier days changes nothing the claim reads. */
  lemma PruningKeepsRound(t: Tables, claim: PartyClaim)
    ensures RoundOf(PruneLoads(t, claim.day), claim) == RoundOf(t, claim)
    ensures TakenByOthers(PruneLoads(t, claim.day), claim) == TakenByOthers(t, claim)
  {
    var u := PruneLoads(t, claim.day);
    OnlyLoadsDiffer(t, u, claim);
    PruningKeepsLoads(t, claim);
    hide WaitingOf, RoundLoads, Members;
    var keys, pullRequests := WaitingInOrder(t, claim), RoundOf(t, claim).pullRequests;
    forall i | 0 <= i < |keys| ensures keys[i] in t.pullRequests && pullRequests[i] == WaitingOf(u, claim, keys[i]) {
      RoundEntry(t, claim, i);
    }
    MatchingRound(u, claim, pullRequests);
  }

  lemma PrunedClaim(t: Tables, claim: PartyClaim)
    requires claim.repositories != {}
    ensures var u := PruneLoads(t, claim.day);
            && RecordTake(u, claim, Decision(RoundOf(u, claim)).take) == AfterPartyClaim(t, claim)
            && PartyResultOf(u, claim) == PartyResultOf(t, claim)
  {
    PruningKeepsRound(t, claim);
  }

  lemma RoundKeysDistinct(t: Tables, claim: PartyClaim)
    ensures DistinctKeys(RoundOf(t, claim))
  {
  }

  /** What the turn rule takes is waiting, and no key is taken twice. */
  lemma TakeIsWaiting(t: Tables, claim: PartyClaim)
    ensures var take := Decision(RoundOf(t, claim)).take;
            Distinct(take) && forall k | k in take :: k in WaitingKeys(t, claim)
  {
    var round := RoundOf(t, claim);
    var n := |round.pullRequests|;
    RoundKeysDistinct(t, claim);
    TakenOnce(round, n);
    forall k | k in TakenKeys(round, n) ensures k in WaitingKeys(t, claim) {
      TakenFromPrefix(round, n, k);
      var i :| 0 <= i < n && round.pullRequests[i].key == k;
      assert WaitingInOrder(t, claim)[i] in WaitingInOrder(t, claim);
    }
  }

  lemma NothingTaken(t: Tables, claim: PartyClaim)
    ensures RecordTake(t, claim, []) == t
  {
  }

  /** The rows inserted for the token, per repository. */
  ghost predicate CountsLoads(loads: seq<LoadRow>, index: map<Repository, nat>, day: int, token: Token,
                              inserted: seq<Key>) {
    && (forall repository :: repository in index <==> CountIn(inserted, repository) > 0)
    && (forall repository | repository in index ::
          index[repository] < |loads|
          && loads[index[repository]] == LoadRow(LoadKey(day, repository, token), CountIn(inserted, repository)))
    && (forall i | 0 <= i < |loads| :: loads[i].load.repository in index && index[loads[i].load.repository] == i)
  }

  /** One more inserted key: its repository's row exists or is appended, then counts one more. */
  lemma CountsNext(rows: seq<LoadRow>, index: map<Repository, nat>, day: int, token: Token, counted: seq<Key>, k: Key)
    requires CountsLoads(rows, index, day, token, counted)
    ensures k.repository in index ==>
      var at := index[k.repository];
      at < |rows| && CountsLoads(rows[at := rows[at].(taken := rows[at].taken + 1)], index, day, token, counted + [k])
    ensures k.repository !in index ==>
      CountsLoads(rows + [LoadRow(LoadKey(day, k.repository, token), 1)], index[k.repository := |rows|], day, token, counted + [k])
  {
  }

  /** The load belongs to one of the first n counted rows. */
  predicate Touched(index: map<Repository, nat>, day: int, token: Token, load: LoadKey, n: nat) {
    load.day == day && load.token == token && load.repository in index && index[load.repository] < n
  }

  /** The first n rows were inserted: ON CONFLICT adds the new count to the stored one. */
  ghost predicate Added(t: Tables, loads: map<LoadKey, int>, index: map<Repository, nat>, day: int, token: Token,
                        inserted: seq<Key>, n: nat)
  {
    && (forall load :: load in loads <==> load in t.loads || Touched(index, day, token, load, n))
    && (forall load | load in loads ::
          loads[load] == LoadOf(t, load.day, load.repository, load.token)
                         + if Touched(index, day, token, load, n) then CountIn(inserted, load.repository) else 0)
  }

  /** Row n is the n-th repository's only row, so inserting it adds the whole count at once. */
  lemma AddedNext(t: Tables, loads: map<LoadKey, int>, rows: seq<LoadRow>, index: map<Repository, nat>, day: int,
                  token: Token,
                  inserted: seq<Key>, n: nat)
    requires n < |rows| && CountsLoads(rows, index, day, token, inserted)
    requires Added(t, loads, index, day, token, inserted, n)
    ensures var load := rows[n].load;
            Added(t, loads[load := (if load in loads then loads[load] else 0) + rows[n].taken], index, day, token, inserted, n + 1)
  {
  }

  lemma AllTouched(rows: seq<LoadRow>, index: map<Repository, nat>, day: int, token: Token, inserted: seq<Key>,
                   load: LoadKey)
    requires CountsLoads(rows, index, day, token, inserted)
    ensures Touched(index, day, token, load, |rows|) <==> load in LoadsOfKeys(day, token, inserted)
  {
  }

  lemma AllAdded(t: Tables, loads: map<LoadKey, int>, index: map<Repository, nat>, day: int, token: Token,
                 inserted: seq<Key>, n: nat)
    requires forall load :: Touched(index, day, token, load, n) <==> load in LoadsOfKeys(day, token, inserted)
    requires Added(t, loads, index, day, token, inserted, n)
    ensures loads == AddLoads(t, day, token, inserted).loads
  {
    var touched := LoadsOfKeys(day, token, inserted);
    assert forall load :: load in loads <==> load in t.loads || load in touched;
    forall load | load in loads ensures loads[load] == AddLoads(t, day, token, inserted).loads[load] {
      assert Touched(index, day, token, load, n) <==> load in touched;
    }
  }

  /** The loop that counts the inserted keys per repository. */
  method CountRows(day: int, token: Token, inserted: seq<Key>) returns (rows: seq<LoadRow>, index: map<Repository, nat>)
    ensures CountsLoads(rows, index, day, token, inserted)
  {
    rows, index := [], map[];
    for i := 0 to |inserted|
      invariant CountsLoads(rows, index, day, token, inserted[..i])
    {
      var k := inserted[i];
      assert inserted[..i + 1] == inserted[..i] + [k];
      CountsNext(rows, index, day, token, inserted[..i], k);
      if k.repository in index {
        var at := index[k.repository];
        rows := rows[at := rows[at].(taken := rows[at].taken + 1)];
      } else {
        index := index[k.repository := |rows|];
        rows := rows + [LoadRow(LoadKey(day, k.repository, token), 1)];
      }
    }
    assert inserted[..|inserted|] == inserted;
  }

  lemma WaitingRowKeys(t: Tables, claim: PartyClaim, rows: seq<WaitingRow>)
    requires ReadsWaiting(t, claim, rows)
    ensures (set row | row in rows :: row.key) == WaitingKeys(t, claim)
    ensures rows == [] ==> Decision(RoundOf(t, claim)) == PartyDecision([], 0, 0)
  {
  }

  /** Inserting the rows that are not there yet is what the table then holds. */
  lemma InsertedRows(before: map<Follow, SubscriptionType>, rows: set<Follow>, kind: SubscriptionType)
    ensures var after := before + map f | f in rows - before.Keys :: kind;
      && after == (map f | f in rows :: kind) + before
      && after.Keys - before.Keys == rows - before.Keys
  {
  }

  predicate IsNamed(f: Follow, token: Token, repositories: Option<set<Repository>>) {
    f.token == token && (repositories.None? || f.repository in repositories.value)
  }

  /** Turning the named rows of another type is giving all named rows the type, and only the turned ones differ. */
  lemma TurnedRows(before: map<Follow, SubscriptionType>, token: Token, repositories: Option<set<Repository>>,
                   kind: SubscriptionType)
    ensures var turned := set f | f in before && IsNamed(f, token, repositories) && before[f] != kind;
            var after := before + map f | f in turned :: kind;
      && after == (map f | f in before :: if IsNamed(f, token, repositories) then kind else before[f])
      && turned == (set f | f in after && after[f] != before[f])
  {
  }

  /** Which columns of a stored row survive a new one: a known creation time, a set record time, guarded party values. */
  predicate StaysWhereItMust(stored: Row, row: Row, keepStoredParty: bool, updated: Row) {
    && updated.details == row.details && updated.updatedAt == row.updatedAt
    && (row.createdAt.None? ==> updated.createdAt == stored.createdAt)
    && (row.createdAt.Some? ==> updated.createdAt == row.createdAt)
    && (stored.recordedAt.Some? ==> updated.recordedAt == stored.recordedAt)
    && (stored.recordedAt.None? ==> updated.recordedAt == row.recordedAt)
    && (keepStoredParty && stored.recordedAt.Some? ==>
          updated.reviewers == stored.reviewers && updated.deadlineAt == stored.deadlineAt)
    && (!keepStoredParty || stored.recordedAt.None? ==>
          updated.reviewers == row.reviewers && updated.deadlineAt == row.deadlineAt)
  }

  class FeedDatabase {
    var subscriptions: map<Follow, SubscriptionType>
    var pullRequests: map<Key, Row>
    var deliveries: map<Receipt, Delivery>
    var loads: map<LoadKey, int>
    var fetches: map<Token, Time>

    constructor ()
      ensures View() == Tables(map[], map[], map[], map[], map[])
    {
      subscriptions, pullRequests, deliveries, loads, fetches := map[], map[], map[], map[], map[];
    }

    function View(): Tables
      reads this
    {
      Tables(subscriptions, pullRequests, deliveries, loads, fetches)
    }

    // -------------------------------------------------------------- deliveries

    method Claim(token: Token, repositories: set<Repository>, at: Time) returns (claimed: seq<Key>)
      modifies this
      ensures View() == AfterClaim(old(View()), token, repositories, at)
      ensures claimed == FeedOrder(old(pullRequests), Unreceived(old(View()), token, repositories))
    {
      if repositories == {} {
        assert Unreceived(View(), token, repositories) == {};
        assert View() == Deliver(View(), token, {}, at, false);
        return FeedOrder(pullRequests, {});
      }
      var inserted := Unreceived(View(), token, repositories);
      deliveries := deliveries + map k | k in inserted :: Receipt(token, k) := Delivery(at, false);
      claimed := FeedOrder(pullRequests, inserted);
    }

    method ClaimParty(claim: PartyClaim) returns (result: PartyResult)
      modifies this
      ensures View() == AfterPartyClaim(old(View()), claim)
      ensures result == PartyResultOf(old(View()), claim)
    {
      result := PartyResult([], 0, 0);
      if claim.repositories == {} {
        return;
      }
      PrunedClaim(View(), claim);
      ghost var pruned := PruneLoads(View(), claim.day);
      loads := map load | load in loads && load.day >= claim.day :: loads[load];
      assert View() == pruned;
      result := ClaimInTurn(claim);
    }

    /** The part of the transaction after the loads of earlier days are gone. */
    method ClaimInTurn(claim: PartyClaim) returns (result: PartyResult)
      requires claim.repositories != {}
      modifies this`deliveries, this`loads
      ensures View() == RecordTake(old(View()), claim, Decision(RoundOf(old(View()), claim)).take)
      ensures result == PartyResultOf(old(View()), claim)
    {
      hide RoundOf, WaitingKeys, TakenByOthers, RecordTake, ReadsDeliveries, ReadsMembers, ReadsLoads;
      NothingTaken(View(), claim);
      TakeIsWaiting(View(), claim);
      var taken := |TakenByOthers(View(), claim)|;
      var snapshot := ReadPartySnapshot(claim);
      WaitingRowKeys(View(), claim, snapshot.waiting);
      if snapshot.waiting == [] {
        return PartyResult([], taken, 0);
      }
      var decision := ChooseKeys(claim, snapshot);
      var chosen := KeepWaitingKeys(snapshot.waiting, decision.take);
      KeepsAll(decision.take, WaitingKeys(View(), claim));
      if chosen != [] {
        StoreTake(claim, chosen);
      }
      result := PartyResult(chosen, taken + decision.taken, decision.waiting);
    }

    /** The callback of the claim: the turn rule over the snapshot. */
    method ChooseKeys(claim: PartyClaim, snapshot: Snapshot) returns (decision: PartyDecision)
      requires Reads(View(), claim, snapshot)
      ensures decision == Decision(RoundOf(View(), claim))
    {
      var round := PartyRoundFromSnapshot(View(), claim, snapshot);
      var policy := new TurnPolicy();
      decision := policy.Choose(round);
    }

    /** Neither the conflict clause nor the stored-row filter drops a waiting key. */
    method StoreTake(claim: PartyClaim, chosen: seq<Key>)
      requires forall k | k in chosen :: k in WaitingKeys(View(), claim)
      modifies this`deliveries, this`loads
      ensures View() == RecordTake(old(View()), claim, chosen)
    {
      assert KeySet(chosen) == set k | k in chosen && k in pullRequests && Receipt(claim.token, k) !in deliveries;
      var inserted := InsertPartyDeliveries(claim, chosen);
      SelectsAll(chosen, KeySet(chosen));
      AddPartyLoads(claim, inserted);
    }

    /** Reads what the turn rule needs in one consistent view. */
    method ReadPartySnapshot(claim: PartyClaim) returns (snapshot: Snapshot)
      ensures Reads(View(), claim, snapshot)
    {
      var t := View();
      var waiting := WaitingRows(t, claim);
      if waiting == [] {
        assert WaitingKeys(t, claim) == {};
        return Snapshot(waiting, [], map[], []);
      }
      var own := ReadDeliveries(claim);
      var members := map repository | repository in WaitingRepositories(t, claim)
        :: SortedNames(Members(t, repository, claim.activeSince) - {claim.token});
      var loadsOfDay := ReadLoads(claim);
      snapshot := Snapshot(waiting, own, members, loadsOfDay);
    }

    method ReadDeliveries(claim: PartyClaim) returns (rows: seq<DeliveryRow>)
      ensures ReadsDeliveries(View(), claim, rows)
    {
      var keys := WaitingKeys(View(), claim);
      rows := Rows(set r | r in deliveries && r.key in keys :: DeliveryRow(r, deliveries[r]));
    }

    method ReadLoads(claim: PartyClaim) returns (rows: seq<LoadRow>)
      ensures ReadsLoads(View(), claim, rows)
    {
      var repositories := WaitingRepositories(View(), claim);
      rows := Rows(set load | load in loads && load.day == claim.day && load.repository in repositories
                     :: LoadRow(load, loads[load]));
    }

    /** INSERT ... SELECT ... ON CONFLICT DO NOTHING RETURNING, then the returned keys in the chosen order. */
    method InsertPartyDeliveries(claim: PartyClaim, chosen: seq<Key>) returns (inserted: seq<Key>)
      modifies this`deliveries
      ensures var insertable := set k | k in chosen && k in pullRequests && Receipt(claim.token, k) !in old(deliveries);
              && View() == Deliver(old(View()), claim.token, insertable, claim.at, true)
              && inserted == Selected(chosen, insertable)
    {
      var isInserted := set k | k in chosen && k in pullRequests && Receipt(claim.token, k) !in deliveries;
      deliveries := deliveries + map k | k in isInserted :: Receipt(claim.token, k) := Delivery(claim.at, true);
      inserted := [];
      for i := 0 to |chosen|
        invariant inserted == Selected(chosen[..i], isInserted)
      {
        assert chosen[..i + 1][..i] == chosen[..i];
        if chosen[i] in isInserted {
          inserted := inserted + [chosen[i]];
        }
      }
      assert chosen[..|chosen|] == chosen;
    }

    /** One load row per repository of the inserted keys, added to what is stored. */
    method AddPartyLoads(claim: PartyClaim, inserted: seq<Key>)
      modifies this`loads
      ensures View() == AddLoads(old(View()), claim.day, claim.token, inserted)
    {
      var rows, index := CountRows(claim.day, claim.token, inserted);
      ghost var t := View();
      for i := 0 to |rows|
        invariant Added(t, loads, index, claim.day, claim.token, inserted, i)
      {
        var load := rows[i].load;
        AddedNext(t, loads, rows, index, claim.day, claim.token, inserted, i);
        loads := loads[load := (if load in loads then loads[load] else 0) + rows[i].taken];
      }
      forall load { AllTouched(rows, index, claim.day, claim.token, inserted, load); }
      AllAdded(t, loads, index, claim.day, claim.token, inserted, |rows|);
    }

    // -------------------------------------------------------------- pull requests

    /** Stores a new row as it is; of a stored row some columns are replaced and some stay. */
    method Upsert(k: Key, row: Row, keepStoredParty: bool)
      modifies this`pullRequests
      ensures View() == AfterUpsert(old(View()), k, row, keepStoredParty)
      ensures pullRequests.Keys == old(pullRequests).Keys + {k}
      ensures forall other | other in old(pullRequests) && other != k :: pullRequests[other] == old(pullRequests)[other]
      ensures k !in old(pullRequests) ==> pullRequests[k] == row
      ensures k in old(pullRequests) ==> StaysWhereItMust(old(pullRequests)[k], row, keepStoredParty, pullRequests[k])
    {
      if k !in pullRequests {
        pullRequests := pullRequests[k := row];
        return;
      }
      var stored := pullRequests[k];
      var updated := stored.(details := row.details, updatedAt := row.updatedAt);
      if !keepStoredParty {
        updated := updated.(reviewers := row.reviewers, deadlineAt := row.deadlineAt);
      }
      if row.createdAt.Some? {
        updated := updated.(createdAt := row.createdAt);
      }
      if stored.recordedAt.None? {
        updated := updated.(recordedAt := row.recordedAt);
        if keepStoredParty {
          updated := updated.(reviewers := row.reviewers, deadlineAt := row.deadlineAt);
        }
      }
      pullRequests := pullRequests[k := updated];
    }

    method Find(k: Key) returns (row: Option<Row>)
      ensures row == if k in pullRequests then Some(pullRequests[k]) else None
    {
      row := if k in pullRequests then Some(pullRequests[k]) else None;
    }

    /** Removes the row with its deliveries, whoever holds them, and nothing else. */
    method Delete(k: Key)
      modifies this`pullRequests, this`deliveries
      ensures View() == AfterDelete(old(View()), {k})
      ensures forall other :: other in pullRequests <==> other in old(pullRequests) && other != k
      ensures forall other | other in pullRequests :: pullRequests[other] == old(pullRequests)[other]
      ensures forall r :: r in deliveries <==> r in old(deliveries) && r.key != k
      ensures forall r | r in deliveries :: deliveries[r] == old(deliveries)[r]
    {
      pullRequests := pullRequests - {k};
      deliveries := deliveries - set r | r in deliveries && r.key == k;
    }

    /** The repositories that have a stored pull request, each once. */
    method Repositories() returns (stored: seq<Repository>)
      ensures Distinct(stored)
      ensures forall repository :: repository in stored <==> exists k :: k in pullRequests && k.repository == repository
    {
      stored := Rows(set k | k in pullRequests :: k.repository);
    }

    /** What a solo follower missed since the moment: news on any pull request, or its own deliveries. */
    method ChangedSince(token: Token, repositories: set<Repository>, since: Time) returns (changed: seq<Key>)
      ensures forall k :: k in changed <==>
        && k in pullRequests && k.repository in repositories
        && (pullRequests[k].updatedAt >= since
            || (Receipt(token, k) in deliveries && deliveries[Receipt(token, k)].at >= since))
      ensures Distinct(changed)
      ensures forall i, j | 0 <= i < j < |changed| :: Before(pullRequests, changed[i], changed[j])
    {
      if repositories == {} {
        return [];
      }
      changed := FeedOrder(pullRequests, ChangedKeys(View(), token, repositories, since));
    }

    /** What a party member missed since the moment: news on what it received, and its own deliveries. */
    method ReceivedSince(token: Token, repositories: set<Repository>, since: Time) returns (received: seq<Key>)
      ensures forall k :: k in received <==>
        && k in pullRequests && k.repository in repositories && Receipt(token, k) in deliveries
        && (pullRequests[k].updatedAt >= since || deliveries[Receipt(token, k)].at >= since)
      ensures Distinct(received)
      ensures forall i, j | 0 <= i < j < |received| :: Before(pullRequests, received[i], received[j])
    {
      if repositories == {} {
        return [];
      }
      received := FeedOrder(pullRequests, ReceivedKeys(View(), token, repositories, since));
    }

    // -------------------------------------------------------------- subscriptions and fetches

    /** The token's subscriptions, each repository once. */
    method List(token: Token) returns (listed: seq<(Repository, SubscriptionType)>)
      ensures IsListing(View(), token, listed)
    {
      listed := Rows(set f | f in subscriptions && f.token == token :: (f.repository, subscriptions[f]));
      forall entry ensures entry in listed <==>
        Follow(token, entry.0) in subscriptions && subscriptions[Follow(token, entry.0)] == entry.1
      {
        if Follow(token, entry.0) in subscriptions && subscriptions[Follow(token, entry.0)] == entry.1 {
          var f := Follow(token, entry.0);
          assert f in subscriptions && (f.repository, subscriptions[f]) == entry;
        }
      }
      forall i, j | 0 <= i < j < |listed| ensures listed[i].0 != listed[j].0 {
        assert listed[i] in listed && listed[j] in listed;
      }
    }

    /** Follows what the token does not follow yet and counts it; nobody's present subscription changes. */
    method Subscribe(token: Token, repositories: set<Repository>, kind: SubscriptionType) returns (added: nat)
      modifies this`subscriptions
      ensures View() == AfterSubscribe(old(View()), token, repositories, kind)
      ensures forall f :: f in subscriptions <==>
        f in old(subscriptions) || (f.token == token && f.repository in repositories)
      ensures forall f | f in subscriptions :: subscriptions[f] == if f in old(subscriptions) then old(subscriptions)[f] else kind
      ensures added == |subscriptions.Keys - old(subscriptions).Keys|
    {
      hide FollowRows;
      var rows := FollowRows(token, repositories);
      var inserted := rows - subscriptions.Keys;
      InsertedRows(subscriptions, rows, kind);
      subscriptions := subscriptions + map f | f in inserted :: kind;
      added := |inserted|;
    }

    /** Turns the token's subscriptions of the other type, among the named ones, and counts them. */
    method SetType(token: Token, repositories: Option<set<Repository>>, kind: SubscriptionType) returns (changed: nat)
      modifies this`subscriptions
      ensures View() == AfterSetType(old(View()), token, repositories, kind)
      ensures subscriptions.Keys == old(subscriptions).Keys
      ensures forall f | f in subscriptions && IsNamed(f, token, repositories) :: subscriptions[f] == kind
      ensures forall f | f in subscriptions && subscriptions[f] != old(subscriptions)[f] :: IsNamed(f, token, repositories)
      ensures changed == |set f | f in subscriptions && subscriptions[f] != old(subscriptions)[f]|
    {
      var turned := set f | f in subscriptions && IsNamed(f, token, repositories) && subscriptions[f] != kind;
      TurnedRows(subscriptions, token, repositories, kind);
      subscriptions := subscriptions + map f | f in turned :: kind;
      changed := |turned|;
    }

    /** Afterwards the stored time is at most the resolution older than this fetch; no other token's changes. */
    method RecordFetch(token: Token, at: Time)
      modifies this`fetches
      ensures View() == AfterFetch(old(View()), token, at)
      ensures token in fetches && at - FETCH_RESOLUTION <= fetches[token]
      ensures fetches[token] == at || (token in old(fetches) && fetches[token] == old(fetches)[token])
      ensures token in old(fetches) && old(fetches)[token] >= at - FETCH_RESOLUTION ==> fetches[token] == old(fetches)[token]
      ensures fetches.Keys == old(fetches).Keys + {token}
      ensures forall other | other in old(fetches) && other != token :: fetches[other] == old(fetches)[other]
    {
      if token !in fetches || fetches[token] < at - FETCH_RESOLUTION {
        fetches := fetches[token := at];
      }
    }
  }
}
