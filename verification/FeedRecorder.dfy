/** Recording pull request events: the cap and the timer a stored pull request carries. */
module FeedRecorder {
  import opened Optional
  import opened Sorting
  import opened FeedModel
  import opened FeedTransactions
  import opened FeedRuns
  import opened FeedStore
  import opened FeedRequests
  import opened RoutingModel

  /** The settings for a pull request; a fallback could not read its changed files. */
  datatype Resolution = Resolution(settings: PartySettings, fallback: bool)

  datatype EventKind =
    | Opened | ReadyForReview | Updated | Reopened
    | Closed | Merged | ConvertedToDraft
    | Other

  datatype Event = Event(kind: EventKind, key: Key, details: string, createdAt: Option<Time>)

  datatype PartyState = PartyState(reviewers: int, recordedAt: Option<Time>, deadlineAt: Option<Time>)

  predicate Stores(kind: EventKind) {
    kind == Opened || kind == ReadyForReview || kind == Updated || kind == Reopened
  }

  predicate Removes(kind: EventKind) {
    kind == Closed || kind == Merged || kind == ConvertedToDraft
  }

  // ---------------------------------------------------------------- the use case

  /** The party columns to store, and whether a recorded row keeps its own. */
  function PartyStateFor(stored: Option<Row>, resolution: Resolution, now: Time): (PartyState, bool) {
    var hasRecordTime := stored.Some? && stored.value.recordedAt.Some?;
    if resolution.fallback && hasRecordTime then
      (PartyState(stored.value.reviewers, stored.value.recordedAt, stored.value.deadlineAt), true)
    else
      var recordedAt := if hasRecordTime then stored.value.recordedAt.value else now;
      (PartyState(resolution.settings.reviewers, Some(recordedAt), Some(recordedAt + resolution.settings.deadline)),
       resolution.fallback)
  }

  function RowOf(event: Event, party: PartyState, now: Time): Row {
    Row(event.details, event.createdAt, now, party.reviewers, party.recordedAt, party.deadlineAt)
  }

  function AfterRecord(t: Tables, catalog: Catalog, event: Event, resolution: Resolution, now: Time): Tables {
    if !catalog(event.key.repository) then t
    else if Stores(event.kind) then
      var stored := if event.key in t.pullRequests then Some(t.pullRequests[event.key]) else None;
      var (party, keepStoredParty) := PartyStateFor(stored, resolution, now);
      AfterUpsert(t, event.key, RowOf(event, party, now), keepStoredParty)
    else if Removes(event.kind) then AfterDelete(t, {event.key})
    else t
  }

  class Recorder {
    const database: FeedDatabase
    const catalog: Catalog

    constructor (database: FeedDatabase, catalog: Catalog)
      ensures this.database == database && this.catalog == catalog
    {
      this.database := database;
      this.catalog := catalog;
    }

    method Record(event: Event, resolution: Resolution, now: Time)
      modifies database
      ensures database.View() == AfterRecord(old(database.View()), catalog, event, resolution, now)
    {
      if !catalog(event.key.repository) {
        return;
      }
      match event.kind {
        case Opened | ReadyForReview | Updated | Reopened =>
          var stored := database.Find(event.key);
          var (party, keepStoredParty) := PartyStateFor(stored, resolution, now);
          database.Upsert(event.key, RowOf(event, party, now), keepStoredParty);
        case Closed | Merged | ConvertedToDraft =>
          database.Delete(event.key);
        case Other =>
      }
    }
  }

  // ---------------------------------------------------------------- runs of records

  /** One record of a pull request since its row was created. */
  datatype Entry = Entry(resolution: Resolution, at: Time)

  datatype FeedStep =
    | Recorded(event: Event, resolution: Resolution, now: Time)
    | Other(step: Step)

  /** Any other transaction but a direct store of a row. */
  predicate Admissible(step: FeedStep) {
    step.Other? ==> !step.step.Stored?
  }

  function ApplyFeed(t: Tables, catalog: Catalog, step: FeedStep): Tables {
    match step
    case Recorded(event, resolution, now) => AfterRecord(t, catalog, event, resolution, now)
    case Other(s) => Apply(t, s)
  }

  type Log = map<Key, seq<Entry>>

  function Entries(log: Log, k: Key): seq<Entry> {
    if k in log then log[k] else []
  }

  /** The log of a key grows with every record and ends with its row. */
  function ApplyLog(log: Log, catalog: Catalog, step: FeedStep): Log {
    match step
    case Recorded(event, resolution, now) =>
      if !catalog(event.key.repository) then log
      else if Stores(event.kind) then log[event.key := Entries(log, event.key) + [Entry(resolution, now)]]
      else if Removes(event.kind) then log - {event.key}
      else log
    case Other(s) => if s.Removed? then log - s.keys else log
  }

  /** The settings of the latest record that read the files; of the first record when none did. */
  function InForce(entries: seq<Entry>): PartySettings
    requires entries != []
  {
    var last := entries[|entries| - 1];
    if |entries| == 1 || !last.resolution.fallback then last.resolution.settings
    else InForce(entries[..|entries| - 1])
  }

  /** The stored party columns are what the log of the row says. */
  ghost predicate FollowsLog(row: Row, entries: seq<Entry>) {
    if entries == [] then row.recordedAt.None?
    else
      && row.recordedAt == Some(entries[0].at)
      && row.deadlineAt == Some(entries[0].at + InForce(entries).deadline)
      && row.reviewers == InForce(entries).reviewers
  }

  ghost predicate LogHolds(t: Tables, log: Log) {
    && log.Keys <= t.pullRequests.Keys
    && (forall k | k in log :: log[k] != [])
    && forall k | k in t.pullRequests :: FollowsLog(t.pullRequests[k], Entries(log, k))
  }

  /** One more record of a row keeps the columns in line with the longer log. */
  lemma RecordFollowsLog(row: Row, entries: seq<Entry>, event: Event, resolution: Resolution, now: Time)
    requires FollowsLog(row, entries)
    ensures var (party, keep) := PartyStateFor(Some(row), resolution, now);
            FollowsLog(MergeRow(row, RowOf(event, party, now), keep), entries + [Entry(resolution, now)])
  {
  }

  lemma OtherStepRows(t: Tables, step: Step)
    requires !step.Stored?
    ensures Apply(t, step).pullRequests == if step.Removed? then t.pullRequests - step.keys else t.pullRequests
  {
  }

  lemma StoreFollowsLog(t: Tables, log: Log, event: Event, resolution: Resolution, now: Time)
    requires LogHolds(t, log)
    ensures var stored := if event.key in t.pullRequests then Some(t.pullRequests[event.key]) else None;
            var (party, keep) := PartyStateFor(stored, resolution, now);
            LogHolds(AfterUpsert(t, event.key, RowOf(event, party, now), keep),
                     log[event.key := Entries(log, event.key) + [Entry(resolution, now)]])
  {
    hide PartyStateFor, MergeRow;
    var entries := Entries(log, event.key);
    if event.key in t.pullRequests {
      RecordFollowsLog(t.pullRequests[event.key], entries, event, resolution, now);
    } else {
      FirstRecord(event, resolution, now);
    }
  }

  lemma FirstRecord(event: Event, resolution: Resolution, now: Time)
    ensures FollowsLog(RowOf(event, PartyStateFor(None, resolution, now).0, now), [] + [Entry(resolution, now)])
  {
  }

  lemma StepFollowsLog(t: Tables, log: Log, catalog: Catalog, step: FeedStep)
    requires LogHolds(t, log) && Admissible(step)
    ensures LogHolds(ApplyFeed(t, catalog, step), ApplyLog(log, catalog, step))
  {
    match step
    case Recorded(event, resolution, now) =>
      if catalog(event.key.repository) && Stores(event.kind) {
        StoreFollowsLog(t, log, event, resolution, now);
      }
    case Other(s) =>
      hide Apply, FollowsLog;
      OtherStepRows(t, s);
  }

  ghost predicate IsFeedRun(states: seq<Tables>, logs: seq<Log>, catalog: Catalog, steps: seq<FeedStep>) {
    && |states| == |logs| == |steps| + 1
    && (forall i | 0 <= i < |steps| :: Admissible(steps[i]))
    && (forall i | 0 <= i < |steps| :: states[i + 1] == ApplyFeed(states[i], catalog, steps[i]))
    && (forall i | 0 <= i < |steps| :: logs[i + 1] == ApplyLog(logs[i], catalog, steps[i]))
  }

  /**
   Over any run that starts without recorded rows: the record time of a row is that of its first
   record, its deadline is the record time plus the timer of the latest record that read the files
   (of the first when none did), and its cap is that record's cap.
   */
  lemma {:induction false} PartyColumnsFollowRecords(states: seq<Tables>, logs: seq<Log>, catalog: Catalog,
                                                     steps: seq<FeedStep>, n: nat)
    requires IsFeedRun(states, logs, catalog, steps) && n < |states|
    requires logs[0] == map[] && forall k | k in states[0].pullRequests :: states[0].pullRequests[k].recordedAt.None?
    ensures LogHolds(states[n], logs[n])
  {
    if n > 0 {
      hide ApplyFeed, ApplyLog, LogHolds;
      PartyColumnsFollowRecords(states, logs, catalog, steps, n - 1);
      StepFollowsLog(states[n - 1], logs[n - 1], catalog, steps[n - 1]);
    } else {
      assert LogHolds(states[0], logs[0]);
    }
  }

  // ---------------------------------------------------------------- one step

  /** A recorded row keeps its record time through every transaction until it is removed. */
  lemma RecordTimeStays(t: Tables, catalog: Catalog, step: FeedStep, k: Key)
    requires k in t.pullRequests && t.pullRequests[k].recordedAt.Some?
    requires k in ApplyFeed(t, catalog, step).pullRequests
    ensures ApplyFeed(t, catalog, step).pullRequests[k].recordedAt == t.pullRequests[k].recordedAt
  {
    if step.Other? && !step.step.Stored? {
      hide Apply;
      OtherStepRows(t, step.step);
    }
  }

  /** A record that could not read the files changes neither cap nor deadline of a recorded row. */
  lemma FallbackKeepsParty(t: Tables, catalog: Catalog, event: Event, resolution: Resolution, now: Time)
    requires resolution.fallback && Stores(event.kind)
    requires event.key in t.pullRequests && t.pullRequests[event.key].recordedAt.Some?
    ensures var before, after := t.pullRequests[event.key], AfterRecord(t, catalog, event, resolution, now).pullRequests[event.key];
            after.reviewers == before.reviewers && after.deadlineAt == before.deadlineAt
  {
  }

  // ---------------------------------------------------------------- what each kind of event does

  /** A pull request that was closed, merged or turned into a draft is gone with all its receipts, and nothing else is. */
  lemma EndedIsRemoved(t: Tables, catalog: Catalog, event: Event, resolution: Resolution, now: Time)
    requires catalog(event.key.repository)
    requires event.kind == Closed || event.kind == Merged || event.kind == ConvertedToDraft
    ensures var u := AfterRecord(t, catalog, event, resolution, now);
      && u == t.(pullRequests := u.pullRequests, deliveries := u.deliveries)
      && (forall k :: k in u.pullRequests <==> k in t.pullRequests && k != event.key)
      && (forall k | k in u.pullRequests :: u.pullRequests[k] == t.pullRequests[k])
      && (forall r :: r in u.deliveries <==> r in t.deliveries && r.key != event.key)
      && (forall r | r in u.deliveries :: u.deliveries[r] == t.deliveries[r])
  {
  }

  /** A pull request that was opened, made ready, updated or reopened is stored as the event says, updated now. */
  lemma CurrentIsStored(t: Tables, catalog: Catalog, event: Event, resolution: Resolution, now: Time)
    requires catalog(event.key.repository)
    requires event.kind == Opened || event.kind == ReadyForReview || event.kind == Updated || event.kind == Reopened
    ensures var u := AfterRecord(t, catalog, event, resolution, now);
      && u == t.(pullRequests := u.pullRequests)
      && u.pullRequests.Keys == t.pullRequests.Keys + {event.key}
      && (forall k | k in t.pullRequests && k != event.key :: u.pullRequests[k] == t.pullRequests[k])
      && u.pullRequests[event.key].details == event.details && u.pullRequests[event.key].updatedAt == now
      && u.pullRequests[event.key].recordedAt.Some?
      && u.pullRequests[event.key].createdAt ==
         if event.createdAt.None? && event.key in t.pullRequests then t.pullRequests[event.key].createdAt else event.createdAt
  {
  }

  /** The first record sets cap, record time and deadline from the resolution, also from a fallback. */
  lemma FirstRecordSetsParty(t: Tables, catalog: Catalog, event: Event, resolution: Resolution, now: Time)
    requires catalog(event.key.repository)
    requires event.kind == Opened || event.kind == ReadyForReview || event.kind == Updated || event.kind == Reopened
    requires event.key in t.pullRequests ==> t.pullRequests[event.key].recordedAt.None?
    ensures var row := AfterRecord(t, catalog, event, resolution, now).pullRequests[event.key];
      && row.reviewers == resolution.settings.reviewers && row.recordedAt == Some(now)
      && row.deadlineAt == Some(now + resolution.settings.deadline)
  {
  }

  /** Any other event, and any event of a repository that is not configured, changes nothing. */
  lemma OtherEventsAreIgnored(t: Tables, catalog: Catalog, event: Event, resolution: Resolution, now: Time)
    requires event.kind == EventKind.Other || !catalog(event.key.repository)
    ensures AfterRecord(t, catalog, event, resolution, now) == t
  {
  }
}
