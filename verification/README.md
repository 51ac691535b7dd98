# Verified model of notifycat's delivery, calendar, routing and relocation logic

Notifycat announces pull requests and hands them to reviewing agents. This project models the parts
of it whose promises reach over many steps, and proves those promises.

- **Review-party feed** (`Feed*.dfy`). Agents fetch open pull requests. A party repository gives each
  one to at most so many members; a turn rule prefers members with a lower load of the day until a
  timer runs out. Every store transaction is one step over five tables, and a run is any sequence of
  steps by any tokens, so the results hold for every interleaving. `FeedDatabase`, `TurnPolicy`,
  `PullRequests` and `Recorder` are the imperative parts; each method is proved against a function on
  the tables, the run lemmas are about those functions, and further lemmas say what each function means
  without naming it. Main results: `CapNeverExceeded`, `ClaimAccountsForAll`, `DeliveredAtMostOnce`,
  `SinceRecoversDeliveries`, `NoDeadlock`, `LeftToLighterMembers` and `RequestLeavesToLighter` (the turn
  rule over the tables), `ReportIs`, `RoundsSettle` (whole requests, each at its own time), `FairLoads`,
  `MemberExactlyWhenServedAsParty`, `PartyColumnsFollowRecords`.
- **Holiday calendar** (`CivilDates`, `Easter`, `Holiday*`, `UkSubstitutes`, `Calendar`). Dates are
  day numbers of the proleptic Gregorian calendar of ISO 8601. Main results: `EasterAfterPaschalMoon`,
  `EveryHolidayHasItsDate`, `WeekendHolidaySubstituted`, `SubstitutesInOrder`, `EveryDateHasItsRule`, `WindowIsComplete`.
- **Routing** (`Routing*.dfy`). Two tiers of mappings and path rules won by the longest directory.
  Main results: `MatchedExactlyLongest`, `CoverageIsExact`, `PartyKeysNeverChangeRouting`,
  `AcceptedMappingsRoute`, `ValidWhenEveryTierRoutes`, `RepositoryBeforeOrg`, `TargetMentions`, `SettingsBySet`.
- **Digest** (`DigestReporter`). `SchedulesPartitionFullPass`.
- **Slack sections** (`SlackSections`). `GreedyPacksMost`, `GreedyUsesFewest`, `BlocksGiveLinesBack`.
- **Relocation** (`Relocator`, `RelocatorRuns`). External calls fail in every way an `Outcome` can
  say. Main results: `SoundAtEveryStep`, `EveryScanIsAccountedFor`, `SkippedByLaterRuns`,
  `RerunScansNothing`, `VerdictIsEarned`, `DryRunForetells`.

Conventions: a moment is an integer number of nanoseconds; a NULL column, a nil pointer and a zero
time are `None`; SQL statements are set and map operations over tables keyed by their primary keys;
deleting a feed pull request deletes its deliveries. Clocks, the order in which a map yields its keys
and the results of calls to other systems are parameters or arbitrary. `Optional` and `Sorting` hold
what several modules share. `dafny verify dfyconfig.toml` checks the whole project.

Where code and comments disagree the model follows the code. The comment on the substitute search calls
its bound of 14 days generous; the proof gives the margin: it succeeds while fewer than eight dates
other than Mondays are claimed.

## Model

| member | source | states |
|---|---|---|
| `FeedTurnPolicy.TurnPolicy.Choose` | internal/feed/application/turn_policy.go:14-44 | the loop over a copied, updated load map decides exactly what the rule says when every verdict is judged afresh from the keys taken before it in the round; TakenWhen says what a verdict is |
| `FeedTurnPolicy.TurnPolicy.CountLighter` | internal/feed/application/turn_policy.go:26-34 | under the tracked load map the inner loop counts the candidates that are lighter than the fetcher after its takes so far |
| `FeedTurnPolicy.TakingTracks` | internal/feed/application/turn_policy.go:40-41 | raising the fetcher's load by one after a take keeps the map equal to starting loads plus takes, per repository |
| `FeedTurnPolicy.EveryPullRequestJudged` | internal/feed/application/turn_policy.go:20-42 | taken keys, pull requests at their cap and pull requests left waiting add up to the whole round |
| `FeedTurnPolicy.TakenExactlyWhenJudgedTakes` | internal/feed/application/turn_policy.go:21-42 | with distinct keys a pull request is among the taken ones if and only if its own verdict at its turn says so |
| `FeedTurnPolicy.TakenOnce` | internal/feed/application/turn_policy.go:40 | no key is taken twice |
| `FeedTurnPolicy.LighterCountZero` | internal/feed/application/turn_policy.go:27-33 | the count is zero if and only if no candidate has a lower load than the fetcher |
| `FeedTurnPolicy.AloneTakesAll` | internal/feed/application/turn_policy.go:21-42 | without rivals every pull request below its cap is taken, in order |
| `FeedTurnPolicy.TakenWhen` | internal/feed/application/turn_policy.go:21-42 | spelled out without the verdict: a pull request is taken if and only if it is below its cap and has no running timer or more free places than lighter candidates |
| `FeedTurnPolicy.CountsAtCap` | internal/feed/application/turn_policy.go:22-24 | the decision counts as taken exactly the pull requests at their cap, wherever they stand in the round |
| `FeedRounds.PartyRoundFromSnapshot` | internal/feed/infrastructure/delivery_repo.go:61-86 | from any row lists that hold what the queries select, in any order of deliveries and loads, the loops build the one round the tables determine |
| `FeedRounds.WaitingPullRequests` | internal/feed/infrastructure/delivery_repo.go:71-84 | one entry per waiting row, in order, each with the counts and candidates its rows determine |
| `FeedRounds.PullRequestOfRow` | internal/feed/infrastructure/delivery_repo.go:73-82 | the entry of one row from its own deliveries and its repository's members |
| `FeedRounds.DeliveriesByKey` | internal/feed/infrastructure/delivery_repo.go:66-70 | each key's list is the key's delivery rows in their order |
| `FeedRounds.CountPartyDeliveries` | internal/feed/infrastructure/delivery_repo.go:88-96 | over one pull request's rows the count is the number of distinct members holding a party delivery |
| `FeedRounds.CandidatesWithoutDelivery` | internal/feed/infrastructure/delivery_repo.go:98-112 | exactly the members without any delivery other than the claimant, by name, each once |
| `FeedRounds.LoadsByMember` | internal/feed/infrastructure/delivery_repo.go:62-65 | the load map equals the day's stored loads of the waiting repositories |
| `FeedRounds.DeliveriesOfWaiting` | internal/platform/persistence/feed.go:426-431 | a waiting pull request's selected rows name each holder once, and their party rows exactly its party holders |
| `FeedStore.FeedDatabase.ClaimParty` | internal/platform/persistence/feed.go:347-394 | the whole transaction leaves the tables and reports the result that a claim on the state before it is defined to have; deleting earlier loads first makes no difference to what it decides; LeftToLighterMembers and ReportIs say what that is |
| `FeedStore.FeedDatabase.ClaimInTurn` | internal/platform/persistence/feed.go:357-388 | after the pruning: counts what is at its cap, reads, chooses, stores and reports, with the early exits |
| `FeedStore.FeedDatabase.ChooseKeys` | internal/feed/infrastructure/delivery_repo.go:46-49 | the callback applies the turn rule to the round of the state the snapshot was read from |
| `FeedStore.FeedDatabase.ReadPartySnapshot` | internal/platform/persistence/feed.go:408-445 | all four queries describe one and the same state |
| `FeedStore.FeedDatabase.ReadDeliveries` | internal/platform/persistence/feed.go:426-431 | every delivery of the waiting pull requests, each once |
| `FeedStore.FeedDatabase.ReadLoads` | internal/platform/persistence/feed.go:438-443 | the day's loads of the waiting repositories |
| `FeedStore.KeepWaitingKeys` | internal/platform/persistence/feed.go:486-499 | keeps the chosen keys that are waiting, each at its first occurrence |
| `FeedStore.KeptElements` | internal/platform/persistence/feed.go:486-499 | the kept keys are distinct and are the chosen keys that are waiting, no more and no fewer |
| `FeedStore.KeepsAll` | internal/platform/persistence/feed.go:369 | the filter removes nothing from distinct waiting keys |
| `FeedStore.TakeIsWaiting` | internal/platform/persistence/feed.go:369 | the turn rule only takes waiting keys and none twice, so the filter is the identity on its choice |
| `FeedStore.FeedDatabase.StoreTake` | internal/platform/persistence/feed.go:373-382 | every chosen waiting key becomes a delivery and counts as a load: neither the conflict clause nor the filter drops one |
| `FeedStore.FeedDatabase.InsertPartyDeliveries` | internal/platform/persistence/feed.go:501-527 | inserts a party delivery for the stored, not yet received chosen keys and returns just those in the chosen order |
| `FeedStore.FeedDatabase.AddPartyLoads` | internal/platform/persistence/feed.go:529-551 | the index-and-increment loop and the conflict clause raise the token's load of the day in each repository by the number of its inserted keys, and no other load |
| `FeedStore.CountRows` | internal/platform/persistence/feed.go:530-540 | one row per repository of the inserted keys, holding that repository's count |
| `FeedStore.PruningKeepsRound` | internal/platform/persistence/feed.go:353 | deleting the loads of earlier days changes neither the round nor what counts as taken by others |
| `FeedStore.FeedDatabase.Claim` | internal/platform/persistence/feed.go:279-310 | delivers every unreceived stored pull request of the repositories as solo and returns them in feed order |
| `FeedModel.FeedOrderUnique` | internal/platform/persistence/feed.go:299 | the order by update time, repository and number determines the list: a listing of the keys in that order is the only one |
| `FeedModel.OldestFirst` | internal/platform/persistence/feed.go:299 | of two keys in feed order the earlier was updated first, or at the same time with the lesser repository name, or in the same repository with the lower number |
| `Sorting.LessIsLexicographic` | internal/platform/persistence/feed.go:299 | names are ordered by the first character in which they differ, a prefix first |
| `FeedRuns.PartyClaimDelivers` | internal/platform/persistence/feed.go:345-394 | a party claim adds party receipts of its own token for waiting pull requests, stamped with the claim time, and touches nothing else but loads |
| `FeedRuns.ClaimLoads` | internal/platform/persistence/feed.go:529-551 | a claim raises its own token's load of the day in each repository by what it takes there, and no other load of the day |
| `FeedRuns.StepRespectsCap` | internal/platform/persistence/feed.go:345-346 | a transaction that adds a party holder is a party claim, adds exactly one, and found the count below the cap stored at that moment |
| `FeedRuns.CapNeverExceeded` | internal/platform/persistence/feed.go:345-346 | over any run the holders of a party delivery never outnumber the largest cap stored since the row was created |
| `FeedRuns.ClaimAccountsForAll` | internal/platform/persistence/feed.go:347-394 | delivered, taken and waiting add up to exactly the stored pull requests of the claimed repositories the token had not received; no delivered key repeats |
| `FeedTurns.ReportIs` | internal/feed/infrastructure/delivery_repo.go:54-58 | delivered are exactly the keys the claimant holds a receipt of from then on, taken is the number of unreceived stored pull requests of the claimed repositories whose party holders reach the stored cap, waiting the number of those below it that the claim left without a receipt |
| `FeedTurns.OnlyEarlierLoadsGo` | internal/platform/persistence/feed.go:353 | after a claim no load of an earlier day is left and every load of a later day is as it was |
| `FeedTurns.LeftToLighterMembers` | internal/feed/application/turn_policy.go:14-44 | over the tables: a claim leaves a pull request with a free place if and only if its timer still runs and at least as many other active members without a receipt have a load of the day below the claimant's with its earlier takes there as there are free places |
| `FeedTurns.FirstComeAfterDeadline` | internal/feed/application/turn_policy.go:26-27 | once the timer ran out, or without one, whoever claims first takes every pull request with a free place |
| `FeedTurns.RequestLeavesToLighter` | internal/feed/application/pull_requests.go:46-97 | the same of a whole request: a pull request of a configured party repository is left if and only if its timer runs and that many other party subscribers that fetched within the last 24 hours lack it and are lighter |
| `FeedModel.MomentInItsDay` | internal/feed/domain/models.go:183-186 | the load day of a moment is the day of 86400 seconds that holds it |
| `FeedRuns.StepKeepsForeignKey` | internal/platform/persistence/feed.go:184-193 | after every transaction each delivery belongs to a stored pull request |
| `FeedRuns.GivenOnceAndRecorded` | internal/platform/persistence/feed.go:286-291 | what a claim hands over was not received before and is recorded with the claim's time and kind |
| `FeedRuns.ReceiptStays` | internal/platform/persistence/feed.go:117-118 | a receipt survives every other transaction unchanged until its pull request is removed |
| `FeedRuns.ReceivedUntilRemoved` | internal/platform/persistence/feed.go:286-291 | over any run a handed-over pull request stays received with its time until a removal |
| `FeedRuns.DeliveredAtMostOnce` | internal/feed/application/pull_requests.go:46-65 | in any interleaving, with solo and party claims and type changes, a token gets a pull request twice only if it was removed in between |
| `FeedProgress.LeastLoadedIsNotBlocked` | internal/feed/application/turn_policy.go:25-38 | the least loaded member that lacks a pull request is never told to wait for it before its first take in that repository |
| `FeedProgress.LeastLoadedTakes` | internal/feed/application/turn_policy.go:14-44 | the claim of such a member takes a pull request of that repository, whatever the deadlines are |
| `FeedProgress.NoDeadlock` | internal/feed/application/turn_policy.go:14-44 | if a configured repository has a pull request below its cap that an active member lacks, the request of the least loaded such member is answered with one of that repository now, its solo claim made first |
| `FeedProgress.SoloClaimElsewhere` | internal/feed/application/pull_requests.go:67-80 | the solo claim of a request leaves every repository it does not name as it is for a party claim |
| `FeedVisits.VisitTakesOrRests` | internal/feed/application/pull_requests.go:46-65 | a whole request, with its solo claim, party claim and fetch, either hands over a missing receipt of a party repository or leaves it as it was |
| `FeedVisits.VisitWithin` | internal/feed/application/pull_requests.go:46-65 | a request within a period keeps exactly the same members active throughout it, stamps no load with a later day and never adds a missing receipt |
| `FeedVisits.VisitsNeverGrow` | internal/feed/application/pull_requests.go:46-65 | over any list of requests at their own times the missing receipts never grow and nothing else of the repository changes but receipts |
| `FeedVisits.VisitsWithTakerShrink` | internal/feed/application/turn_policy.go:14-44 | requests that include one of a least loaded lacking member are not all in vain, whatever requests and midnights come before it |
| `FeedVisits.UnsettledRoundShrinks` | internal/feed/application/turn_policy.go:14-44 | a round in which every active member asks at least once, in any order and at any times, shrinks the missing receipts unless every pull request is at its cap or received by all |
| `FeedVisits.SettledStays` | internal/feed/application/turn_policy.go:14-44 | where nothing is left to hand over, added receipts leave nothing to hand over |
| `FeedVisits.SettledIsAtRest` | internal/feed/application/turn_policy.go:14-44 | then no member's request is answered with a pull request of that repository |
| `FeedVisits.VisitsFetch` | internal/platform/persistence/feed.go:607-622 | after the requests no stored fetch time moved back, only visitors' changed, and a visitor's is at most the resolution older than the start |
| `FeedVisits.RoundKeepsAttend` | internal/feed/domain/constants.go:11-15 | members that asked in one round are exactly the active ones throughout the next, if it ends within the away time less the resolution of the round's start |
| `FeedVisits.RoundsSettle` | internal/feed/application/turn_policy.go:14-44 | rounds of whole requests, each at its own clock reading and over any number of days, come to rest within as many rounds as receipts are missing, with each pull request at its cap or received by all members |
| `FeedFairness.TakesOnlyAsLightest` | internal/feed/application/turn_policy.go:25-38 | with cap 1 and a running timer on what is below its cap a member takes only while no other member has a lower load |
| `FeedFairness.EvenInsideRound` | internal/feed/application/turn_policy.go:20-42 | through every prefix of a round with several takes the claimant stays at most one above each other member |
| `FeedFairness.CalmStepKeepsEven` | internal/feed/application/turn_policy.go:14-44 | every transaction of a calm day keeps any two members' loads within one |
| `FeedFairness.FairLoads` | internal/feed/application/turn_policy.go:14-44 | with cap 1, fixed active members, equal loads at the start, no solo deliveries and no timer passed on a pull request below its cap, loads never differ by more than one after any run |
| `FeedRequests.PullRequests.Next` | internal/feed/application/pull_requests.go:46-65 | answers with what the solo and the party claim hand over, each pull request once in feed order, and leaves the tables of those claims and the recorded fetch |
| `FeedRequests.PullRequests.Since` | internal/feed/application/pull_requests.go:118-146 | answers with changed solo and received party pull requests once each in feed order and changes nothing |
| `FeedRequests.PullRequests.ResolveRepositories` | internal/feed/application/pull_requests.go:148-179 | the loops split the followed or, through "*", stored and configured repositories into exactly the solo and the party ones |
| `FeedRequests.PullRequests.AddStored` | internal/feed/application/pull_requests.go:166-175 | "*" adds the stored repositories the token does not follow by name, under the type of the "*" row |
| `FeedRequests.SoloAndPartyDisjoint` | internal/feed/application/pull_requests.go:148-179 | no repository is served as solo and as party |
| `FeedRequests.MemberExactlyWhenServedAsParty` | internal/platform/persistence/feed.go:317-327 | for a stored, configured repository the SQL member rule counts a recently fetching token if and only if that token's own request serves the repository as party |
| `FeedRequests.FetchKeepsMemberActive` | internal/feed/domain/constants.go:11-15 | although a fetch within a minute of the stored one is not written, a party member counts as active for a day less a minute after every fetch and never more than a day after its last |
| `FeedTransactions.OwnTypeDecides` | internal/platform/persistence/feed.go:317-327 | a subscription by name decides for its repository whatever "*" says, follows a change of its type and is not touched by subscribing again |
| `FeedTransactions.AllTypeDecidesTheRest` | internal/platform/persistence/feed.go:317-327 | without one the "*" subscription decides, without either the repository is not followed |
| `FeedTransactions.DroppedFallsBack` | internal/platform/persistence/feed.go:55-69 | dropping a subscription drops just that row, and "*" decides for the repository again |
| `FeedRequests.SinceRecoversDeliveries` | internal/feed/application/pull_requests.go:117-146 | a pull request handed over at or after the moment is answered by a request since that moment while it is stored, subscribed to and configured, whatever the type is by then |
| `FeedRequests.SinceShowsOnlyOwnPartyPullRequests` | internal/platform/persistence/feed.go:248-266 | on a party repository a request since a moment shows only what the token itself received |
| `FeedRequests.SinceIs` | internal/feed/application/pull_requests.go:117-146 | the answer holds a key if and only if it is stored, configured and followed, and, as solo, updated or received since the moment, as party, received and updated or received since |
| `FeedRequests.NextIsWhatIsNewlyReceived` | internal/feed/application/pull_requests.go:46-65 | the answer is exactly what the token has a receipt of after the request and had none before |
| `FeedRequests.NextLeavesNoSolo` | internal/feed/application/pull_requests.go:67-80 | after a request nothing of a configured solo repository is unreceived, and what is new is stamped with the request's time |
| `FeedRequests.InDeliveryOrder` | internal/feed/application/pull_requests.go:193-205 | a sorted permutation of both lists |
| `FeedRequests.MergedIsFeedOrder` | internal/feed/application/pull_requests.go:193-205 | merging disjoint lists gives the one feed-ordered listing of their union |
| `FeedRequests.ClaimsDisjoint` | internal/feed/application/pull_requests.go:51-60 | the two claims of one request cannot hand over the same pull request |
| `FeedStore.FeedDatabase.ChangedSince` | internal/platform/persistence/feed.go:228-246 | lists exactly the stored pull requests of the repositories that were updated or reached the token since the moment, each once, in feed order |
| `FeedStore.FeedDatabase.ReceivedSince` | internal/platform/persistence/feed.go:249-266 | lists exactly the stored pull requests of the repositories the token holds a receipt of that were updated or delivered since the moment, each once, in feed order |
| `FeedStore.FeedDatabase.RecordFetch` | internal/platform/persistence/feed.go:608-622 | afterwards the stored time is at most the resolution older than the fetch, it is the old or the new one, and no other token's changed |
| `FeedStore.FeedDatabase.List` | internal/platform/persistence/feed.go:24-31 | exactly the token's subscriptions with their types, each repository once |
| `FeedStore.FeedDatabase.Repositories` | internal/platform/persistence/feed.go:217-225 | exactly the repositories of stored pull requests, each once |
| `FeedRequests.Configured` | internal/feed/infrastructure/routing_catalog.go:60-72 | exactly the configured names, each once, in order of first appearance |
| `FeedStore.FeedDatabase.SetType` | internal/platform/persistence/feed.go:72-82 | every named subscription of the token has the type, none other changed, and the count is the number that differ from before |
| `FeedStore.FeedDatabase.Subscribe` | internal/platform/persistence/feed.go:34-53 | the token follows all the repositories, nobody's present subscription changed, and the count is the number of new rows |
| `FeedRecorder.Recorder.Record` | internal/feed/application/recorder.go:34-59 | one event has exactly the effect of the find, the resolution and the merge on the stored row, a deletion, or none; EndedIsRemoved, CurrentIsStored and OtherEventsAreIgnored say which event does what |
| `FeedRecorder.EndedIsRemoved` | internal/feed/application/recorder.go:52-55 | after a closed, merged or converted-to-draft event of a configured repository the key and exactly its receipts are gone and all else is as before |
| `FeedRecorder.CurrentIsStored` | internal/feed/application/recorder.go:40-51 | after an opened, ready, updated or reopened event the key is stored with the event's details and updated at the time of the record; a creation time once known stays, and no other row changes |
| `FeedRecorder.FirstRecordSetsParty` | internal/feed/application/recorder.go:61-80 | a row without record time gets cap, record time and deadline of this record, fallback or not |
| `FeedRecorder.OtherEventsAreIgnored` | internal/feed/application/recorder.go:36-57 | any other event and any event of an unconfigured repository changes nothing |
| `FeedStore.FeedDatabase.Upsert` | internal/platform/persistence/feed.go:119-167 | a new row is stored as given; of a stored one a known creation time, a set record time and guarded party values stay, the other columns are replaced; no other row changes |
| `FeedStore.FeedDatabase.Delete` | internal/platform/persistence/feed.go:184-193 | the row and exactly its receipts, whoever holds them, are gone; nothing else changed |
| `FeedRecorder.RecordFollowsLog` | internal/feed/application/recorder.go:61-80 | one more record keeps the stored cap, record time and deadline in line with the longer history |
| `FeedRecorder.StepFollowsLog` | internal/feed/application/recorder.go:34-80 | every transaction keeps every row in line with its history of records |
| `FeedRecorder.PartyColumnsFollowRecords` | internal/feed/application/recorder.go:61-80 | over any run the record time is that of the first record, the deadline is it plus the timer of the latest resolution that read the files (the first when none did), and the cap is that resolution's |
| `FeedRecorder.RecordTimeStays` | internal/platform/persistence/feed.go:145-147 | a set record time never changes while the row lives |
| `FeedRecorder.FallbackKeepsParty` | internal/feed/application/recorder.go:68-70 | a fallback resolution alters neither the cap nor the deadline of a recorded row |
| `Easter.DividendsNotNegative` | internal/digest/application/calendar.go:257-273 | no dividend of the algorithm is negative, so truncating and Euclidean division agree |
| `Easter.OffsetInRange` | internal/digest/application/calendar.go:257-273 | Easter is 0 to 34 days after 22 March, with the correction term 0 or 1 |
| `Easter.EasterDecodes` | internal/digest/application/calendar.go:270-272 | month and day are a real date from 22 March to 25 April |
| `Easter.EasterIsSunday` | internal/digest/application/calendar.go:257-273 | in every year the result is a Sunday |
| `Easter.EpactOfSteps` | internal/digest/application/calendar.go:258-265 | the algorithm's h and the epact of the computus add up to 23 in the cycle of 30, in every year |
| `Easter.MoonOfSteps` | internal/digest/application/calendar.go:258-268 | the paschal full moon of the computus lies h days after 21 March, a day less in the two late cases |
| `Easter.EasterAfterPaschalMoon` | internal/digest/application/calendar.go:257-273 | it is the first Sunday strictly after the paschal full moon, defined from golden number, solar and lunar corrections and epact, apart from the algorithm |
| `HolidayTables.EasterOffsetsAreWeekdays` | internal/digest/domain/holidays.go:39-41 | the offsets -3, -2, 1, 39, 50 and 60 used in the tables never give a weekend day; 1 and 50 give Mondays |
| `HolidayTables.NthWeekdayIs` | internal/digest/application/calendar.go:239-249 | the date has the asked weekday and lies in the nth week of the month, or in its last seven days |
| `HolidayTables.RuleStaysInYear` | internal/digest/application/calendar.go:222-235 | a well-formed rule stays in its year or, for a weekday rule, six days beyond |
| `HolidayTables.FixedRuleIs` | internal/digest/application/calendar.go:232-234 | a fixed rule names the civil date of its month and day |
| `HolidayTables.EasterRuleIs` | internal/digest/application/calendar.go:224-225 | an Easter rule names the day that many days from Easter Sunday, itself in March or April |
| `HolidayTables.NthRuleIs` | internal/digest/application/calendar.go:226-249 | an nth-weekday rule names its weekday in the nth week of the month, or in its last seven days |
| `HolidayTables.OnOrAfterRuleIs` | internal/digest/application/calendar.go:228-231 | an on-or-after rule names a date of its weekday, not before the anchor and at most six days after it |
| `CivilDates.NumbersAreUnique` | internal/digest/application/calendar.go:25-37 | day numbers tell civil dates apart |
| `CivilDates.NumbersAreDates` | internal/digest/application/calendar.go:25-37 | every day number from year 1 on is a civil date |
| `HolidayExpansion.Expand` | internal/digest/application/calendar.go:142-189 | the two passes with the in-place sort give the dates that natural dates followed by observed dates define; the rule-by-rule lemmas say which those are |
| `HolidayExpansion.SortByDate` | internal/digest/application/calendar.go:164-170 | the exchange loops turn the array into the result of the exchange function, in place |
| `HolidayExpansion.ExchangeSortSorts` | internal/digest/application/calendar.go:164-170 | that result is a permutation in date order |
| `HolidayExpansion.FindObservedDate` | internal/digest/application/calendar.go:194-219 | the loop finds what the rule defines: the shifted day, or the first free weekday within 14 steps |
| `HolidayExpansion.FirstFreeIs` | internal/digest/application/calendar.go:203-215 | a found day is a free weekday with none free before it; none found means all 14 days are weekend or taken |
| `HolidayExpansion.DatesStay` | internal/digest/application/calendar.go:183-186 | a later holiday never renames or removes a date |
| `HolidayExpansion.ShiftedDayIsHoliday` | internal/digest/application/calendar.go:196-200 | the US shift always lands on a weekday, and that day is a holiday under some name |
| `HolidayExpansion.UnmovedRuleIsHoliday` | internal/digest/application/calendar.go:152-161 | a rule that does not move keeps its date, and the first such rule of a date names it |
| `HolidayExpansion.ShiftedRuleIsHoliday` | internal/digest/application/calendar.go:195-200 | a US rule on a Saturday makes the Friday before a holiday, one on a Sunday the Monday after |
| `HolidayExpansion.EveryDateHasItsRule` | internal/digest/application/calendar.go:152-187 | and conversely every date of the expansion is that of an unmoved rule or an observed one of a moved rule, and has that rule's name |
| `UkSubstitutes.NaturalPass` | internal/digest/application/calendar.go:151-160 | natural dates and deferred rules add up to all rules; few of them are not Mondays |
| `UkSubstitutes.EightClaimed` | internal/digest/application/calendar.go:201-215 | if all weekdays of two weeks are taken, at least eight taken dates are no Mondays |
| `UkSubstitutes.SearchSucceeds` | internal/digest/application/calendar.go:201-215 | with fewer than eight such dates the 14-step search succeeds |
| `UkSubstitutes.OneDatePerRule` | internal/digest/application/calendar.go:142-189 | the expanded map has exactly one date per rule |
| `UkSubstitutes.WeekdayHolidayKept` | internal/digest/application/calendar.go:157-159 | a weekday holiday keeps its natural date and its name |
| `UkSubstitutes.WeekendHolidaySubstituted` | internal/digest/application/calendar.go:201-215 | each weekend holiday gets a weekday of its own strictly after its date, the first one free, and the map names it there |
| `UkSubstitutes.SubstitutesInOrder` | internal/digest/application/calendar.go:162-170 | substitutes keep the order of the natural dates |
| `UkSubstitutes.WeekendRuleIsSubstituted` | internal/digest/application/calendar.go:201-215 | in terms of the table: every rule on a weekend names a weekday within the two weeks after it |
| `UkSubstitutes.EveryDateIsWeekday` | internal/digest/application/calendar.go:173-188 | no date of such a table is a weekend day |
| `UkSubstitutes.GreatBritain` | internal/digest/domain/holidays.go:77-88 | in every year the GB table has distinct dates, substitutes for every weekend holiday and few non-Mondays |
| `UkSubstitutes.Ireland` | internal/digest/domain/holidays.go:95-108 | the same for the IE table |
| `UkSubstitutes.EveryHolidayHasItsDate` | internal/digest/domain/holidays.go:77-108 | ten dates for GB and twelve for IE in every year |
| `Calendar.TeamCalendar.HolidaysIn` | internal/digest/application/calendar.go:114-135 | whatever was asked before, the memo answers with the uncached meaning of the year and adds only that year |
| `Calendar.ExpandWindow` | internal/digest/application/calendar.go:123-133 | in any map iteration order, the year's own dates come first, then the year before's, then the year after's |
| `Calendar.FillYear` | internal/digest/application/calendar.go:124-131 | the dates of the year that nothing claims yet are added, in any map iteration order |
| `Calendar.TeamCalendar.HolidayName` | internal/digest/application/calendar.go:95-101 | the name the meaning gives the date, none without a country |
| `Calendar.TeamCalendar.SkipReason` | internal/digest/application/calendar.go:82-91 | a reason if and only if the day is a weekend or a holiday of the meaning |
| `Calendar.ExpandedNearItsYear` | internal/digest/application/calendar.go:142-189 | a well-formed table puts its dates within a day before its year and two weeks after it |
| `Calendar.SourceWithinWindow` | internal/digest/application/calendar.go:116-123 | no year but the one before, the year itself and the one after can put a date in a year |
| `Calendar.WindowIsComplete` | internal/digest/application/calendar.go:114-135 | the three-year window holds a date if and only if some year's rules put it there, and own rules keep their names |
| `Calendar.MeaningOfDate` | internal/digest/application/calendar.go:82-101 | so a date is found in its year's map if and only if it is a holiday of any year's rules |
| `Calendar.CountryCalendarsAreComplete` | internal/digest/domain/holidays.go:59-108 | for the GB, IE and US tables the answer is complete in every year |
| `RoutingPaths.MatchedRules` | internal/routing/application/paths.go:183-204 | the loops return the rules that win some file, in declaration order |
| `RoutingPaths.WinnerIsUniqueLongest` | internal/routing/application/paths.go:187-196 | with distinct directories a rule wins a file if and only if it is the unique longest directory enclosing it |
| `RoutingPaths.MatchedExactlyLongest` | internal/routing/application/paths.go:179-204 | a rule is returned if and only if it is the unique longest enclosing directory of some changed file |
| `RoutingPaths.MatchedBySet` | internal/routing/application/paths.go:183-204 | the matched rules depend only on the set of normalized files |
| `RoutingPaths.MatchedInOrder` | internal/routing/application/paths.go:197-203 | a chosen rule stands right behind the chosen rules declared before it |
| `RoutingPaths.WholeSegments` | internal/routing/application/paths.go:206-210 | everything below a directory is under it, nothing with a longer segment is, and neither is the directory itself |
| `RoutingPaths.NormalizedIs` | internal/routing/application/paths.go:212-214 | normalizing drops the surrounding white space and one leading slash, and nothing else |
| `RoutingTargets.TargetsForFiles` | internal/routing/application/paths.go:104-147 | the add closure's order list and map and the final loop render the grouped contributions of the matched rules, or the base targets; TargetMentions, LaterRuleAppends and RepositoryBeforeOrg say which those are |
| `RoutingTargets.AddRule` | internal/routing/application/paths.go:129-137 | what one matched rule adds keeps the grouping equal to the contributions so far |
| `RoutingTargets.Add` | internal/routing/application/paths.go:120-128 | one contribution joins its channel's list and a new channel joins the order |
| `RoutingTargets.Render` | internal/routing/application/paths.go:139-146 | the last loop gives one target per channel in order with the union of its mentions |
| `RoutingTargets.UnionContributions` | internal/routing/application/paths.go:158-177 | the deduplicated union of the mentions in order, absent ones inheriting the base |
| `RoutingTargets.TargetsBySet` | internal/routing/application/paths.go:104-147 | the targets depend only on the set of normalized files |
| `RoutingTargets.MatchedChannelsDistinct` | internal/routing/application/paths.go:104-147 | when a rule matches, no channel occurs twice |
| `RoutingTargets.TargetMentions` | internal/routing/application/paths.go:115-177 | a target carries a mention if and only if a matched rule brings it to its channel, list entries everybody and single channels the primary mentions where the key is absent; no mention repeats |
| `RoutingTargets.LaterRuleAppends` | internal/routing/application/paths.go:129-146 | one more matched rule leaves every target where it is and adds channels and mentions behind the present ones only |
| `RoutingTargets.LaterEntryAppends` | internal/routing/application/paths.go:130-135 | and so does one more entry of a rule's channel list |
| `RoutingTargets.DedupKeepsFirsts` | internal/routing/application/paths.go:161-168 | names keep the order of their first occurrences |
| `RoutingTargets.GroupedChannels` | internal/routing/application/paths.go:113-146 | grouping keeps exactly the contributed channels |
| `RoutingTargets.OwnFileWins` | internal/routing/application/paths.go:183-212 | a file directly in a rule's directory is won by that rule |
| `RoutingTargets.PathChannels` | internal/routing/application/paths.go:45-62 | the sorted distinct channels the rules name in either form |
| `RoutingTargets.FindAdditionalChannels` | internal/routing/application/paths.go:68-88 | the sorted distinct further base channels and path channels |
| `RoutingTargets.AdditionalIs` | internal/routing/application/paths.go:68-88 | a channel is additional if and only if it is not empty and a base target after the first has it or a path rule names it in either form |
| `RoutingTargets.ListChannels` | internal/routing/application/paths.go:56-58 | the loop collects the non-empty channels of a list |
| `RoutingTargets.ReachableIsCovered` | internal/routing/application/paths.go:64-88 | whatever the rules are, every channel some file list can reach is the primary one or an additional one |
| `RoutingTargets.CoverageIsExact` | internal/routing/application/paths.go:37-88 | with distinct directories and one channel form per rule, the primary and additional channels are all reachable channels and no other |
| `RoutingResolve.ListTargetsAt` | internal/routing/application/resolve.go:30-45 | each list entry keeps its channel and its mentions, the whole channel when the key is absent |
| `RoutingResolve.RepositoryBeforeOrg` | internal/routing/application/resolve.go:12-58 | a repository tier that sets a channel in either form decides alone, with its list in order or its channel under the nearest mentions; else the org tier does; else there is one target without a channel |
| `RoutingResolve.NearestSettingWins` | internal/routing/application/resolve.go:81-116 | each behavior setting is the repository tier's, else the org tier's, else the global one |
| `RoutingResolve.NearestReactionWins` | internal/routing/application/resolve.go:94-105 | and so is each reaction by itself |
| `RoutingSlackView.SlackMappings` | internal/routing/application/slack_mappings.go:5-21 | in any map iteration order the loops build the view without party-only tiers and rules |
| `RoutingSlackView.SlackPathRules` | internal/routing/application/slack_mappings.go:23-31 | the rules in order without the party-only ones |
| `RoutingSlackView.NewProvider` | internal/routing/application/provider.go:24-30 | the provider routes over the Slack view of its mappings |
| `RoutingSlackView.SlackRulesElements` | internal/routing/application/slack_mappings.go:23-31 | a rule is kept if and only if it is not party-only |
| `RoutingSlackView.ViewKeeps` | internal/routing/domain/models.go:117-136 | a tier is dropped if and only if it has no announcement key, only rules that speak of the party alone, and a party entry or a rule; a kept tier loses exactly such rules |
| `RoutingSlackView.SlackViewIsIdempotent` | internal/routing/application/slack_mappings.go:5-21 | the view of a view is itself |
| `RoutingSlackView.KeptTierIsStable` | internal/routing/application/slack_mappings.go:5-21 | a kept tier stays kept with or without its party keys and loses no further rule |
| `RoutingSlackView.WithoutPartyIsStable` | internal/routing/application/slack_mappings.go:5-21 | mappings with every party key erased are their own view |
| `RoutingSlackView.PartyKeysNeverChangeRouting` | internal/routing/application/provider.go:15-192 | for all mappings, repositories and files, erasing every party key leaves the mapping, base targets, file targets, additional channels, path flag, entries and digest as they were |
| `RoutingProvider.SplitOfJoin` | internal/routing/application/provider.go:213-219 | splitting undoes joining an organization and a repository name |
| `RoutingProvider.JoinOfSplit` | internal/routing/application/provider.go:213-219 | joining undoes splitting, and the parts are not empty |
| `RoutingProvider.LookupIs` | internal/routing/application/provider.go:52-68 | a repository has its organization's "*" tier and the tier of its own name, each if and only if present |
| `RoutingProvider.NoNameNoTiers` | internal/routing/application/provider.go:53-56 | a string that is not two parts around a slash has no tiers |
| `RoutingProvider.GetIs` | internal/routing/application/provider.go:73-90 | a mapping is found if and only if one of the two tiers is there, and has the first base target's channel and mentions |
| `RoutingProvider.NamedTierRoutes` | internal/routing/application/provider.go:73-90 | a named tier with a channel of its own routes there and nowhere else, whatever "*" says |
| `RoutingProvider.Entries` | internal/routing/application/provider.go:96-144 | the loops list every organization's named tiers by name, then its wildcard |
| `RoutingProvider.EntriesOfOrg` | internal/routing/application/provider.go:104-142 | one organization's named tiers by name, then its wildcard |
| `RoutingProvider.TierHasEntry` | internal/routing/application/provider.go:96-144 | every tier has an entry under its key |
| `RoutingProvider.EntriesTellLookups` | internal/routing/application/provider.go:117-141 | every entry is that of a tier and agrees with the lookups: channel, mentions, further channels and deletion as a repository of that name, or an unnamed one for "*", gets them |
| `RoutingProvider.NamedBeforeWildcard` | internal/routing/application/provider.go:116-141 | in an organization the named entries come by name and the "*" entry after them |
| `RoutingProvider.OrganizationsInOrder` | internal/routing/application/provider.go:101-144 | the entries come organization by organization, by name |
| `RoutingProvider.Schedules` | internal/routing/application/provider.go:177-192 | the sorted distinct schedules of the entries whose digest is enabled |
| `RoutingProvider.DigestOfWildcard` | internal/routing/application/provider.go:149-172 | a repository matched by the wildcard only has the wildcard entry's digest |
| `RoutingProvider.ScheduleIsListed` | internal/routing/application/provider.go:174-192 | every mapped repository with an enabled digest has its schedule among the schedules |
| `RoutingProvider.ScheduleIsSomeTiers` | internal/routing/application/provider.go:174-190 | a schedule is listed if and only if some tier, named or "*", has its digest enabled at it |
| `RoutingProvider.NearestDigestWins` | internal/routing/application/provider.go:149-172 | the nearest digest key decides whether there is a digest, the nearest written schedule when, the global one in which time zone and country |
| `RoutingValidation.ValidateMappings` | internal/routing/application/validate.go:21-61 | accepts if and only if every organization and tier is valid, and an error names a violation that is there, in any iteration order |
| `RoutingValidation.ValidateOrg` | internal/routing/application/validate.go:23-58 | the same for one organization |
| `RoutingValidation.ValidateTier` | internal/routing/application/validate.go:33-57 | the same for one tier |
| `RoutingValidation.ValidatePaths` | internal/routing/application/validate.go:68-86 | the same for path rules |
| `RoutingValidation.FindRoutedNamedTier` | internal/routing/application/validate.go:93-100 | found if and only if a named tier routes |
| `RoutingValidation.FindInvalidSpec` | internal/routing/application/validate.go:40-44 | a malformed channel of the list, none if and only if all are well-formed |
| `RoutingValidation.AcceptedTiers` | internal/routing/application/validate.go:15-61 | in accepted mappings the tiers a repository resolves to hold channel ids, and one of them sets a channel |
| `RoutingValidation.AcceptedMappingsRoute` | internal/routing/application/validate.go:15-61 | over accepted mappings every repository that resolves is announced, for any changed files, only in well-formed channels |
| `RoutingValidation.ValidWhenEveryTierRoutes` | internal/routing/application/validate.go:17-61 | the converse as well: an organization is accepted if and only if it is named, well formed, not emptied by the Slack view, and each of its tiers resolves to a channel, a party-only "*" aside |
| `RoutingValidation.AcceptedWhenNothingBreaks` | internal/routing/application/validate.go:17-86 | mappings are accepted if and only if none of the nine violations an error can name is in them |
| `RoutingValidation.AcceptedWildcards` | internal/routing/application/validate.go:47-72 | accepted mappings have no path rules on "*", and a party-only named tier relies on a channel of "*" |
| `RoutingValidation.AcceptedNamesResolve` | internal/routing/application/validate.go:10-37 | every accepted organization and repository name can be looked up |
| `RoutingValidation.NameCharacters` | internal/routing/application/validate.go:10-11 | a name of one character is a letter, a digit, an underscore, a dot or a hyphen |
| `RoutingValidation.NamesByCharacter` | internal/routing/application/validate.go:10-11 | a name is not empty and each of its characters is one |
| `RoutingModel.ChannelIDIs` | internal/routing/domain/channel.go:8-13 | a channel id is one of C, G and D and then at least two capitals or digits |
| `RoutingParty.FileParty` | internal/routing/application/party.go:105-122 | the running-best loop gives each value of the longest directory that sets it |
| `RoutingParty.FileValuesFromLongest` | internal/routing/application/party.go:105-122 | with distinct directories each value is that of the unique longest directory setting it, or the repository's |
| `RoutingParty.FindPartySettings` | internal/routing/application/party.go:67-84 | no file asks for more members or less time, and each value is one that some file asks for; without files or rules the repository's own |
| `RoutingParty.OverFilesIsTightest` | internal/routing/application/party.go:72-83 | the running maximum and minimum are bounds over all files and each is attained by some file |
| `RoutingParty.SettingsBySet` | internal/routing/application/party.go:67-84 | two lists of changed files with the same set of normalized files give the same settings, the cases without files or rules included |
| `RoutingParty.NearestPartyValueWins` | internal/routing/application/party.go:86-103 | each value is the repository tier's, else the org tier's, else the configured one, else, when that is below one member or fifteen minutes, one member and an hour |
| `DigestReporter.Reporter.GroupByChannel` | internal/digest/application/reporter.go:150-201 | the nested loops group the pass's lines by channel in order of first appearance, each group with its pull requests and deduplicated mentions |
| `DigestReporter.Reporter.AddPullRequest` | internal/digest/application/reporter.go:161-193 | one pull request's lines join their groups, announced and empty channels left out |
| `DigestReporter.AddLine` | internal/digest/application/reporter.go:173-192 | a line joins its channel's group with its unseen mentions; a new channel joins the order |
| `DigestReporter.Reporter.Collect` | internal/digest/application/reporter.go:196-200 | the groups in order of first appearance |
| `DigestReporter.LineListed` | internal/digest/application/reporter.go:153-168 | a pass lists a pull request in a channel if and only if it is stuck, its repository is included, and the channel is a non-empty base channel it was not announced in |
| `DigestReporter.PassLists` | internal/digest/application/reporter.go:155-172 | spelled out: the digest of the repository is enabled and, in a schedule's pass, at that schedule, and the channel is one of its base channels, not empty and not announced to |
| `DigestReporter.LinesFollowStuck` | internal/digest/application/reporter.go:155-194 | the lines follow the stuck pull requests |
| `DigestReporter.LinesFollowTargets` | internal/digest/application/reporter.go:162-193 | and, for one pull request, its base channels |
| `DigestReporter.GroupsHoldTheLines` | internal/digest/application/reporter.go:150-201 | a group holds a pull request if and only if a line says so, and a channel has one group |
| `DigestReporter.GroupMentions` | internal/digest/application/reporter.go:181-186 | a group mentions exactly those its channel's lines mention, each once |
| `DigestReporter.GroupInOrder` | internal/digest/application/reporter.go:187-192 | a group lists its pull requests in the order of the lines |
| `DigestReporter.LaterLinesAppend` | internal/digest/application/reporter.go:174-200 | further lines add groups, mentions and pull requests only behind the present ones |
| `DigestReporter.OnePassPerPullRequest` | internal/digest/application/reporter.go:64-71 | over distinct specs a pull request is listed by the one pass of its schedule |
| `DigestReporter.SchedulesPartitionFullPass` | internal/digest/application/reporter.go:58-71 | running every schedule once lists each pair exactly as often as the full pass |
| `SlackSections.PackSections` | internal/platform/slack/composer.go:316-338 | for any lines and any limit, zero and negative ones being none, the builder loop cuts the lines greedily; the packed count is the last cut, and only a last section without text is not shown |
| `SlackSections.ExtendIsMaximal` | internal/platform/slack/composer.go:321-333 | a section keeps the limit or is a single line, and one more line would break the limit |
| `SlackSections.SectionsFit` | internal/platform/slack/composer.go:321-333 | every section keeps the limit or is a single line too long for it |
| `SlackSections.BlocksGiveLinesBack` | internal/platform/slack/composer.go:316-338 | with no empty line the blocks joined by newlines give back exactly the packed prefix |
| `SlackSections.GreedyStaysAhead` | internal/platform/slack/composer.go:316-338 | after any number of sections greedy has packed at least as much as any other packing |
| `SlackSections.GreedyPacksMost` | internal/platform/slack/composer.go:316-338 | no packing into as many sections packs more lines |
| `SlackSections.GreedyUsesFewest` | internal/platform/slack/composer.go:316-338 | no packing of the same lines uses fewer sections |
| `SlackSections.AllShown` | internal/platform/slack/composer.go:334-336 | with no empty line every section is shown |
| `SlackSections.FormatLines` | internal/platform/slack/composer.go:273-276 | one line per entry, each starting with the bullet and the link bracket, hence none empty |
| `SlackSections.StuckDigestList` | internal/platform/slack/composer.go:272-281 | for any entries never drops a line; a block keeps the limit or is one line longer than it; no packing of all lines has fewer sections |
| `SlackSections.ScheduledList` | internal/platform/slack/composer.go:294-312 | for any entries at most 50 blocks; the texts give back the shown lines and the last block counts the hidden ones, so shown and hidden make the total; no packing into the blocks of one message shows more lines |
| `Relocator.RelocateMessages.Run` | internal/maintenance/application/relocator.go:43-62 | the counters and the rows after the loop are those of the run's effects, for every way the external calls turn out and any webhook changes before each row statement |
| `Relocator.RelocateMessages.RelocateSelected` | internal/maintenance/application/relocator.go:50-59 | a listed pull request outside the repository filter or without a message in the source channel is skipped; any other counts as scanned and is relocated |
| `Relocator.RelocateMessages.Relocate` | internal/maintenance/application/relocator.go:91-101 | one selected pull request raises exactly one counter and has exactly its effects in their order |
| `Relocator.RelocateMessages.Move` | internal/maintenance/application/relocator.go:108-144 | repost, retarget, mark: each failing call ends it with one error, a gone original drops the row |
| `Relocator.RelocateMessages.Retarget` | internal/maintenance/application/relocator.go:114-133 | posts first and retargets the row at once; succeeds if and only if the row could be retargeted |
| `Relocator.RelocateMessages.Merge` | internal/maintenance/application/relocator.go:149-165 | marks the original, then drops its row; either failing is one error |
| `Relocator.RelocateMessages.Forget` | internal/maintenance/application/relocator.go:169-180 | drops the row; failing is one error |
| `Relocator.RelocateMessages.ForgetRow` | internal/maintenance/application/relocator.go:183-190 | reports success if and only if a row was there and the store did not fail, else counts one error |
| `Relocator.MessageRows.MoveMessage` | internal/platform/persistence/pull_requests.go:154-168 | succeeds if and only if the row exists and the destination has none; one statement, no row otherwise changed |
| `Relocator.MessageRows.RemoveMessage` | internal/platform/persistence/pull_requests.go:170-181 | succeeds if and only if the row exists; removes just it |
| `Relocator.MessageRows.ChangeOutside` | internal/platform/persistence/pull_requests.go:24-109 | the webhook handlers' own row changes: a message added unless its channel has one, a pull request closed or deleted with its rows |
| `Relocator.FindMessage` | internal/maintenance/application/relocator.go:207-214 | the loop finds the first message in the channel, none exactly when there is none |
| `Relocator.FoundInChannel` | internal/maintenance/application/relocator.go:207-214 | a found message is in the list and the channel; none found means no message of the list is in the channel |
| `Relocator.FoundIsFirst` | internal/maintenance/application/relocator.go:207-214 | the first message of the channel is the one found |
| `RelocatorRuns.SelectedWhen` | internal/maintenance/application/relocator.go:50-57 | a run looks at exactly the pull requests of its repository, or of all, that are listed in the source channel |
| `RelocatorRuns.EveryScanIsAccountedFor` | internal/maintenance/application/relocator.go:43-62 | under any failures, dry or not, scanned is the number of selected pull requests and equals moved plus merged plus forgotten plus errors |
| `RelocatorRuns.EachCounterCounts` | internal/maintenance/application/relocator.go:88-190 | each counter is the number of selected pull requests with its own outcome |
| `RelocatorRuns.VerdictIsEarned` | internal/maintenance/application/relocator.go:91-190 | moved, merged and forgotten are counted only for what is then in the rows and the messenger, and an error only when something went wrong |
| `RelocatorRuns.FailedWhen` | internal/maintenance/application/relocator.go:91-190 | an error is counted if and only if a needed call failed or the row statement found no row or a row in the way |
| `RelocatorRuns.EarlyFailureChangesNothing` | internal/maintenance/application/relocator.go:115-127 | a merge whose mark fails and a move whose repost fails leave everything for the next run |
| `RelocatorRuns.SoundAtEveryStep` | internal/maintenance/application/relocator.go:103-107 | stopped after any effect of a run, with a listing of any age and webhook changes in between, rows are unique per pull request and channel and point at posted messages |
| `RelocatorRuns.RowsAfter` | internal/platform/persistence/pull_requests.go:24-181 | which rows there are after each effect: a new one unless its channel has one, a moved one in place of the old, none of a deleted or removed one, and all others as before |
| `RelocatorRuns.PullsAfter` | internal/platform/persistence/pull_requests.go:24-109 | which pull requests are stored and open after each effect, and what has been posted |
| `RelocatorRuns.RetargetedLeavesChannel` | internal/maintenance/application/relocator.go:129-140 | once the row statement took effect the row is in the new channel with the new message, whether or not the original could be marked |
| `RelocatorRuns.SkippedByLaterRuns` | internal/maintenance/application/relocator.go:50-58 | a pull request without a row in the source channel is skipped by every later run, after any number of runs with any failures |
| `RelocatorRuns.NoneWaitsAfterErrorFreeRun` | internal/maintenance/application/relocator.go:43-62 | after a run without errors no open pull request of the chosen repositories has a row in the source channel |
| `RelocatorRuns.RerunScansNothing` | internal/maintenance/application/relocator.go:43-62 | running again after an error-free run scans nothing and changes nothing, also when source and destination are the same channel |
| `RelocatorRuns.DryRunTouchesNothing` | internal/maintenance/application/relocator.go:108-113 | a dry run has no effects and counts no error |
| `RelocatorRuns.DryVerdictIs` | internal/maintenance/application/relocator.go:92-113 | a dry run counts a pull request as forgotten without a destination, as merged when it is listed there, else as moved |
| `RelocatorRuns.DryRunForetells` | internal/maintenance/application/relocator.go:108-180 | a dry run reports exactly what a run whose calls all succeed then does |

## Left out

- Logging, HTTP, JSON and YAML decoding, wiring, and I/O errors of the feed store: a feed transaction either takes place or leaves no trace.
- FeedRecorder.Recorder.Record: the find and the upsert are one step, because overlapping records of one pull request are outside the store's promise; the resolution of the party settings (reading changed files with a timeout) is a parameter.
- FeedVisits.RoundsSettle: between the members' requests nothing else reaches the repository; a new pull request adds missing receipts and the count starts again.
- FeedFairness.FairLoads: claims nothing for caps of two or more, where the turn rule allows larger differences.
- FeedStore.FeedDatabase.ReadPartySnapshot: the grouping loop of `readPartyMembers` is the grouped query result, and a repository without members maps to an empty list where the original has no entry.
- FeedStore.FeedDatabase.List: row ids and their order are not modelled, the listing comes in any order; deleting a subscription by id, token deletion and the cleanup use cases appear only as steps that remove rows.
- FeedRequests.PullRequests.ResolveRepositories: repository names are taken as already lower-case, as the stores write them; which repositories are configured is a predicate.
- Text columns of a pull request are one value; request validation in the subscriptions use case would only add easy members.
- HolidayTables: only the GB, IE and US tables are written out; the other tables use no observance, and the lemmas on rules, offsets and the window hold for every well-formed table.
- UkSubstitutes: US shifts may land on a day another rule owns, so no claim of one date per US rule.
- Calendar: the choice of the country's table and its warnings, and the mutex around the memo.
- RoutingPaths: decoding of directories and channel lists; that decoded rules have distinct directories and one channel form is a premise where a lemma needs it.
- RoutingParty.FindPartySettings: building the case-insensitive tier index; the two tiers are parameters.
- RoutingProvider: the notification schedules, which follow the digest schedules' pattern, and `HasPathRules`.
- RoutingSlackView: the router that falls back to base targets when changed files cannot be read.
- DigestReporter: posting, the read of stuck and announced pull requests, idle days and time zones.
- SlackSections.FormatLines: a character is one byte; what follows the bullet and the link bracket of a line is given as an entry, its formatting is not modelled.
- Relocator.RelocateMessages.Move: carrying reactions over, whose failures are tolerated and reach no row and no counter, and message content; a failing list call, which ends a run before its first effect; Audit.
- Relocator: changes by webhook handlers fall anywhere before a pull request's one row statement; a delivery that adds a new message in the source channel during a run is excluded from the two lemmas about running again.
- Notification handlers, review sessions, the access domain, the lock store, reconciling and cleaning: straight sequences whose facts are easier than these.
