/** What relocate runs keep under any failures and any interleaved webhook changes. */
module RelocatorRuns {
  import opened Optional
  import opened Relocator

  // ---------------------------------------------------------------- accounting

  /** How many listed pull requests a run looks at. */
  function CountSelected(c: Config, listed: seq<Tracked>): nat {
    if listed == [] then 0
    else CountSelected(c, listed[..|listed| - 1]) + if Selected(c, listed[|listed| - 1]) then 1 else 0
  }

  /** Whatever fails, each scanned pull request ends in exactly one of the other counters. */
  lemma {:induction false} EveryScanIsAccountedFor(c: Config, w: World, listed: seq<Tracked>, outcomes: nat -> Outcome)
    ensures var tally := RunTally(c, w, listed, outcomes);
            && tally.scanned == CountSelected(c, listed)
            && tally.scanned == tally.moved + tally.merged + tally.forgotten + tally.errors
  {
    if listed != [] {
      EveryScanIsAccountedFor(c, w, listed[..|listed| - 1], outcomes);
    }
  }

  /** A run without errors had no failed pull request. */
  lemma {:induction false} NoErrorsMeansNoneFailed(c: Config, w: World, listed: seq<Tracked>, outcomes: nat -> Outcome,
                                                   i: nat)
    requires RunTally(c, w, listed, outcomes).errors == 0
    requires i < |listed| && Selected(c, listed[i])
    ensures VerdictFor(c, After(w, RunEvents(c, listed[..i], outcomes)), listed[i], outcomes(i)) != Failed
  {
    hide After, EventsFor, VerdictFor, Selected, RunEvents;
    var n := |listed| - 1;
    if i < n {
      assert listed[..n][..i] == listed[..i];
      NoErrorsMeansNoneFailed(c, w, listed[..n], outcomes, i);
    }
  }

  // ---------------------------------------------------------------- crash safety

  ghost predicate UniqueRows(w: World) {
    forall a, b :: a in w.rows && b in w.rows && a.pull == b.pull && a.channel == b.channel ==> a == b
  }

  predicate RowsHavePull(w: World) {
    forall r :: r in w.rows ==> r.pull in w.pulls
  }

  predicate RowsWerePosted(w: World) {
    forall r :: r in w.rows ==> Message(r.channel, r.id) in w.posted
  }

  ghost predicate Sound(w: World) {
    UniqueRows(w) && RowsHavePull(w) && RowsWerePosted(w)
  }

  lemma EventKeepsSound(w: World, e: Event)
    requires Sound(w)
    requires e.RowMoved? ==> Message(e.to, e.id) in w.posted
    ensures Sound(Apply(w, e))
  {
  }

  /** No row is pointed at a message before that message is posted. */
  ghost predicate PostsFirst(events: seq<Event>) {
    forall j :: 0 <= j < |events| && events[j].RowMoved? ==> PostedBefore(events, j, Message(events[j].to, events[j].id))
  }

  ghost predicate PostedBefore(events: seq<Event>, j: nat, m: Message) {
    exists i :: 0 <= i < j && i < |events| && events[i] == Posted(m)
  }

  lemma {:induction false} PostedStays(w: World, events: seq<Event>, i: nat, m: Message)
    requires i < |events| && events[i] == Posted(m)
    ensures m in After(w, events).posted
  {
    var n := |events| - 1;
    if i < n {
      PostedStays(w, events[..n], i, m);
    }
  }

  lemma {:induction false} SoundAfter(w: World, events: seq<Event>)
    requires Sound(w) && PostsFirst(events)
    ensures Sound(After(w, events))
  {
    if events != [] {
      var n := |events| - 1;
      PostsFirstPrefix(events, n);
      SoundAfter(w, events[..n]);
      var e := events[n];
      if e.RowMoved? {
        assert PostedBefore(events, n, Message(e.to, e.id));
        var i :| 0 <= i < n && events[i] == Posted(Message(e.to, e.id));
        PostedStays(w, events[..n], i, Message(e.to, e.id));
      }
      EventKeepsSound(After(w, events[..n]), e);
    }
  }

  lemma PostsFirstPrefix(events: seq<Event>, k: nat)
    requires PostsFirst(events) && k <= |events|
    ensures PostsFirst(events[..k])
  {
  }

  lemma PostsFirstConcat(first: seq<Event>, second: seq<Event>)
    requires PostsFirst(first) && PostsFirst(second)
    ensures PostsFirst(first + second)
  {
    var both := first + second;
    forall j | 0 <= j < |both| && both[j].RowMoved?
      ensures PostedBefore(both, j, Message(both[j].to, both[j].id))
    {
      var m := Message(both[j].to, both[j].id);
      if j < |first| {
        assert PostedBefore(first, j, m);
        var i :| 0 <= i < j && first[i] == Posted(m);
        assert both[i] == first[i];
      } else {
        assert PostedBefore(second, j - |first|, m);
        var i :| 0 <= i < j - |first| && second[i] == Posted(m);
        assert both[|first| + i] == second[i];
      }
    }
  }

  lemma {:induction false} RunPostsFirst(c: Config, listed: seq<Tracked>, outcomes: nat -> Outcome)
    ensures PostsFirst(RunEvents(c, listed, outcomes))
  {
    if listed != [] {
      var n := |listed| - 1;
      RunPostsFirst(c, listed[..n], outcomes);
      OnePostsFirst(c, listed[n], outcomes(n));
      PostsFirstConcat(RunEvents(c, listed[..n], outcomes), EventsFor(c, listed[n], outcomes(n)));
    }
  }

  lemma OnePostsFirst(c: Config, t: Tracked, o: Outcome)
    ensures PostsFirst(EventsFor(c, t, o))
  {
    var events := EventsFor(c, t, o);
    forall j | 0 <= j < |events| && events[j].RowMoved?
      ensures PostedBefore(events, j, Message(events[j].to, events[j].id))
    {
      assert events[0] == Posted(Message(events[j].to, events[j].id));
    }
  }

  /**
   * Stopped after any step of a run, each pull request has at most one row a channel and every
   * row points at a message that was posted, however stale the listing was.
   */
  lemma SoundAtEveryStep(c: Config, w: World, listed: seq<Tracked>, outcomes: nat -> Outcome, k: nat)
    requires Sound(w) && k <= |RunEvents(c, listed, outcomes)|
    ensures Sound(After(w, RunEvents(c, listed, outcomes)[..k]))
  {
    RunPostsFirst(c, listed, outcomes);
    PostsFirstPrefix(RunEvents(c, listed, outcomes), k);
    SoundAfter(w, RunEvents(c, listed, outcomes)[..k]);
  }

  // ---------------------------------------------------------------- what moved is skipped

  /** The event can give the pull request no row in this channel. */
  predicate AddsNone(e: Event, pull: Pull, channel: Channel) {
    match e
    case Outside(Added(p, m)) => p != pull || m.channel != channel
    case RowMoved(p, from, to, id) => to != channel
    case _ => true
  }

  predicate ChangesAddNone(changes: seq<Change>, pull: Pull, channel: Channel) {
    forall i :: 0 <= i < |changes| ==> AddsNone(Outside(changes[i]), pull, channel)
  }

  lemma {:induction false} AbsentStays(w: World, events: seq<Event>, pull: Pull, channel: Channel)
    requires !HasRow(w, pull, channel)
    requires forall i :: 0 <= i < |events| ==> AddsNone(events[i], pull, channel)
    ensures !HasRow(After(w, events), pull, channel)
  {
    if events != [] {
      AbsentStays(w, events[..|events| - 1], pull, channel);
    }
  }

  /** A run never retargets a row into the channel it empties, even when both are the same channel. */
  lemma MovesAddNone(c: Config, t: Tracked, o: Outcome, pull: Pull)
    requires ChangesAddNone(o.changes, pull, c.from)
    ensures forall i :: 0 <= i < |EventsFor(c, t, o)| ==> AddsNone(EventsFor(c, t, o)[i], pull, c.from)
  {
  }

  lemma {:induction false} RunAddsNone(c: Config, listed: seq<Tracked>, outcomes: nat -> Outcome, pull: Pull)
    requires forall i: nat :: i < |listed| ==> ChangesAddNone(outcomes(i).changes, pull, c.from)
    ensures forall i :: 0 <= i < |RunEvents(c, listed, outcomes)| ==>
              AddsNone(RunEvents(c, listed, outcomes)[i], pull, c.from)
  {
    if listed != [] {
      var n := |listed| - 1;
      RunAddsNone(c, listed[..n], outcomes, pull);
      MovesAddNone(c, listed[n], outcomes(n), pull);
    }
  }

  lemma NotListedThere(c: Config, w: World, listed: seq<Tracked>, i: nat)
    requires Lists(w, listed) && i < |listed|
    ensures Selected(c, listed[i]) ==> HasRow(w, listed[i].pull, c.from)
    ensures MessageIn(listed[i].messages, c.from).Some? <==> HasRow(w, listed[i].pull, c.from)
  {
    var t := listed[i];
    FoundInChannel(t.messages, c.from);
    if MessageIn(t.messages, c.from).Some? {
      var m := MessageIn(t.messages, c.from).value;
      assert Row(t.pull, m.channel, m.id) in w.rows;
    }
    if HasRow(w, t.pull, c.from) {
      var r :| r in w.rows && r.pull == t.pull && r.channel == c.from;
      assert Row(t.pull, c.from, r.id) == r;
      assert Message(c.from, r.id) in t.messages;
    }
  }

  datatype Round = Round(listed: seq<Tracked>, outcomes: nat -> Outcome)

  /** Runs one after the other, each cut short by any failures. */
  function RoundsEvents(c: Config, rounds: seq<Round>): seq<Event> {
    if rounds == [] then []
    else
      var last := rounds[|rounds| - 1];
      RoundsEvents(c, rounds[..|rounds| - 1]) + RunEvents(c, last.listed, last.outcomes)
  }

  /** Once the row statement of a move took effect, the row is in the new channel, marked or not. */
  lemma RetargetedLeavesChannel(c: Config, w: World, t: Tracked, id: string, o: Outcome)
    requires Selected(c, t) && !c.dryRun && c.to != NO_CHANNEL && MessageIn(t.messages, c.to).None?
    requires o.repost == Reposted(id) && MoveVerdict(c, w, t, o.(markFails := false)) == Moved
    ensures var done := After(w, EventsFor(c, t, o));
            !HasRow(done, t.pull, c.from) && Row(t.pull, c.to, id) in done.rows
  {
  }

  /** A pull request with no message in the source channel is skipped by every later run. */
  lemma SkippedByLaterRuns(c: Config, w: World, rounds: seq<Round>, listed: seq<Tracked>, i: nat)
    requires i < |listed| && !HasRow(w, listed[i].pull, c.from)
    requires forall k, n: nat :: 0 <= k < |rounds| && n < |rounds[k].listed| ==>
                                   ChangesAddNone(rounds[k].outcomes(n).changes, listed[i].pull, c.from)
    requires Lists(After(w, RoundsEvents(c, rounds)), listed)
    ensures !Selected(c, listed[i])
  {
    RoundsAddNone(c, rounds, listed[i].pull);
    AbsentStays(w, RoundsEvents(c, rounds), listed[i].pull, c.from);
    NotListedThere(c, After(w, RoundsEvents(c, rounds)), listed, i);
  }

  lemma {:induction false} RoundsAddNone(c: Config, rounds: seq<Round>, pull: Pull)
    requires forall k, n: nat :: 0 <= k < |rounds| && n < |rounds[k].listed| ==>
                                   ChangesAddNone(rounds[k].outcomes(n).changes, pull, c.from)
    ensures forall i :: 0 <= i < |RoundsEvents(c, rounds)| ==> AddsNone(RoundsEvents(c, rounds)[i], pull, c.from)
  {
    if rounds != [] {
      var n := |rounds| - 1;
      RoundsAddNone(c, rounds[..n], pull);
      RunAddsNone(c, rounds[n].listed, rounds[n].outcomes, pull);
    }
  }

  // ---------------------------------------------------------------- running again

  /** The pull request is open and still has a message in the channel. */
  predicate Waiting(w: World, pull: Pull, channel: Channel) {
    HasRow(w, pull, channel) && pull in w.pulls && w.pulls[pull]
  }

  lemma {:induction false} WaitingOnlyShrinks(w: World, events: seq<Event>, pull: Pull, channel: Channel)
    requires RowsHavePull(w)
    requires forall i :: 0 <= i < |events| ==> AddsNone(events[i], pull, channel)
    ensures RowsHavePull(After(w, events))
    ensures Waiting(After(w, events), pull, channel) ==> Waiting(w, pull, channel)
  {
    if events != [] {
      var before := After(w, events[..|events| - 1]);
      WaitingOnlyShrinks(w, events[..|events| - 1], pull, channel);
      OneWaitingOnlyShrinks(before, events[|events| - 1], pull, channel);
    }
  }

  lemma OneWaitingOnlyShrinks(w: World, e: Event, pull: Pull, channel: Channel)
    requires RowsHavePull(w) && AddsNone(e, pull, channel)
    ensures RowsHavePull(Apply(w, e))
    ensures Waiting(Apply(w, e), pull, channel) ==> Waiting(w, pull, channel)
  {
  }

  lemma SucceededLeavesChannel(c: Config, w: World, t: Tracked, o: Outcome)
    requires Selected(c, t) && !c.dryRun && VerdictFor(c, w, t, o) != Failed
    ensures !HasRow(After(w, EventsFor(c, t, o)), t.pull, c.from)
  {
  }

  /** The effects of a run, split around one listed pull request. */
  lemma {:induction false} RunSplit(c: Config, listed: seq<Tracked>, outcomes: nat -> Outcome, i: nat)
    returns (rest: seq<Event>)
    requires i < |listed|
    ensures RunEvents(c, listed, outcomes) ==
            RunEvents(c, listed[..i], outcomes) + EventsFor(c, listed[i], outcomes(i)) + rest
  {
    hide EventsFor;
    var n := |listed| - 1;
    if i == n {
      rest := [];
    } else {
      assert listed[..n][..i] == listed[..i];
      var shorter := RunSplit(c, listed[..n], outcomes, i);
      rest := shorter + EventsFor(c, listed[n], outcomes(n));
      var upTo := RunEvents(c, listed[..i], outcomes) + EventsFor(c, listed[i], outcomes(i));
      assert upTo + shorter + EventsFor(c, listed[n], outcomes(n)) == upTo + rest;
    }
  }

  /** After a run without errors no open pull request of the chosen repositories waits in the channel. */
  lemma NoneWaitsAfterErrorFreeRun(c: Config, w: World, listed: seq<Tracked>, outcomes: nat -> Outcome, pull: Pull)
    requires RowsHavePull(w) && Lists(w, listed)
    requires !c.dryRun && RunTally(c, w, listed, outcomes).errors == 0
    requires forall i: nat :: i < |listed| ==> ChangesAddNone(outcomes(i).changes, pull, c.from)
    requires c.repository == EVERY_REPOSITORY || pull.repository == c.repository
    ensures !Waiting(After(w, RunEvents(c, listed, outcomes)), pull, c.from)
  {
    hide EventsFor, RunEvents, VerdictFor, RunTally, After, AddsNone, MessageIn;
    RunAddsNone(c, listed, outcomes, pull);
    WaitingOnlyShrinks(w, RunEvents(c, listed, outcomes), pull, c.from);
    if Waiting(w, pull, c.from) {
      var i: nat :| i < |listed| && listed[i].pull == pull;
      NotListedThere(c, w, listed, i);
      NoErrorsMeansNoneFailed(c, w, listed, outcomes, i);
      var earlier := RunEvents(c, listed[..i], outcomes);
      var own := EventsFor(c, listed[i], outcomes(i));
      SucceededLeavesChannel(c, After(w, earlier), listed[i], outcomes(i));
      AfterConcat(w, earlier, own);
      var rest := RunSplit(c, listed, outcomes, i);
      AfterConcat(w, earlier + own, rest);
      assert forall k :: 0 <= k < |rest| ==> rest[k] == RunEvents(c, listed, outcomes)[|earlier + own| + k];
      AbsentStays(After(w, earlier + own), rest, pull, c.from);
    }
  }

  /** Running again after an error-free run scans nothing and changes nothing. */
  lemma RerunScansNothing(c: Config, w: World, listed: seq<Tracked>, outcomes: nat -> Outcome,
                          again: seq<Tracked>, later: nat -> Outcome)
    requires RowsHavePull(w) && Lists(w, listed)
    requires !c.dryRun && RunTally(c, w, listed, outcomes).errors == 0
    requires forall pull, i: nat :: i < |listed| ==> ChangesAddNone(outcomes(i).changes, pull, c.from)
    requires Lists(After(w, RunEvents(c, listed, outcomes)), again)
    ensures RunTally(c, After(w, RunEvents(c, listed, outcomes)), again, later) == NOTHING
    ensures RunEvents(c, again, later) == []
  {
    var done := After(w, RunEvents(c, listed, outcomes));
    forall i | 0 <= i < |again|
      ensures !Selected(c, again[i])
    {
      if Selected(c, again[i]) {
        NotListedThere(c, done, again, i);
        NoneWaitsAfterErrorFreeRun(c, w, listed, outcomes, again[i].pull);
      }
    }
    NoneSelectedDoesNothing(c, done, again, later);
  }

  lemma {:induction false} NoneSelectedDoesNothing(c: Config, w: World, listed: seq<Tracked>, outcomes: nat -> Outcome)
    requires forall i :: 0 <= i < |listed| ==> !Selected(c, listed[i])
    ensures RunTally(c, w, listed, outcomes) == NOTHING && RunEvents(c, listed, outcomes) == []
  {
    if listed != [] {
      NoneSelectedDoesNothing(c, w, listed[..|listed| - 1], outcomes);
    }
  }

  // ---------------------------------------------------------------- dry runs

  lemma {:induction false} DryRunTouchesNothing(c: Config, w: World, listed: seq<Tracked>, outcomes: nat -> Outcome)
    requires c.dryRun
    ensures RunEvents(c, listed, outcomes) == [] && RunTally(c, w, listed, outcomes).errors == 0
  {
    if listed != [] {
      DryRunTouchesNothing(c, w, listed[..|listed| - 1], outcomes);
    }
  }

  /** Every external call succeeds and nobody else touches the rows. */
  predicate Smooth(o: Outcome) {
    o.repost.Reposted? && !o.markFails && !o.rowFails && o.changes == []
  }

  predicate AboutPull(e: Event, pull: Pull) {
    match e
    case Posted(m) => true
    case RowMoved(p, from, to, id) => p == pull
    case RowRemoved(p, channel) => p == pull
    case Outside(change) => false
  }

  ghost predicate AboutOne(e: Event, pulls: seq<Pull>) {
    exists p :: p in pulls && AboutPull(e, p)
  }

  lemma {:induction false} OthersKeepRow(w: World, events: seq<Event>, others: seq<Pull>, pull: Pull, channel: Channel)
    requires pull !in others
    requires forall i :: 0 <= i < |events| ==> AboutOne(events[i], others)
    ensures HasRow(After(w, events), pull, channel) <==> HasRow(w, pull, channel)
  {
    if events != [] {
      var n := |events| - 1;
      var before := After(w, events[..n]);
      OthersKeepRow(w, events[..n], others, pull, channel);
      var p :| p in others && AboutPull(events[n], p);
      assert forall r: Row :: r.pull == pull ==> (r in before.rows <==> r in Apply(before, events[n]).rows);
    }
  }

  lemma {:induction false} SmoothRunIsAbout(c: Config, listed: seq<Tracked>, outcomes: nat -> Outcome, pulls: seq<Pull>)
    requires forall i: nat :: i < |listed| ==> Smooth(outcomes(i)) && listed[i].pull in pulls
    ensures forall k :: 0 <= k < |RunEvents(c, listed, outcomes)| ==>
              AboutOne(RunEvents(c, listed, outcomes)[k], pulls)
  {
    if listed != [] {
      var n := |listed| - 1;
      SmoothRunIsAbout(c, listed[..n], outcomes, pulls);
      var own := EventsFor(c, listed[n], outcomes(n));
      assert forall k :: 0 <= k < |own| ==> AboutPull(own[k], listed[n].pull) && AboutOne(own[k], pulls);
    }
  }

  /** A dry run reports exactly what a run whose calls all succeed then does. */
  lemma {:induction false} DryRunForetells(c: Config, w: World, listed: seq<Tracked>, upTo: nat,
                                           outcomes: nat -> Outcome, ignored: nat -> Outcome)
    requires Lists(w, listed) && upTo <= |listed|
    requires forall i: nat :: i < |listed| ==> Smooth(outcomes(i))
    ensures RunTally(c.(dryRun := false), w, listed[..upTo], outcomes) ==
            RunTally(c.(dryRun := true), w, listed[..upTo], ignored)
  {
    hide After, VerdictFor, RunEvents, Lists, Smooth;
    if upTo > 0 {
      var n := upTo - 1;
      var live := c.(dryRun := false);
      DryRunForetells(c, w, listed, n, outcomes, ignored);
      assert listed[..upTo][..n] == listed[..n];
      if Selected(c, listed[n]) {
        var before := After(w, RunEvents(live, listed[..n], outcomes));
        EarlierKeepRow(live, w, listed, n, outcomes, c.from);
        EarlierKeepRow(live, w, listed, n, outcomes, c.to);
        NotListedThere(c, w, listed, n);
        NotListedThere(c.(from := c.to), w, listed, n);
        SmoothVerdict(live, before, listed[n], outcomes(n),
                      After(w, RunEvents(c.(dryRun := true), listed[..n], ignored)), ignored(n));
      }
    }
  }

  lemma EarlierKeepRow(c: Config, w: World, listed: seq<Tracked>, n: nat, outcomes: nat -> Outcome, channel: Channel)
    requires Lists(w, listed) && n < |listed|
    requires forall i: nat :: i < |listed| ==> Smooth(outcomes(i))
    ensures HasRow(After(w, RunEvents(c, listed[..n], outcomes)), listed[n].pull, channel) <==>
            HasRow(w, listed[n].pull, channel)
  {
    var others := seq(n, i requires 0 <= i < n => listed[i].pull);
    assert forall i: nat :: i < n ==> others[i] == listed[i].pull;
    SmoothRunIsAbout(c, listed[..n], outcomes, others);
    OthersKeepRow(w, RunEvents(c, listed[..n], outcomes), others, listed[n].pull, channel);
  }

  lemma SmoothVerdict(c: Config, w: World, t: Tracked, o: Outcome, other: World, ignored: Outcome)
    requires Selected(c, t) && Smooth(o) && !c.dryRun
    requires HasRow(w, t.pull, c.from)
    requires MessageIn(t.messages, c.to).Some? <==> HasRow(w, t.pull, c.to)
    ensures VerdictFor(c, w, t, o) == VerdictFor(c.(dryRun := true), other, t, ignored)
  {
    assert Outsides(o.changes) == [];
    AfterOne(w, [], Posted(Message(c.to, o.repost.id)));
    assert [] + [Posted(Message(c.to, o.repost.id))] == [Posted(Message(c.to, o.repost.id))] + Outsides(o.changes);
  }

  // ---------------------------------------------------------------- what the counters and the events say

  function CountVerdicts(c: Config, w: World, listed: seq<Tracked>, outcomes: nat -> Outcome, verdict: Verdict): nat {
    if listed == [] then 0
    else
      var n := |listed| - 1;
      var own := VerdictFor(c, After(w, RunEvents(c, listed[..n], outcomes)), listed[n], outcomes(n));
      CountVerdicts(c, w, listed[..n], outcomes, verdict) + if Selected(c, listed[n]) && own == verdict then 1 else 0
  }

  /** Each counter counts its own outcome. */
  lemma {:induction false} EachCounterCounts(c: Config, w: World, listed: seq<Tracked>, outcomes: nat -> Outcome)
    ensures var tally := RunTally(c, w, listed, outcomes);
      && tally.moved == CountVerdicts(c, w, listed, outcomes, Moved)
      && tally.merged == CountVerdicts(c, w, listed, outcomes, Merged)
      && tally.forgotten == CountVerdicts(c, w, listed, outcomes, Forgotten)
      && tally.errors == CountVerdicts(c, w, listed, outcomes, Failed)
  {
    if listed != [] {
      hide VerdictFor, Selected, After, RunEvents;
      EachCounterCounts(c, w, listed[..|listed| - 1], outcomes);
    }
  }

  ghost predicate ListedIn(t: Tracked, channel: Channel) {
    exists m :: m in t.messages && m.channel == channel
  }

  /** What a dry run says depends on the listing alone. */
  lemma DryVerdictIs(c: Config, w: World, t: Tracked, o: Outcome)
    requires c.dryRun
    ensures VerdictFor(c, w, t, o) ==
            if c.to == "" then Forgotten else if ListedIn(t, c.to) then Merged else Moved
  {
    FoundInChannel(t.messages, c.to);
  }

  /** What a run that is not dry must have done to count a pull request so. */
  ghost predicate Earned(c: Config, w: World, t: Tracked, o: Outcome, verdict: Verdict, u: World) {
    var others := After(w, Outsides(o.changes));
    match verdict
    case Moved =>
      && c.to != "" && !ListedIn(t, c.to) && o.repost.Reposted? && !o.markFails
      && Row(t.pull, c.to, o.repost.id) in u.rows && Message(c.to, o.repost.id) in u.posted && !HasRow(u, t.pull, c.from)
    case Merged =>
      c.to != "" && ListedIn(t, c.to) && !o.markFails && !HasRow(u, t.pull, c.from) && u.posted == others.posted
    case Forgotten =>
      && (c.to == "" || (!ListedIn(t, c.to) && o.repost.Gone?))
      && !HasRow(u, t.pull, c.from) && u.posted == others.posted
    case Failed => WentWrong(c, others, t, o)
  }

  /** A call that the pull request needs fails, or its row statement finds no row or a row in the way. */
  ghost predicate WentWrong(c: Config, others: World, t: Tracked, o: Outcome) {
    var rowLost := o.rowFails || !HasRow(others, t.pull, c.from);
    if c.to == "" then rowLost
    else if ListedIn(t, c.to) then o.markFails || rowLost
    else if o.repost.Gone? then rowLost
    else o.repost.RepostFailed? || o.markFails || rowLost || HasRow(others, t.pull, c.to)
  }

  /** A selected pull request counts as an error exactly when something it needs went wrong. */
  lemma FailedWhen(c: Config, w: World, t: Tracked, o: Outcome)
    requires Selected(c, t) && !c.dryRun
    ensures VerdictFor(c, w, t, o) == Failed <==> WentWrong(c, After(w, Outsides(o.changes)), t, o)
  {
    FoundInChannel(t.messages, c.to);
    FoundInChannel(t.messages, c.from);
    if o.repost.Reposted? {
      PostThenOthers(w, Message(c.to, o.repost.id), o.changes);
    }
    hide After, Outsides;
  }

  /** A merge whose mark fails, like a move whose repost fails, leaves everything as it is for the next run. */
  lemma EarlyFailureChangesNothing(c: Config, t: Tracked, o: Outcome)
    requires c.to != ""
    requires if ListedIn(t, c.to) then o.markFails else o.repost.RepostFailed?
    ensures EventsFor(c, t, o) == []
  {
    FoundInChannel(t.messages, c.to);
  }

  /** Moved, merged and forgotten are counted only for what happened, and an error only when something went wrong. */
  lemma VerdictIsEarned(c: Config, w: World, t: Tracked, o: Outcome)
    requires Selected(c, t) && !c.dryRun
    ensures Earned(c, w, t, o, VerdictFor(c, w, t, o), After(w, EventsFor(c, t, o)))
  {
    FoundInChannel(t.messages, c.to);
    FailedWhen(c, w, t, o);
    if c.to == NO_CHANNEL || MessageIn(t.messages, c.to).Some? || o.repost.Gone? {
      AfterOne(w, Outsides(o.changes), RowRemoved(t.pull, c.from));
    } else if o.repost.Reposted? {
      PostThenOthers(w, Message(c.to, o.repost.id), o.changes);
      MoveIsEarned(c, w, t, o);
    }
  }

  /** Nobody else's rows depend on what was posted. */
  lemma {:induction false} PostThenOthers(w: World, m: Message, changes: seq<Change>)
    ensures After(w, [Posted(m)] + Outsides(changes)).rows == After(w, Outsides(changes)).rows
    ensures After(w, [Posted(m)] + Outsides(changes)).pulls == After(w, Outsides(changes)).pulls
    ensures After(w, [Posted(m)] + Outsides(changes)).posted == After(w, Outsides(changes)).posted + {m}
  {
    var events := Outsides(changes);
    if changes == [] {
      assert [Posted(m)] + events == [Posted(m)];
      AfterOne(w, [], Posted(m));
      assert [] + [Posted(m)] == [Posted(m)];
    } else {
      var init, last := changes[..|changes| - 1], changes[|changes| - 1];
      PostThenOthers(w, m, init);
      assert events == Outsides(init) + [Outside(last)];
      assert [Posted(m)] + events == ([Posted(m)] + Outsides(init)) + [Outside(last)];
      AfterOne(w, Outsides(init), Outside(last));
      AfterOne(w, [Posted(m)] + Outsides(init), Outside(last));
    }
  }

  lemma MoveIsEarned(c: Config, w: World, t: Tracked, o: Outcome)
    requires Selected(c, t) && !c.dryRun && c.to != NO_CHANNEL && MessageIn(t.messages, c.to).None? && !ListedIn(t, c.to)
    requires o.repost.Reposted?
    ensures Earned(c, w, t, o, VerdictFor(c, w, t, o), After(w, EventsFor(c, t, o)))
  {
    PostThenOthers(w, Message(c.to, o.repost.id), o.changes);
    FailedWhen(c, w, t, o);
    AfterOne(w, [Posted(Message(c.to, o.repost.id))] + Outsides(o.changes), RowMoved(t.pull, c.from, c.to, o.repost.id));
    hide After, Outsides;
  }

  /** Which rows there are after an event. */
  lemma RowsAfter(w: World, e: Event, r: Row)
    ensures r in Apply(w, e).rows <==>
      match e
      case Outside(Added(pull, m)) =>
        || r in w.rows
        || (r == Row(pull, m.channel, m.id) && forall x :: x in w.rows ==> x.pull != pull || x.channel != m.channel)
      case Outside(Closed(pull)) => r in w.rows
      case Outside(Deleted(pull)) => r in w.rows && r.pull != pull
      case Posted(m) => r in w.rows
      case RowMoved(pull, from, to, id) =>
        var moves := (exists x :: x in w.rows && x.pull == pull && x.channel == from)
                     && (from == to || forall x :: x in w.rows ==> x.pull != pull || x.channel != to);
        || (r in w.rows && !(moves && r.pull == pull && r.channel == from))
        || (moves && r == Row(pull, to, id))
      case RowRemoved(pull, channel) => r in w.rows && !(r.pull == pull && r.channel == channel)
  {
  }

  /** Which pull requests are stored and open after an event, and what has been posted. */
  lemma PullsAfter(w: World, e: Event)
    ensures var u := Apply(w, e);
      match e
      case Outside(Added(pull, m)) =>
        && u.pulls.Keys == w.pulls.Keys + {pull} && u.posted == w.posted + {m}
        && (pull !in w.pulls ==> u.pulls[pull]) && forall p | p in w.pulls :: u.pulls[p] == w.pulls[p]
      case Outside(Closed(pull)) =>
        && u.pulls.Keys == w.pulls.Keys && u.posted == w.posted
        && forall p | p in w.pulls :: u.pulls[p] == (w.pulls[p] && p != pull)
      case Outside(Deleted(pull)) => u.pulls == w.pulls - {pull} && u.posted == w.posted
      case Posted(m) => u.pulls == w.pulls && u.posted == w.posted + {m}
      case _ => u.pulls == w.pulls && u.posted == w.posted
  {
  }

  /** A run looks at the pull requests of its repository, or of all without one, that are listed in the source channel. */
  lemma SelectedWhen(c: Config, t: Tracked)
    ensures Selected(c, t) <==> (c.repository == "" || t.pull.repository == c.repository) && ListedIn(t, c.from)
  {
    FoundInChannel(t.messages, c.from);
  }
}
