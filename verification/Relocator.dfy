/**
 * Moving stored messages between channels: every external call may fail, and other
 * processes may change the rows between the listing and each row statement.
 */
module Relocator {
  import opened Optional

  type Channel = string

  const NO_CHANNEL: Channel := ""
  const EVERY_REPOSITORY := ""

  datatype Pull = Pull(repository: string, number: int)

  datatype Message = Message(channel: Channel, id: string)

  datatype Row = Row(pull: Pull, channel: Channel, id: string)

  /** One open pull request as listed, with the messages it had at that moment. */
  datatype Tracked = Tracked(pull: Pull, messages: seq<Message>)

  /** Which pull requests are stored and open, where their messages are, and all that was ever posted. */
  datatype World = World(pulls: map<Pull, bool>, rows: set<Row>, posted: set<Message>)

  /** What the webhook handlers do to the same rows. */
  datatype Change =
    | Added(pull: Pull, message: Message)
    | Closed(pull: Pull)
    | Deleted(pull: Pull)

  /** One effect on the rows or on the messenger, in the order the effects take place. */
  datatype Event =
    | Outside(change: Change)
    | Posted(message: Message)
    | RowMoved(pull: Pull, from: Channel, to: Channel, id: string)
    | RowRemoved(pull: Pull, channel: Channel)

  datatype Repost = Reposted(id: string) | Gone | RepostFailed

  /** How the external calls for one listed pull request turn out; changes fall before its row statement. */
  datatype Outcome = Outcome(repost: Repost, markFails: bool, rowFails: bool, changes: seq<Change>)

  datatype Config = Config(from: Channel, to: Channel, repository: string, dryRun: bool)

  datatype Tally = Tally(scanned: nat, moved: nat, merged: nat, forgotten: nat, errors: nat)

  datatype Verdict = Moved | Merged | Forgotten | Failed

  // ---------------------------------------------------------------- rows

  predicate HasRow(w: World, pull: Pull, channel: Channel) {
    exists r :: r in w.rows && r.pull == pull && r.channel == channel
  }

  function RowsOf(w: World, pull: Pull, channel: Channel): set<Row> {
    set r | r in w.rows && r.pull == pull && r.channel == channel
  }

  /** Retargeting would give the pull request two rows in one channel. */
  predicate Conflicts(w: World, pull: Pull, from: Channel, to: Channel) {
    from != to && HasRow(w, pull, to)
  }

  predicate CanMove(w: World, pull: Pull, from: Channel, to: Channel) {
    HasRow(w, pull, from) && !Conflicts(w, pull, from, to)
  }

  function AfterChange(w: World, change: Change): World {
    match change
    case Added(pull, message) =>
      World(if pull in w.pulls then w.pulls else w.pulls[pull := true],
            if HasRow(w, pull, message.channel) then w.rows else w.rows + {Row(pull, message.channel, message.id)},
            w.posted + {message})
    case Closed(pull) => w.(pulls := if pull in w.pulls then w.pulls[pull := false] else w.pulls)
    case Deleted(pull) => w.(pulls := w.pulls - {pull}, rows := set r | r in w.rows && r.pull != pull)
  }

  function Apply(w: World, event: Event): World {
    match event
    case Outside(change) => AfterChange(w, change)
    case Posted(message) => w.(posted := w.posted + {message})
    case RowMoved(pull, from, to, id) =>
      if CanMove(w, pull, from, to) then w.(rows := w.rows - RowsOf(w, pull, from) + {Row(pull, to, id)}) else w
    case RowRemoved(pull, channel) => w.(rows := w.rows - RowsOf(w, pull, channel))
  }

  function After(w: World, events: seq<Event>): World {
    if events == [] then w else Apply(After(w, events[..|events| - 1]), events[|events| - 1])
  }

  function Outsides(changes: seq<Change>): (events: seq<Event>)
    ensures |events| == |changes|
    ensures forall i :: 0 <= i < |changes| ==> events[i] == Outside(changes[i])
  {
    seq(|changes|, i requires 0 <= i < |changes| => Outside(changes[i]))
  }

  // ---------------------------------------------------------------- one pull request

  function MessageIn(messages: seq<Message>, channel: Channel): Option<Message> {
    if messages == [] then None
    else if messages[0].channel == channel then Some(messages[0])
    else MessageIn(messages[1..], channel)
  }

  /** The pull requests a run looks at. */
  predicate Selected(c: Config, t: Tracked) {
    (c.repository == EVERY_REPOSITORY || t.pull.repository == c.repository) && MessageIn(t.messages, c.from).Some?
  }

  /** Dropping the row: what the other processes did first, then the removal unless the store fails. */
  function Removal(c: Config, t: Tracked, o: Outcome): seq<Event> {
    Outsides(o.changes) + if o.rowFails then [] else [RowRemoved(t.pull, c.from)]
  }

  function MoveEvents(c: Config, t: Tracked, o: Outcome): seq<Event> {
    match o.repost
    case Gone => Removal(c, t, o)
    case RepostFailed => []
    case Reposted(id) =>
      [Posted(Message(c.to, id))] + Outsides(o.changes) +
      if o.rowFails then [] else [RowMoved(t.pull, c.from, c.to, id)]
  }

  /** Everything one listed pull request causes, in order. */
  function EventsFor(c: Config, t: Tracked, o: Outcome): seq<Event> {
    if !Selected(c, t) || c.dryRun then []
    else if c.to == NO_CHANNEL then Removal(c, t, o)
    else if MessageIn(t.messages, c.to).Some? then (if o.markFails then [] else Removal(c, t, o))
    else MoveEvents(c, t, o)
  }

  function RemovalVerdict(c: Config, w: World, t: Tracked, o: Outcome, done: Verdict): Verdict {
    if !o.rowFails && HasRow(After(w, Outsides(o.changes)), t.pull, c.from) then done else Failed
  }

  function MoveVerdict(c: Config, w: World, t: Tracked, o: Outcome): Verdict {
    match o.repost
    case Gone => RemovalVerdict(c, w, t, o, Forgotten)
    case RepostFailed => Failed
    case Reposted(id) =>
      var before := After(w, [Posted(Message(c.to, id))] + Outsides(o.changes));
      if !o.rowFails && CanMove(before, t.pull, c.from, c.to) && !o.markFails then Moved else Failed
  }

  /** The one counter a selected pull request raises, beside the number scanned. */
  function VerdictFor(c: Config, w: World, t: Tracked, o: Outcome): Verdict {
    if c.to == NO_CHANNEL then (if c.dryRun then Forgotten else RemovalVerdict(c, w, t, o, Forgotten))
    else if MessageIn(t.messages, c.to).Some? then
      (if c.dryRun then Merged else if o.markFails then Failed else RemovalVerdict(c, w, t, o, Merged))
    else if c.dryRun then Moved
    else MoveVerdict(c, w, t, o)
  }

  function Raised(tally: Tally, verdict: Verdict): Tally {
    match verdict
    case Moved => tally.(moved := tally.moved + 1)
    case Merged => tally.(merged := tally.merged + 1)
    case Forgotten => tally.(forgotten := tally.forgotten + 1)
    case Failed => tally.(errors := tally.errors + 1)
  }

  // ---------------------------------------------------------------- a whole run

  const NOTHING := Tally(0, 0, 0, 0, 0)

  function RunEvents(c: Config, listed: seq<Tracked>, outcomes: nat -> Outcome): seq<Event> {
    if listed == [] then []
    else
      var n := |listed| - 1;
      RunEvents(c, listed[..n], outcomes) + EventsFor(c, listed[n], outcomes(n))
  }

  function RunTally(c: Config, w: World, listed: seq<Tracked>, outcomes: nat -> Outcome): Tally {
    if listed == [] then NOTHING
    else
      var n := |listed| - 1;
      var before := RunTally(c, w, listed[..n], outcomes);
      if Selected(c, listed[n]) then
        Raised(before.(scanned := before.scanned + 1),
               VerdictFor(c, After(w, RunEvents(c, listed[..n], outcomes)), listed[n], outcomes(n)))
      else before
  }

  /** The listing: each open pull request once, with exactly the messages its rows name. */
  ghost predicate Lists(w: World, listed: seq<Tracked>) {
    && (forall i, j :: 0 <= i < j < |listed| ==> listed[i].pull != listed[j].pull)
    && (forall pull :: (pull in w.pulls && w.pulls[pull]) <==> (exists i :: 0 <= i < |listed| && listed[i].pull == pull))
    && (forall i, m :: 0 <= i < |listed| ==>
        (m in listed[i].messages <==> Row(listed[i].pull, m.channel, m.id) in w.rows))
  }

  // ---------------------------------------------------------------- the use case

  /** The stored message rows; posted is everything the messenger was ever asked to show. */
  class MessageRows {
    var pulls: map<Pull, bool>
    var rows: set<Row>
    ghost var posted: set<Message>

    ghost function State(): World
      reads this
    {
      World(pulls, rows, posted)
    }

    constructor ()
      ensures State() == World(map[], {}, {})
    {
      pulls, rows, posted := map[], {}, {};
    }

    /** The webhook handlers' own transactions. */
    method ChangeOutside(changes: seq<Change>)
      modifies this
      ensures State() == After(old(State()), Outsides(changes))
    {
      var i := 0;
      while i < |changes|
        invariant 0 <= i <= |changes|
        invariant State() == After(old(State()), Outsides(changes)[..i])
      {
        assert Outsides(changes)[..i + 1][..i] == Outsides(changes)[..i];
        match changes[i] {
          case Added(pull, message) =>
            if pull !in pulls {
              pulls := pulls[pull := true];
            }
            if !(exists r :: r in rows && r.pull == pull && r.channel == message.channel) {
              rows := rows + {Row(pull, message.channel, message.id)};
            }
            posted := posted + {message};
          case Closed(pull) =>
            if pull in pulls {
              pulls := pulls[pull := false];
            }
          case Deleted(pull) =>
            pulls := pulls - {pull};
            rows := set r | r in rows && r.pull != pull;
        }
        i := i + 1;
      }
      assert Outsides(changes)[..|changes|] == Outsides(changes);
    }

    ghost method Post(message: Message)
      modifies this`posted
      ensures State() == After(old(State()), [Posted(message)])
    {
      posted := posted + {message};
      assert [Posted(message)][..0] == [];
    }

    /** Retargets the row in one statement; the unique index refuses a second row in a channel. */
    method MoveMessage(pull: Pull, from: Channel, to: Channel, id: string, fails: bool) returns (ok: bool)
      modifies this
      ensures ok <==> !fails && CanMove(old(State()), pull, from, to)
      ensures State() == if fails then old(State()) else Apply(old(State()), RowMoved(pull, from, to, id))
    {
      if fails {
        return false;
      }
      var matching := set r | r in rows && r.pull == pull && r.channel == from;
      HasRowExactly(State(), pull, from);
      if matching == {} {
        return false;
      }
      if from != to && (exists r :: r in rows && r.pull == pull && r.channel == to) {
        return false;
      }
      rows := rows - matching + {Row(pull, to, id)};
      return true;
    }

    method RemoveMessage(pull: Pull, channel: Channel, fails: bool) returns (ok: bool)
      modifies this
      ensures ok <==> !fails && HasRow(old(State()), pull, channel)
      ensures State() == if fails then old(State()) else Apply(old(State()), RowRemoved(pull, channel))
    {
      if fails {
        return false;
      }
      var matching := set r | r in rows && r.pull == pull && r.channel == channel;
      HasRowExactly(State(), pull, channel);
      rows := rows - matching;
      ok := matching != {};
    }
  }

  /** The counters the helpers increment. */
  class RelocateSummary {
    var scanned: nat
    var moved: nat
    var merged: nat
    var forgotten: nat
    var errors: nat

    function Value(): Tally
      reads this
    {
      Tally(scanned, moved, merged, forgotten, errors)
    }

    constructor ()
      ensures Value() == NOTHING
    {
      scanned, moved, merged, forgotten, errors := 0, 0, 0, 0, 0;
    }
  }

  method FindMessage(messages: seq<Message>, channel: Channel) returns (found: Option<Message>)
    ensures found == MessageIn(messages, channel)
  {
    for i := 0 to |messages|
      invariant MessageIn(messages, channel) == MessageIn(messages[i..], channel)
    {
      if messages[i].channel == channel {
        return Some(messages[i]);
      }
    }
    return None;
  }

  class RelocateMessages {
    const store: MessageRows
    const config: Config

    constructor (store: MessageRows, config: Config)
      ensures this.store == store && this.config == config
    {
      this.store, this.config := store, config;
    }

    method Run(listed: seq<Tracked>, outcomes: nat -> Outcome) returns (summary: RelocateSummary)
      modifies store
      ensures fresh(summary)
      ensures summary.Value() == RunTally(config, old(store.State()), listed, outcomes)
      ensures store.State() == After(old(store.State()), RunEvents(config, listed, outcomes))
    {
      hide After, EventsFor, VerdictFor, Selected, Raised, RunEvents, RunTally;
      summary := new RelocateSummary();
      RunNone(config, store.State(), outcomes);
      for i := 0 to |listed|
        invariant fresh(summary)
        invariant summary.Value() == RunTally(config, old(store.State()), listed[..i], outcomes)
        invariant store.State() == After(old(store.State()), RunEvents(config, listed[..i], outcomes))
      {
        RunNext(config, old(store.State()), listed, i, outcomes);
        AfterConcat(old(store.State()), RunEvents(config, listed[..i], outcomes), EventsFor(config, listed[i], outcomes(i)));
        RelocateSelected(listed[i], outcomes(i), summary);
      }
      assert listed[..|listed|] == listed;
    }

    /** The body of the loop over the listing. */
    method RelocateSelected(t: Tracked, o: Outcome, summary: RelocateSummary)
      modifies store, summary
      ensures var before := old(summary.Value());
              summary.Value() ==
              if Selected(config, t) then
                Raised(before.(scanned := before.scanned + 1), VerdictFor(config, old(store.State()), t, o))
              else before
      ensures store.State() == After(old(store.State()), EventsFor(config, t, o))
    {
      hide VerdictFor, Raised;
      if config.repository != EVERY_REPOSITORY && t.pull.repository != config.repository {
        return;
      }
      var source := FindMessage(t.messages, config.from);
      if source.None? {
        return;
      }
      summary.scanned := summary.scanned + 1;
      Relocate(t, source.value, o, summary);
    }

    /** One selected pull request raises exactly one counter and causes exactly its events. */
    method Relocate(t: Tracked, source: Message, o: Outcome, summary: RelocateSummary)
      requires Selected(config, t) && MessageIn(t.messages, config.from) == Some(source)
      modifies store, summary
      ensures summary.Value() == Raised(old(summary.Value()), VerdictFor(config, old(store.State()), t, o))
      ensures store.State() == After(old(store.State()), EventsFor(config, t, o))
    {
      if config.to == NO_CHANNEL {
        Forget(t, source, o, summary);
        return;
      }
      var existing := FindMessage(t.messages, config.to);
      if existing.Some? {
        Merge(t, source, o, summary);
        return;
      }
      Move(t, source, o, summary);
    }

    method Move(t: Tracked, source: Message, o: Outcome, summary: RelocateSummary)
      requires Selected(config, t) && MessageIn(t.messages, config.from) == Some(source)
      requires config.to != NO_CHANNEL && MessageIn(t.messages, config.to).None?
      modifies store, summary
      ensures summary.Value() == Raised(old(summary.Value()), VerdictFor(config, old(store.State()), t, o))
      ensures store.State() == After(old(store.State()), EventsFor(config, t, o))
    {
      if config.dryRun {
        summary.moved := summary.moved + 1;
        return;
      }
      match o.repost {
        case Gone =>
          var ok := ForgetRow(t, source, o, summary);
          if ok {
            summary.forgotten := summary.forgotten + 1;
          }
        case RepostFailed =>
          summary.errors := summary.errors + 1;
        case Reposted(id) =>
          var ok := Retarget(t, id, o);
          if !ok || o.markFails {
            summary.errors := summary.errors + 1;
            return;
          }
          summary.moved := summary.moved + 1;
      }
    }

    /** Posts the message in its new channel, then at once points the row at it. */
    method Retarget(t: Tracked, id: string, o: Outcome) returns (ok: bool)
      requires o.repost == Reposted(id)
      modifies store
      ensures ok <==> MoveVerdict(config, old(store.State()), t, o.(markFails := false)) == Moved
      ensures store.State() == After(old(store.State()), MoveEvents(config, t, o))
    {
      hide Apply, CanMove, After;
      ghost var before := store.State();
      ghost var reposting := [Posted(Message(config.to, id))];
      store.Post(Message(config.to, id));
      AfterConcat(before, reposting, Outsides(o.changes));
      store.ChangeOutside(o.changes);
      AfterOne(before, reposting + Outsides(o.changes), RowMoved(t.pull, config.from, config.to, id));
      ok := store.MoveMessage(t.pull, config.from, config.to, id, o.rowFails);
      assert reposting + Outsides(o.changes) + [] == reposting + Outsides(o.changes);
    }

    method Merge(t: Tracked, source: Message, o: Outcome, summary: RelocateSummary)
      requires Selected(config, t) && MessageIn(t.messages, config.from) == Some(source)
      requires config.to != NO_CHANNEL && MessageIn(t.messages, config.to).Some?
      modifies store, summary
      ensures summary.Value() == Raised(old(summary.Value()), VerdictFor(config, old(store.State()), t, o))
      ensures store.State() == After(old(store.State()), EventsFor(config, t, o))
    {
      if config.dryRun {
        summary.merged := summary.merged + 1;
        return;
      }
      if o.markFails {
        summary.errors := summary.errors + 1;
        return;
      }
      var ok := ForgetRow(t, source, o, summary);
      if !ok {
        return;
      }
      summary.merged := summary.merged + 1;
    }

    method Forget(t: Tracked, source: Message, o: Outcome, summary: RelocateSummary)
      requires Selected(config, t) && MessageIn(t.messages, config.from) == Some(source)
      requires config.to == NO_CHANNEL
      modifies store, summary
      ensures summary.Value() == Raised(old(summary.Value()), VerdictFor(config, old(store.State()), t, o))
      ensures store.State() == After(old(store.State()), EventsFor(config, t, o))
    {
      if config.dryRun {
        summary.forgotten := summary.forgotten + 1;
        return;
      }
      var ok := ForgetRow(t, source, o, summary);
      if !ok {
        return;
      }
      summary.forgotten := summary.forgotten + 1;
    }

    /** Removes the stored row; only a failure is counted here. */
    method ForgetRow(t: Tracked, source: Message, o: Outcome, summary: RelocateSummary) returns (ok: bool)
      requires MessageIn(t.messages, config.from) == Some(source)
      modifies store, summary
      ensures ok <==> RemovalVerdict(config, old(store.State()), t, o, Forgotten) == Forgotten
      ensures summary.Value() == if ok then old(summary.Value()) else old(summary.Value()).(errors := old(summary.errors) + 1)
      ensures store.State() == After(old(store.State()), Removal(config, t, o))
    {
      FoundInChannel(t.messages, config.from);
      store.ChangeOutside(o.changes);
      AfterOne(old(store.State()), Outsides(o.changes), RowRemoved(t.pull, config.from));
      ok := store.RemoveMessage(t.pull, source.channel, o.rowFails);
      if !ok {
        summary.errors := summary.errors + 1;
      }
      assert Outsides(o.changes) + [] == Outsides(o.changes);
    }
  }

  lemma HasRowExactly(w: World, pull: Pull, channel: Channel)
    ensures HasRow(w, pull, channel) <==> RowsOf(w, pull, channel) != {}
  {
    if HasRow(w, pull, channel) {
      var r :| r in w.rows && r.pull == pull && r.channel == channel;
      assert r in RowsOf(w, pull, channel);
    }
  }

  lemma RunNext(c: Config, w: World, listed: seq<Tracked>, i: nat, outcomes: nat -> Outcome)
    requires i < |listed|
    ensures RunEvents(c, listed[..i + 1], outcomes)
            == RunEvents(c, listed[..i], outcomes) + EventsFor(c, listed[i], outcomes(i))
    ensures var before := RunTally(c, w, listed[..i], outcomes);
            RunTally(c, w, listed[..i + 1], outcomes) ==
            if Selected(c, listed[i]) then
              Raised(before.(scanned := before.scanned + 1),
                     VerdictFor(c, After(w, RunEvents(c, listed[..i], outcomes)), listed[i], outcomes(i)))
            else before
  {
    hide After, EventsFor, VerdictFor, Selected, Raised;
    var longer := listed[..i + 1];
    assert longer[..|longer| - 1] == listed[..i];
  }

  lemma RunNone(c: Config, w: World, outcomes: nat -> Outcome)
    ensures RunTally(c, w, [], outcomes) == NOTHING
    ensures RunEvents(c, [], outcomes) == [] && After(w, []) == w
  {
  }

  // ---------------------------------------------------------------- replaying events

  lemma {:induction false} AfterConcat(w: World, first: seq<Event>, second: seq<Event>)
    ensures After(w, first + second) == After(After(w, first), second)
  {
    if second == [] {
      assert first + second == first;
    } else {
      var n := |second| - 1;
      assert (first + second)[..|first + second| - 1] == first + second[..n];
      AfterConcat(w, first, second[..n]);
    }
  }

  lemma AfterOne(w: World, events: seq<Event>, last: Event)
    ensures After(w, events + [last]) == Apply(After(w, events), last)
  {
  }

  lemma {:induction false} FoundInChannel(messages: seq<Message>, channel: Channel)
    ensures match MessageIn(messages, channel)
            case Some(m) => m in messages && m.channel == channel
            case None => forall m :: m in messages ==> m.channel != channel
  {
    if messages != [] {
      FoundInChannel(messages[1..], channel);
      assert messages == [messages[0]] + messages[1..];
    }
  }

  /** A message in the channel is found unless another of that channel is listed before it. */
  lemma {:induction false} FoundIsFirst(messages: seq<Message>, channel: Channel, i: nat)
    requires i < |messages| && messages[i].channel == channel
    requires forall j | 0 <= j < i :: messages[j].channel != channel
    ensures MessageIn(messages, channel) == Some(messages[i])
  {
    if i > 0 {
      FoundIsFirst(messages[1..], channel, i - 1);
    }
  }
}
