/** The stuck digest: which pull request is listed in which channel, and by which schedule. */
module DigestReporter {
  import opened Optional
  import opened Sorting
  import opened RoutingModel
  import opened RoutingResolve
  import opened RoutingTargets
  import opened RoutingProvider

  datatype StuckPullRequest = StuckPullRequest(repository: string, number: int, updatedAt: int)

  datatype Announcement = Announcement(repository: string, number: int, channel: string)

  /** Report takes every enabled repository, ReportSchedule those scheduled at its spec. */
  datatype Pass = FullPass | SchedulePass(spec: string)

  predicate Includes(p: Provider, pass: Pass, repository: string) {
    var digest := DigestFor(p, repository);
    digest.enabled && (pass.FullPass? || digest.schedule == pass.spec)
  }

  datatype ChannelGroup = ChannelGroup(channel: string, mentions: seq<string>, pullRequests: seq<StuckPullRequest>)

  // ---------------------------------------------------------------- what a pass lists

  /** One pull request in one channel, with the mentions it brings. */
  datatype Line = Line(pullRequest: StuckPullRequest, channel: string, mentions: seq<string>)

  predicate Listed(pullRequest: StuckPullRequest, target: Target, announced: set<Announcement>) {
    && target.channel != ""
    && Announcement(pullRequest.repository, pullRequest.number, target.channel) !in announced
  }

  function TargetLines(pullRequest: StuckPullRequest, targets: seq<Target>, announced: set<Announcement>): seq<Line> {
    if targets == [] then []
    else
      var earlier, last := TargetLines(pullRequest, targets[..|targets| - 1], announced), targets[|targets| - 1];
      if Listed(pullRequest, last, announced) then earlier + [Line(pullRequest, last.channel, last.mentions)] else earlier
  }

  function LinesOf(p: Provider, pullRequest: StuckPullRequest, announced: set<Announcement>): seq<Line> {
    TargetLines(pullRequest, BaseTargets(p, pullRequest.repository), announced)
  }

  function PassLines(p: Provider, pass: Pass, stuck: seq<StuckPullRequest>, announced: set<Announcement>): seq<Line> {
    if stuck == [] then []
    else
      var earlier, last := PassLines(p, pass, stuck[..|stuck| - 1], announced), stuck[|stuck| - 1];
      if Includes(p, pass, last.repository) then earlier + LinesOf(p, last, announced) else earlier
  }

  // ---------------------------------------------------------------- grouping

  function LineChannels(lines: seq<Line>): seq<string> {
    seq(|lines|, i requires 0 <= i < |lines| => lines[i].channel)
  }

  function MentionsIn(lines: seq<Line>, channel: string): seq<string> {
    if lines == [] then []
    else
      var earlier, last := MentionsIn(lines[..|lines| - 1], channel), lines[|lines| - 1];
      if last.channel == channel then earlier + last.mentions else earlier
  }

  function PullRequestsIn(lines: seq<Line>, channel: string): seq<StuckPullRequest> {
    if lines == [] then []
    else
      var earlier, last := PullRequestsIn(lines[..|lines| - 1], channel), lines[|lines| - 1];
      if last.channel == channel then earlier + [last.pullRequest] else earlier
  }

  function GroupOf(lines: seq<Line>, channel: string): ChannelGroup {
    ChannelGroup(channel, Dedup(MentionsIn(lines, channel)), PullRequestsIn(lines, channel))
  }

  /** One group per channel in order of first appearance. */
  function GroupsOf(lines: seq<Line>): seq<ChannelGroup> {
    var order := Dedup(LineChannels(lines));
    seq(|order|, i requires 0 <= i < |order| => GroupOf(lines, order[i]))
  }

  /** The grouping state after some lines. */
  ghost predicate Holds(order: seq<string>, byChannel: map<string, ChannelGroup>, lines: seq<Line>) {
    && order == Dedup(LineChannels(lines))
    && (forall channel :: channel in byChannel <==> channel in order)
    && (forall channel | channel in byChannel :: byChannel[channel] == GroupOf(lines, channel))
  }

  lemma {:induction false} NothingInOtherChannel(lines: seq<Line>, channel: string)
    requires channel !in LineChannels(lines)
    ensures MentionsIn(lines, channel) == [] && PullRequestsIn(lines, channel) == []
  {
    if lines != [] {
      assert LineChannels(lines)[|lines| - 1] == lines[|lines| - 1].channel;
      assert LineChannels(lines) == LineChannels(lines[..|lines| - 1]) + [lines[|lines| - 1].channel];
      NothingInOtherChannel(lines[..|lines| - 1], channel);
    }
  }

  lemma LineChannelsNext(lines: seq<Line>, line: Line)
    ensures Dedup(LineChannels(lines + [line]))
            == if line.channel in Dedup(LineChannels(lines)) then Dedup(LineChannels(lines))
               else Dedup(LineChannels(lines)) + [line.channel]
    ensures MentionsIn(lines + [line], line.channel) == MentionsIn(lines, line.channel) + line.mentions
    ensures PullRequestsIn(lines + [line], line.channel) == PullRequestsIn(lines, line.channel) + [line.pullRequest]
    ensures forall channel | channel != line.channel :: GroupOf(lines + [line], channel) == GroupOf(lines, channel)
  {
    assert (lines + [line])[..|lines|] == lines;
    assert LineChannels(lines + [line]) == LineChannels(lines) + [line.channel];
    DedupNext(LineChannels(lines), line.channel);
  }

  /** One target of one pull request joins its channel's group. */
  method AddLine(order: seq<string>, byChannel: map<string, ChannelGroup>, ghost lines: seq<Line>, line: Line)
    returns (order': seq<string>, byChannel': map<string, ChannelGroup>)
    requires Holds(order, byChannel, lines)
    ensures Holds(order', byChannel', lines + [line])
  {
    hide Dedup, MentionsIn, PullRequestsIn;
    LineChannelsNext(lines, line);
    order', byChannel' := order, byChannel;
    var group: ChannelGroup;
    if line.channel in byChannel {
      group := byChannel[line.channel];
    } else {
      DedupNone();
      NothingInOtherChannel(lines, line.channel);
      group := ChannelGroup(line.channel, [], []);
      order' := order + [line.channel];
    }
    var mentions := AddNames(group.mentions, MentionsIn(lines, line.channel), line.mentions);
    byChannel' := byChannel[line.channel := group.(mentions := mentions, pullRequests := group.pullRequests + [line.pullRequest])];
  }

  class Reporter {
    const provider: Provider

    constructor (provider: Provider)
      ensures this.provider == provider
    {
      this.provider := provider;
    }

    /** Lists each stuck pull request of the pass in its repository's base channels, except where it is announced. */
    method GroupByChannel(pass: Pass, stuck: seq<StuckPullRequest>, announced: set<Announcement>)
      returns (groups: seq<ChannelGroup>)
      ensures groups == GroupsOf(PassLines(provider, pass, stuck, announced))
    {
      hide Dedup, MentionsIn, PullRequestsIn, Includes, Holds, BaseTargets;
      var order, byChannel := [], map[];
      assert Holds(order, byChannel, []) by { EmptyHolds(); }
      for i := 0 to |stuck|
        invariant Holds(order, byChannel, PassLines(provider, pass, stuck[..i], announced))
      {
        assert stuck[..i + 1][..i] == stuck[..i];
        if Includes(provider, pass, stuck[i].repository) {
          order, byChannel := AddPullRequest(order, byChannel, PassLines(provider, pass, stuck[..i], announced), stuck[i], announced);
        }
      }
      assert stuck[..|stuck|] == stuck;
      groups := Collect(order, byChannel, PassLines(provider, pass, stuck, announced));
    }

    method AddPullRequest(order: seq<string>, byChannel: map<string, ChannelGroup>, ghost lines: seq<Line>,
                          pullRequest: StuckPullRequest, announced: set<Announcement>)
      returns (order': seq<string>, byChannel': map<string, ChannelGroup>)
      requires Holds(order, byChannel, lines)
      ensures Holds(order', byChannel', lines + LinesOf(provider, pullRequest, announced))
    {
      hide Holds, BaseTargets;
      order', byChannel' := order, byChannel;
      var targets := BaseTargets(provider, pullRequest.repository);
      assert lines + TargetLines(pullRequest, targets[..0], announced) == lines;
      for j := 0 to |targets|
        invariant Holds(order', byChannel', lines + TargetLines(pullRequest, targets[..j], announced))
      {
        var target := targets[j];
        assert targets[..j + 1][..j] == targets[..j];
        ghost var before := lines + TargetLines(pullRequest, targets[..j], announced);
        if target.channel == "" {
          continue;
        }
        if Announcement(pullRequest.repository, pullRequest.number, target.channel) in announced {
          continue;
        }
        var line := Line(pullRequest, target.channel, target.mentions);
        assert before + [line] == lines + TargetLines(pullRequest, targets[..j + 1], announced);
        order', byChannel' := AddLine(order', byChannel', before, line);
      }
      assert targets[..|targets|] == targets;
    }

    method Collect(order: seq<string>, byChannel: map<string, ChannelGroup>, ghost lines: seq<Line>)
      returns (groups: seq<ChannelGroup>)
      requires Holds(order, byChannel, lines)
      ensures groups == GroupsOf(lines)
    {
      hide Dedup, GroupOf;
      groups := [];
      for i := 0 to |order|
        invariant |groups| == i
        invariant forall j | 0 <= j < i :: groups[j] == GroupOf(lines, order[j])
      {
        groups := groups + [byChannel[order[i]]];
      }
      assert groups == GroupsOf(lines);
    }
  }

  lemma EmptyHolds()
    ensures Holds([], map[], [])
  {
  }

  lemma {:induction false} GroupMembers(lines: seq<Line>, channel: string, pullRequest: StuckPullRequest)
    ensures pullRequest in PullRequestsIn(lines, channel)
            <==> exists line :: line in lines && line.channel == channel && line.pullRequest == pullRequest
  {
    if lines != [] {
      assert lines == lines[..|lines| - 1] + [lines[|lines| - 1]];
      GroupMembers(lines[..|lines| - 1], channel, pullRequest);
    }
  }

  /** A pull request is in a channel's group exactly when a line of the pass says so, and every channel has one group. */
  lemma GroupsHoldTheLines(lines: seq<Line>, channel: string, pullRequest: StuckPullRequest)
    ensures (exists group :: group in GroupsOf(lines) && group.channel == channel && pullRequest in group.pullRequests)
            <==> exists line :: line in lines && line.channel == channel && line.pullRequest == pullRequest
    ensures forall i, j | 0 <= i < j < |GroupsOf(lines)| :: GroupsOf(lines)[i].channel != GroupsOf(lines)[j].channel
  {
    hide PullRequestsIn, MentionsIn;
    GroupMembers(lines, channel, pullRequest);
    var groups, order := GroupsOf(lines), Dedup(LineChannels(lines));
    if line :| line in lines && line.channel == channel && line.pullRequest == pullRequest {
      var k :| 0 <= k < |lines| && lines[k] == line;
      assert LineChannels(lines)[k] == channel;
      assert channel in order;
      var i :| 0 <= i < |order| && order[i] == channel;
      assert groups[i] in groups && groups[i] == GroupOf(lines, channel);
    }
  }

  lemma {:induction false} TargetLineListed(pullRequest: StuckPullRequest, targets: seq<Target>,
                                            announced: set<Announcement>,
                                            line: Line)
    ensures line in TargetLines(pullRequest, targets, announced)
            <==> exists target :: target in targets && Listed(pullRequest, target, announced)
                                  && line == Line(pullRequest, target.channel, target.mentions)
  {
    if targets != [] {
      var init, last := targets[..|targets| - 1], targets[|targets| - 1];
      assert targets == init + [last];
      TargetLineListed(pullRequest, init, announced, line);
    }
  }

  /** A pass lists a stuck pull request in exactly its included repository's base channels, the announced and the empty left out. */
  lemma {:induction false} LineListed(p: Provider, pass: Pass, stuck: seq<StuckPullRequest>,
                                      announced: set<Announcement>, line: Line)
    ensures line in PassLines(p, pass, stuck, announced)
            <==> && line.pullRequest in stuck && Includes(p, pass, line.pullRequest.repository)
                 && exists target :: target in BaseTargets(p, line.pullRequest.repository)
                                     && Listed(line.pullRequest, target, announced)
                                     && line == Line(line.pullRequest, target.channel, target.mentions)
  {
    hide Includes, BaseTargets, Listed, TargetLines;
    if stuck != [] {
      var init, last := stuck[..|stuck| - 1], stuck[|stuck| - 1];
      assert stuck == init + [last];
      LineListed(p, pass, init, announced, line);
      TargetLineListed(last, BaseTargets(p, last.repository), announced, line);
    }
  }

  /**
   In plain terms: the pull request is stuck, its repository's digest is enabled and, in a schedule's pass, scheduled
   then; the channel is one of the repository's base channels, not empty, and not announced to with it before.
   */
  lemma PassLists(p: Provider, pass: Pass, stuck: seq<StuckPullRequest>, announced: set<Announcement>, line: Line)
    ensures line in PassLines(p, pass, stuck, announced)
            <==> && line.pullRequest in stuck
                 && DigestFor(p, line.pullRequest.repository).enabled
                 && (pass.SchedulePass? ==> DigestFor(p, line.pullRequest.repository).schedule == pass.spec)
                 && line.channel != ""
                 && Announcement(line.pullRequest.repository, line.pullRequest.number, line.channel) !in announced
                 && Target(line.channel, line.mentions) in BaseTargets(p, line.pullRequest.repository)
  {
    hide BaseTargets, DigestFor, PassLines;
    LineListed(p, pass, stuck, announced, line);
  }

  lemma {:induction false} MentionsFrom(lines: seq<Line>, channel: string, mention: string)
    ensures mention in MentionsIn(lines, channel)
            <==> exists line :: line in lines && line.channel == channel && mention in line.mentions
  {
    if lines != [] {
      assert lines == lines[..|lines| - 1] + [lines[|lines| - 1]];
      MentionsFrom(lines[..|lines| - 1], channel, mention);
    }
  }

  /** A group mentions exactly those its channel's lines mention, each once. */
  lemma GroupMentions(lines: seq<Line>, group: ChannelGroup, mention: string)
    requires group in GroupsOf(lines)
    ensures Distinct(group.mentions)
    ensures mention in group.mentions
            <==> exists line :: line in lines && line.channel == group.channel && mention in line.mentions
  {
    hide MentionsIn, PullRequestsIn;
    MentionsFrom(lines, group.channel, mention);
  }

  /** A group lists its channel's pull requests in the order of the lines: those of earlier lines come first. */
  lemma {:induction false} GroupInOrder(first: seq<Line>, second: seq<Line>, channel: string)
    ensures PullRequestsIn(first + second, channel) == PullRequestsIn(first, channel) + PullRequestsIn(second, channel)
    ensures |first| == 1 ==>
      PullRequestsIn(first, channel) == if first[0].channel == channel then [first[0].pullRequest] else []
  {
    if second == [] {
      assert first + second == first;
    } else {
      var init := second[..|second| - 1];
      assert (first + second)[..|first + second| - 1] == first + init;
      GroupInOrder(first, init, channel);
    }
  }

  lemma {:induction false} MentionsJoined(first: seq<Line>, second: seq<Line>, channel: string)
    ensures MentionsIn(first + second, channel) == MentionsIn(first, channel) + MentionsIn(second, channel)
  {
    if second == [] {
      assert first + second == first;
    } else {
      var init := second[..|second| - 1];
      assert (first + second)[..|first + second| - 1] == first + init;
      MentionsJoined(first, init, channel);
    }
  }

  /** Further lines only add, at the end: groups behind the groups, mentions and pull requests behind those of a group. */
  lemma LaterLinesAppend(first: seq<Line>, second: seq<Line>, i: nat)
    requires i < |GroupsOf(first)|
    ensures i < |GroupsOf(first + second)|
    ensures var before, after := GroupsOf(first)[i], GroupsOf(first + second)[i];
      && before.channel == after.channel && before.mentions <= after.mentions && before.pullRequests <= after.pullRequests
  {
    hide Dedup, MentionsIn, PullRequestsIn;
    assert LineChannels(first + second) == LineChannels(first) + LineChannels(second);
    DedupGrows(LineChannels(first), LineChannels(second));
    var channel := Dedup(LineChannels(first))[i];
    MentionsJoined(first, second, channel);
    DedupGrows(MentionsIn(first, channel), MentionsIn(second, channel));
    GroupInOrder(first, second, channel);
  }

  /** The lines of a pass follow the stuck pull requests. */
  lemma {:induction false} LinesFollowStuck(p: Provider, pass: Pass, stuck: seq<StuckPullRequest>,
                                            more: seq<StuckPullRequest>, announced: set<Announcement>)
    ensures PassLines(p, pass, stuck + more, announced)
            == PassLines(p, pass, stuck, announced) + PassLines(p, pass, more, announced)
  {
    hide Includes, LinesOf;
    if more == [] {
      assert stuck + more == stuck;
    } else {
      var init := more[..|more| - 1];
      assert (stuck + more)[..|stuck + more| - 1] == stuck + init;
      LinesFollowStuck(p, pass, stuck, init, announced);
    }
  }

  /** The lines of one pull request follow its base channels. */
  lemma {:induction false} LinesFollowTargets(pullRequest: StuckPullRequest, targets: seq<Target>,
                                              more: seq<Target>, announced: set<Announcement>)
    ensures TargetLines(pullRequest, targets + more, announced)
            == TargetLines(pullRequest, targets, announced) + TargetLines(pullRequest, more, announced)
  {
    hide Listed;
    if more == [] {
      assert targets + more == targets;
    } else {
      var init := more[..|more| - 1];
      assert (targets + more)[..|targets + more| - 1] == targets + init;
      LinesFollowTargets(pullRequest, targets, init, announced);
    }
  }

  // ---------------------------------------------------------------- the schedules partition the full pass

  /** What all the schedule passes list together. */
  function AllPasses(p: Provider, specs: seq<string>, stuck: seq<StuckPullRequest>,
                     announced: set<Announcement>): multiset<Line> {
    if specs == [] then multiset{}
    else
      AllPasses(p, specs[..|specs| - 1], stuck, announced)
      + multiset(PassLines(p, SchedulePass(specs[|specs| - 1]), stuck, announced))
  }

  /** Only a mapped repository has a channel to be listed in. */
  lemma LinesNeedMapping(p: Provider, pullRequest: StuckPullRequest, announced: set<Announcement>)
    requires Get(p, pullRequest.repository).None?
    ensures LinesOf(p, pullRequest, announced) == []
  {
    var targets := BaseTargets(p, pullRequest.repository);
    assert |targets| == 1 && targets[0].channel == "";
    assert targets == [targets[0]] && targets[..0] == [];
    assert TargetLines(pullRequest, [], announced) == [];
    assert TargetLines(pullRequest, targets, announced) == TargetLines(pullRequest, targets[..0], announced);
  }

  /** Over distinct specs a pull request is listed by the one pass of its schedule. */
  lemma {:induction false} OnePassPerPullRequest(p: Provider, specs: seq<string>, stuck: seq<StuckPullRequest>,
                                                 last: StuckPullRequest,
                                                 announced: set<Announcement>)
    requires Distinct(specs)
    ensures var digest := DigestFor(p, last.repository);
            AllPasses(p, specs, stuck + [last], announced)
            == AllPasses(p, specs, stuck, announced)
               + (if digest.enabled && digest.schedule in specs then multiset(LinesOf(p, last, announced)) else multiset{})
    decreases |specs|
  {
    hide LinesOf, DigestFor;
    if specs != [] {
      var init, spec := specs[..|specs| - 1], specs[|specs| - 1];
      assert specs == init + [spec];
      OnePassPerPullRequest(p, init, stuck, last, announced);
      PassWithLast(p, SchedulePass(spec), stuck, last, announced);
    }
  }

  lemma PassWithLast(p: Provider, pass: Pass, stuck: seq<StuckPullRequest>, last: StuckPullRequest,
                     announced: set<Announcement>)
    ensures multiset(PassLines(p, pass, stuck + [last], announced))
            == multiset(PassLines(p, pass, stuck, announced))
               + (if Includes(p, pass, last.repository) then multiset(LinesOf(p, last, announced)) else multiset{})
  {
  }

  /**
   Running every registered schedule once lists exactly what the full pass lists, each pair of pull
   request and channel as often: the announced pairs and nothing else are left out by both.
   */
  lemma {:induction false} SchedulesPartitionFullPass(p: Provider, stuck: seq<StuckPullRequest>,
                                                      announced: set<Announcement>)
    ensures AllPasses(p, SortedNames(ScheduleSet(p)), stuck, announced) == multiset(PassLines(p, FullPass, stuck, announced))
    decreases |stuck|
  {
    hide SortedNames, LinesOf, DigestFor, ScheduleSet, Get;
    var specs := SortedNames(ScheduleSet(p));
    if stuck == [] {
      NoStuckNoLines(p, specs, announced);
    } else {
      var init, last := stuck[..|stuck| - 1], stuck[|stuck| - 1];
      assert stuck == init + [last];
      SchedulesPartitionFullPass(p, init, announced);
      OnePassPerPullRequest(p, specs, init, last, announced);
      PassWithLast(p, FullPass, init, last, announced);
      if Get(p, last.repository).None? {
        LinesNeedMapping(p, last, announced);
      } else if DigestFor(p, last.repository).enabled {
        ScheduleIsListed(p, last.repository);
      }
    }
  }

  lemma {:induction false} NoStuckNoLines(p: Provider, specs: seq<string>, announced: set<Announcement>)
    ensures AllPasses(p, specs, [], announced) == multiset{}
  {
    if specs != [] {
      NoStuckNoLines(p, specs[..|specs| - 1], announced);
    }
  }
}
