/** The channels a pull request is announced in, and the channels a repository can ever reach. */
module RoutingTargets {
  import opened Optional
  import opened Sorting
  import opened RoutingModel
  import opened RoutingResolve
  import opened RoutingPaths

  // ---------------------------------------------------------------- what the matched rules contribute

  /** One channel and its mentions; absent mentions inherit the primary ones. */
  datatype Contribution = Contribution(channel: string, mentions: seq<string>, present: bool)

  function OrPrimary(channel: string, primary: string): string {
    if channel == "" then primary else channel
  }

  function SpecContributions(specs: seq<ChannelSpec>, primary: string): seq<Contribution> {
    if specs == [] then []
    else
      var last := specs[|specs| - 1];
      SpecContributions(specs[..|specs| - 1], primary)
      + [Contribution(OrPrimary(last.channel, primary), SpecMentions(last), true)]
  }

  function RuleContributions(rule: PathRule, primary: string): seq<Contribution> {
    if rule.channels != [] then SpecContributions(rule.channels, primary)
    else [Contribution(OrPrimary(rule.channel, primary), rule.mentions, rule.mentionsPresent)]
  }

  function Contributions(rules: seq<PathRule>, primary: string): seq<Contribution> {
    if rules == [] then []
    else Contributions(rules[..|rules| - 1], primary) + RuleContributions(rules[|rules| - 1], primary)
  }

  // ---------------------------------------------------------------- grouping

  /** The names at their first occurrence. */
  function Dedup(names: seq<string>): (r: seq<string>)
    ensures Distinct(r)
    ensures forall name :: name in r <==> name in names
  {
    if names == [] then []
    else
      var earlier, last := Dedup(names[..|names| - 1]), names[|names| - 1];
      assert names == names[..|names| - 1] + [last];
      if last in earlier then earlier else earlier + [last]
  }

  function ChannelsOf(contributions: seq<Contribution>): seq<string> {
    seq(|contributions|, i requires 0 <= i < |contributions| => contributions[i].channel)
  }

  function OfChannel(contributions: seq<Contribution>, channel: string): seq<Contribution> {
    if contributions == [] then []
    else
      var earlier, last := OfChannel(contributions[..|contributions| - 1], channel), contributions[|contributions| - 1];
      if last.channel == channel then earlier + [last] else earlier
  }

  function Effective(contributions: seq<Contribution>, baseMentions: seq<string>): seq<string> {
    if contributions == [] then []
    else
      var last := contributions[|contributions| - 1];
      Effective(contributions[..|contributions| - 1], baseMentions) + (if last.present then last.mentions else baseMentions)
  }

  /** One target per channel in order of first appearance, its mentions the union of the contributions. */
  function Grouped(contributions: seq<Contribution>, baseMentions: seq<string>): seq<Target> {
    var order := Dedup(ChannelsOf(contributions));
    seq(|order|, i requires 0 <= i < |order| =>
      Target(order[i], Dedup(Effective(OfChannel(contributions, order[i]), baseMentions))))
  }

  /** Where a pull request touching the files is announced. */
  function TargetsFor(star: Tier, repo: Tier, files: seq<string>): seq<Target> {
    var base := ResolveBaseTargets(star, repo);
    if repo.None? || repo.value.paths == [] then base
    else
      var winners := Matched(repo.value.paths, files);
      if winners == [] then base
      else Grouped(Contributions(winners, base[0].channel), base[0].mentions)
  }

  // ---------------------------------------------------------------- the loops

  lemma DedupNext(names: seq<string>, name: string)
    ensures Dedup(names + [name]) == if name in Dedup(names) then Dedup(names) else Dedup(names) + [name]
  {
  }

  lemma DedupNone()
    ensures Dedup([]) == []
  {
  }

  /** The inner add of unionContributions; out holds the names added before. */
  method AddNames(out: seq<string>, ghost before: seq<string>, names: seq<string>) returns (out': seq<string>)
    requires out == Dedup(before)
    ensures out' == Dedup(before + names)
  {
    hide Dedup;
    out' := out;
    var seen := set m | m in out;
    assert before + names[..0] == before;
    for j := 0 to |names|
      invariant out' == Dedup(before + names[..j])
      invariant seen == set m | m in out'
    {
      DedupNext(before + names[..j], names[j]);
      assert before + names[..j + 1] == before + names[..j] + [names[j]];
      if names[j] !in seen {
        seen := seen + {names[j]};
        out' := out' + [names[j]];
      }
    }
    assert names[..|names|] == names;
  }

  method UnionContributions(contributions: seq<Contribution>, baseMentions: seq<string>) returns (out: seq<string>)
    ensures out == Dedup(Effective(contributions, baseMentions))
  {
    hide Dedup;
    DedupNone();
    out := [];
    for i := 0 to |contributions|
      invariant out == Dedup(Effective(contributions[..i], baseMentions))
    {
      assert contributions[..i + 1][..i] == contributions[..i];
      var mentions := if contributions[i].present then contributions[i].mentions else baseMentions;
      out := AddNames(out, Effective(contributions[..i], baseMentions), mentions);
    }
    assert contributions[..|contributions|] == contributions;
  }

  function Of(byChannel: map<string, seq<Contribution>>, channel: string): seq<Contribution> {
    if channel in byChannel then byChannel[channel] else []
  }

  /** The order list and the map hold exactly the contributions so far. */
  ghost predicate Groups(order: seq<string>, byChannel: map<string, seq<Contribution>>,
                         contributions: seq<Contribution>) {
    && order == Dedup(ChannelsOf(contributions))
    && (forall channel :: channel in byChannel <==> channel in order)
    && forall channel :: Of(byChannel, channel) == OfChannel(contributions, channel)
  }

  lemma GroupsNext(order: seq<string>, byChannel: map<string, seq<Contribution>>, contributions: seq<Contribution>,
                   c: Contribution)
    requires Groups(order, byChannel, contributions)
    ensures Groups(if c.channel in byChannel then order else order + [c.channel],
                   byChannel[c.channel := Of(byChannel, c.channel) + [c]], contributions + [c])
  {
    hide Dedup;
    DedupNext(ChannelsOf(contributions), c.channel);
    var all := contributions + [c];
    assert ChannelsOf(all) == ChannelsOf(contributions) + [c.channel];
    forall channel
      ensures OfChannel(all, channel) == OfChannel(contributions, channel) + if c.channel == channel then [c] else []
    {
      assert all[..|all| - 1] == contributions;
    }
  }

  /** The add closure of TargetsForFiles. */
  method Add(order: seq<string>, byChannel: map<string, seq<Contribution>>, ghost contributions: seq<Contribution>,
             c: Contribution)
    returns (order': seq<string>, byChannel': map<string, seq<Contribution>>)
    requires Groups(order, byChannel, contributions)
    ensures Groups(order', byChannel', contributions + [c])
  {
    GroupsNext(order, byChannel, contributions, c);
    order' := if c.channel in byChannel then order else order + [c.channel];
    byChannel' := byChannel[c.channel := Of(byChannel, c.channel) + [c]];
  }

  /** What one matched rule adds. */
  method AddRule(order: seq<string>, byChannel: map<string, seq<Contribution>>, ghost contributions: seq<Contribution>,
                 rule: PathRule, primary: string)
    returns (order': seq<string>, byChannel': map<string, seq<Contribution>>)
    requires Groups(order, byChannel, contributions)
    ensures Groups(order', byChannel', contributions + RuleContributions(rule, primary))
  {
    hide Groups;
    if rule.channels == [] {
      order', byChannel' := Add(order, byChannel, contributions,
        Contribution(OrPrimary(rule.channel, primary), rule.mentions, rule.mentionsPresent));
      return;
    }
    order', byChannel' := order, byChannel;
    assert contributions + SpecContributions(rule.channels[..0], primary) == contributions;
    for j := 0 to |rule.channels|
      invariant Groups(order', byChannel', contributions + SpecContributions(rule.channels[..j], primary))
    {
      var spec := rule.channels[j];
      var c := Contribution(OrPrimary(spec.channel, primary), SpecMentions(spec), true);
      ghost var before := contributions + SpecContributions(rule.channels[..j], primary);
      order', byChannel' := Add(order', byChannel', before, c);
      assert rule.channels[..j + 1][..j] == rule.channels[..j];
      assert before + [c] == contributions + SpecContributions(rule.channels[..j + 1], primary);
    }
    assert rule.channels[..|rule.channels|] == rule.channels;
  }

  method AddRules(winners: seq<PathRule>, primary: string)
    returns (order: seq<string>, byChannel: map<string, seq<Contribution>>)
    ensures Groups(order, byChannel, Contributions(winners, primary))
  {
    order, byChannel := [], map[];
    for i := 0 to |winners|
      invariant Groups(order, byChannel, Contributions(winners[..i], primary))
    {
      assert winners[..i + 1][..i] == winners[..i];
      order, byChannel := AddRule(order, byChannel, Contributions(winners[..i], primary), winners[i], primary);
    }
    assert winners[..|winners|] == winners;
  }

  method TargetsForFiles(star: Tier, repo: Tier, files: seq<string>) returns (targets: seq<Target>)
    ensures targets == TargetsFor(star, repo, files)
  {
    var base := ResolveBaseTargets(star, repo);
    if repo.None? || repo.value.paths == [] {
      return base;
    }
    var winners := MatchedRules(repo.value.paths, files);
    if winners == [] {
      return base;
    }
    var order, byChannel := AddRules(winners, base[0].channel);
    targets := Render(order, byChannel, Contributions(winners, base[0].channel), base[0].mentions);
  }

  method Render(order: seq<string>, byChannel: map<string, seq<Contribution>>, ghost contributions: seq<Contribution>,
                baseMentions: seq<string>)
    returns (targets: seq<Target>)
    requires Groups(order, byChannel, contributions)
    ensures targets == Grouped(contributions, baseMentions)
  {
    hide Dedup, OfChannel;
    targets := [];
    for i := 0 to |order|
      invariant |targets| == i
      invariant forall j | 0 <= j < i ::
        targets[j] == Target(order[j], Dedup(Effective(OfChannel(contributions, order[j]), baseMentions)))
    {
      var mentions := UnionContributions(Of(byChannel, order[i]), baseMentions);
      targets := targets + [Target(order[i], mentions)];
    }
    assert targets == Grouped(contributions, baseMentions);
  }

  // ---------------------------------------------------------------- what the targets depend on

  /** The targets depend only on the set of normalized files. */
  lemma TargetsBySet(star: Tier, repo: Tier, files: seq<string>, others: seq<string>)
    requires NormalizedFiles(files) == NormalizedFiles(others)
    ensures TargetsFor(star, repo, files) == TargetsFor(star, repo, others)
  {
    hide Grouped, Contributions;
    if repo.Some? {
      MatchedBySet(repo.value.paths, files, others, |repo.value.paths|);
    }
  }

  /** When a rule matches, no channel is announced to twice. */
  lemma MatchedChannelsDistinct(star: Tier, repo: Tier, files: seq<string>)
    requires repo.Some? && Matched(repo.value.paths, files) != []
    ensures var targets := TargetsFor(star, repo, files);
            forall i, j | 0 <= i < j < |targets| :: targets[i].channel != targets[j].channel
  {
  }

  // ---------------------------------------------------------------- coverage

  /** The channels the path rules name, in either form. */
  function PathChannelSet(rules: seq<PathRule>): set<string> {
    (set rule | rule in rules && rule.channel != "" :: rule.channel)
    + (set rule, spec | rule in rules && spec in rule.channels && spec.channel != "" :: spec.channel)
  }

  method ListChannels(specs: seq<ChannelSpec>) returns (seen: set<string>)
    ensures seen == set spec | spec in specs && spec.channel != "" :: spec.channel
  {
    seen := {};
    for j := 0 to |specs|
      invariant seen == set spec | spec in specs[..j] && spec.channel != "" :: spec.channel
    {
      assert specs[..j + 1] == specs[..j] + [specs[j]];
      if specs[j].channel != "" {
        seen := seen + {specs[j].channel};
      }
    }
    assert specs[..|specs|] == specs;
  }

  method PathChannels(rules: seq<PathRule>) returns (channels: seq<string>)
    ensures channels == SortedNames(PathChannelSet(rules))
  {
    var seen := {};
    for i := 0 to |rules|
      invariant seen == PathChannelSet(rules[..i])
    {
      var rule := rules[i];
      assert rules[..i + 1] == rules[..i] + [rule];
      if rule.channel != "" {
        seen := seen + {rule.channel};
      }
      var inList := ListChannels(rule.channels);
      seen := seen + inList;
      RuleChannelsAdded(rules[..i], rule);
    }
    assert rules[..|rules|] == rules;
    channels := SortedNames(seen);
  }

  lemma RuleChannelsAdded(rules: seq<PathRule>, rule: PathRule)
    ensures PathChannelSet(rules + [rule])
            == PathChannelSet(rules)
               + (if rule.channel != "" then {rule.channel} else {})
               + (set spec | spec in rule.channels && spec.channel != "" :: spec.channel)
  {
  }

  /** Channels beyond the primary one: further base targets and every path channel. */
  function AdditionalSet(star: Tier, repo: Tier): set<string> {
    (set target | target in ResolveBaseTargets(star, repo)[1..] && target.channel != "" :: target.channel)
    + (if repo.Some? then PathChannelSet(repo.value.paths) else {})
  }

  function AdditionalChannels(star: Tier, repo: Tier): seq<string> {
    SortedNames(AdditionalSet(star, repo))
  }

  method ChannelsAmong(targets: seq<Target>) returns (seen: set<string>)
    ensures seen == set target | target in targets && target.channel != "" :: target.channel
  {
    seen := {};
    for i := 0 to |targets|
      invariant seen == set target | target in targets[..i] && target.channel != "" :: target.channel
    {
      assert targets[..i + 1] == targets[..i] + [targets[i]];
      if targets[i].channel != "" {
        seen := seen + {targets[i].channel};
      }
    }
    assert targets[..|targets|] == targets;
  }

  method FindAdditionalChannels(star: Tier, repo: Tier) returns (out: seq<string>)
    ensures out == AdditionalChannels(star, repo)
  {
    hide SortedNames, PathChannelSet, ResolveBaseTargets;
    var seen := ChannelsAmong(ResolveBaseTargets(star, repo)[1..]);
    if repo.Some? {
      var channels := PathChannels(repo.value.paths);
      seen := seen + set channel | channel in channels;
      assert (set channel | channel in channels) == PathChannelSet(repo.value.paths);
    }
    out := SortedNames(seen);
  }

  /** Each path rule uses one channel form. */
  ghost predicate OneForm(rules: seq<PathRule>) {
    forall rule | rule in rules :: rule.channel == "" || rule.channels == []
  }

  ghost predicate IsTarget(targets: seq<Target>, channel: string) {
    exists target :: target in targets && target.channel == channel
  }

  /** Some list of changed files sends a pull request to the channel. */
  ghost predicate Reachable(star: Tier, repo: Tier, channel: string) {
    || IsTarget(ResolveBaseTargets(star, repo), channel)
    || exists files :: IsTarget(TargetsFor(star, repo, files), channel)
  }

  lemma {:induction false} SpecContributed(specs: seq<ChannelSpec>, primary: string, channel: string)
    ensures (exists c :: c in SpecContributions(specs, primary) && c.channel == channel)
            <==> exists spec :: spec in specs && OrPrimary(spec.channel, primary) == channel
  {
    if specs != [] {
      var init, last := specs[..|specs| - 1], specs[|specs| - 1];
      assert specs == init + [last];
      SpecContributed(init, primary, channel);
      var c := Contribution(OrPrimary(last.channel, primary), SpecMentions(last), true);
      assert c in SpecContributions(specs, primary);
      forall d | d in SpecContributions(init, primary) ensures d in SpecContributions(specs, primary) {
      }
    }
  }

  /** The rule names the channel, or leaves it to the primary one. */
  ghost predicate RuleReaches(rule: PathRule, primary: string, channel: string) {
    if rule.channels != [] then exists spec :: spec in rule.channels && OrPrimary(spec.channel, primary) == channel
    else OrPrimary(rule.channel, primary) == channel
  }

  lemma RuleContributed(rule: PathRule, primary: string, channel: string)
    ensures (exists c :: c in RuleContributions(rule, primary) && c.channel == channel) <==> RuleReaches(rule, primary, channel)
  {
    if rule.channels != [] {
      SpecContributed(rule.channels, primary, channel);
    } else {
      var c := Contribution(OrPrimary(rule.channel, primary), rule.mentions, rule.mentionsPresent);
      assert c in RuleContributions(rule, primary);
    }
  }

  lemma {:induction false} Contributed(rules: seq<PathRule>, primary: string, channel: string)
    ensures (exists c :: c in Contributions(rules, primary) && c.channel == channel)
            <==> exists rule :: rule in rules && RuleReaches(rule, primary, channel)
  {
    hide RuleContributions, RuleReaches;
    if rules != [] {
      var init, last := rules[..|rules| - 1], rules[|rules| - 1];
      assert rules == init + [last];
      Contributed(init, primary, channel);
      RuleContributed(last, primary, channel);
      assert Contributions(rules, primary) == Contributions(init, primary) + RuleContributions(last, primary);
    }
  }

  /** Grouping keeps exactly the contributed channels. */
  lemma GroupedChannels(contributions: seq<Contribution>, baseMentions: seq<string>, channel: string)
    ensures IsTarget(Grouped(contributions, baseMentions), channel)
            <==> exists c :: c in contributions && c.channel == channel
  {
    hide Effective, OfChannel;
    var targets, order := Grouped(contributions, baseMentions), Dedup(ChannelsOf(contributions));
    if target :| target in targets && target.channel == channel {
      var i :| 0 <= i < |targets| && targets[i] == target;
      assert order[i] in order;
      var j :| 0 <= j < |contributions| && ChannelsOf(contributions)[j] == channel;
      assert contributions[j] in contributions;
    }
    if c :| c in contributions && c.channel == channel {
      var j :| 0 <= j < |contributions| && contributions[j] == c;
      assert ChannelsOf(contributions)[j] == channel;
      assert channel in order;
      var i :| 0 <= i < |order| && order[i] == channel;
      assert targets[i] in targets && targets[i].channel == channel;
    }
  }

  /** A file directly inside a directory is won by that directory's rule. */
  lemma OwnFileWins(rules: seq<PathRule>, i: nat)
    requires DistinctDirs(rules) && i < |rules|
    ensures IsChosen(rules, ["/" + rules[i].dir + "/f"], i)
  {
    var raw, file := "/" + rules[i].dir + "/f", rules[i].dir + "/f";
    assert TrimLeft(raw) == raw;
    assert raw[|raw| - 1] == 'f';
    assert TrimRight(raw) == raw;
    assert raw[1..] == file;
    assert NormalizeChangedFile(raw) == file;
    assert file[..|rules[i].dir| + 1] == rules[i].dir + "/";
    forall j | 0 <= j < |rules| && j != i && FileUnder(file, rules[j].dir) ensures |rules[j].dir| < |rules[i].dir| {
      EnclosingDirsNest(file, rules[j].dir, rules[i].dir);
      assert file[|rules[j].dir|] == '/';
    }
    assert IsUniqueLongest(AllRules, rules, file, i);
    WinnerIsUniqueLongest(AllRules, rules, file, i);
    assert raw in [raw];
  }

  /** Whatever a rule names, some files make it a target. */
  lemma RuleIsReachable(star: Tier, repo: Tier, i: nat, channel: string)
    requires repo.Some? && DistinctDirs(repo.value.paths) && i < |repo.value.paths|
    requires RuleReaches(repo.value.paths[i], ResolveBaseTargets(star, repo)[0].channel, channel)
    ensures Reachable(star, repo, channel)
  {
    var rules, base := repo.value.paths, ResolveBaseTargets(star, repo);
    var files := ["/" + rules[i].dir + "/f"];
    OwnFileWins(rules, i);
    MatchedAmongRules(rules, files, |rules|, rules[i]);
    var winners := Matched(rules, files);
    assert rules[i] in winners;
    hide Grouped, Contributions, Matched, RuleReaches, ResolveBaseTargets;
    Contributed(winners, base[0].channel, channel);
    GroupedChannels(Contributions(winners, base[0].channel), base[0].mentions, channel);
    assert IsTarget(TargetsFor(star, repo, files), channel);
  }

  /** Nothing but base targets and matched rules' channels is ever a target. */
  lemma TargetFromBaseOrRule(star: Tier, repo: Tier, files: seq<string>, channel: string)
    requires IsTarget(TargetsFor(star, repo, files), channel)
    ensures || IsTarget(ResolveBaseTargets(star, repo), channel)
            || (repo.Some?
                && exists rule ::
                     rule in repo.value.paths && RuleReaches(rule, ResolveBaseTargets(star, repo)[0].channel, channel))
  {
    hide Grouped, Contributions, Matched, RuleReaches, ResolveBaseTargets;
    var base := ResolveBaseTargets(star, repo);
    if repo.Some? && repo.value.paths != [] {
      var winners := Matched(repo.value.paths, files);
      if winners != [] {
        GroupedChannels(Contributions(winners, base[0].channel), base[0].mentions, channel);
        Contributed(winners, base[0].channel, channel);
        var rule :| rule in winners && RuleReaches(rule, base[0].channel, channel);
        MatchedFromRules(repo.value.paths, files, rule);
      }
    }
  }

  lemma MatchedFromRules(rules: seq<PathRule>, files: seq<string>, rule: PathRule)
    requires rule in Matched(rules, files)
    ensures rule in rules
  {
    MatchedAmongRules(rules, files, |rules|, rule);
  }

  predicate Covered(star: Tier, repo: Tier, channel: string) {
    channel == ResolveBaseTargets(star, repo)[0].channel || channel in AdditionalChannels(star, repo)
  }

  /** Every channel a pull request can reach is the primary one or an additional one, whatever the rules are. */
  lemma ReachableIsCovered(star: Tier, repo: Tier, channel: string)
    requires channel != "" && Reachable(star, repo, channel)
    ensures Covered(star, repo, channel)
  {
    var base := ResolveBaseTargets(star, repo);
    assert base == [base[0]] + base[1..];
    hide ResolveBaseTargets, TargetsFor, SortedNames;
    if files :| IsTarget(TargetsFor(star, repo, files), channel) {
      TargetFromBaseOrRule(star, repo, files, channel);
      if !IsTarget(base, channel) {
        var rule :| rule in repo.value.paths && RuleReaches(rule, base[0].channel, channel);
        RuleChannelCovered(repo.value.paths, rule, base[0].channel, channel);
      }
    }
  }

  /**
   Coverage is exact: with the decoder's distinct directories and single channel form, the primary
   channel and the additional ones are all the channels a pull request can reach over all lists of
   changed files, and no other.
   */
  lemma CoverageIsExact(star: Tier, repo: Tier, channel: string)
    requires channel != ""
    requires repo.Some? ==> DistinctDirs(repo.value.paths) && OneForm(repo.value.paths)
    ensures Reachable(star, repo, channel) <==> Covered(star, repo, channel)
  {
    var base := ResolveBaseTargets(star, repo);
    assert base == [base[0]] + base[1..];
    hide ResolveBaseTargets, TargetsFor, SortedNames;
    if repo.Some? && channel in PathChannelSet(repo.value.paths) {
      PathChannelReachable(star, repo, channel);
    }
    if Reachable(star, repo, channel) {
      ReachableIsCovered(star, repo, channel);
    }
  }

  lemma RuleChannelCovered(rules: seq<PathRule>, rule: PathRule, primary: string, channel: string)
    requires rule in rules && channel != "" && RuleReaches(rule, primary, channel)
    ensures channel == primary || channel in PathChannelSet(rules)
  {
  }

  lemma PathChannelReachable(star: Tier, repo: Tier, channel: string)
    requires repo.Some? && DistinctDirs(repo.value.paths) && OneForm(repo.value.paths)
    requires channel in PathChannelSet(repo.value.paths)
    ensures Reachable(star, repo, channel)
  {
    hide Reachable, ResolveBaseTargets;
    var rules := repo.value.paths;
    var rule :| rule in rules && channel != ""
      && (rule.channel == channel || exists spec :: spec in rule.channels && spec.channel == channel);
    var i :| 0 <= i < |rules| && rules[i] == rule;
    var primary := ResolveBaseTargets(star, repo)[0].channel;
    assert RuleReaches(rule, primary, channel) by {
      if rule.channels != [] {
        var spec :| spec in rule.channels && spec.channel == channel;
        assert OrPrimary(spec.channel, primary) == channel;
      }
    }
    RuleIsReachable(star, repo, i, channel);
  }

  // ---------------------------------------------------------------- whose mentions a target carries

  /** A name comes before another in the list exactly when its first occurrence does. */
  lemma {:induction false} DedupKeepsFirsts(names: seq<string>, i: nat, j: nat) returns (p: nat)
    requires i < j < |Dedup(names)|
    ensures p < |names| && names[p] == Dedup(names)[i] && Dedup(names)[j] !in names[..p + 1]
  {
    var init, last := names[..|names| - 1], names[|names| - 1];
    assert names == init + [last];
    if j < |Dedup(init)| {
      p := DedupKeepsFirsts(init, i, j);
      assert names[..p + 1] == init[..p + 1];
    } else {
      assert Dedup(names)[i] in init && last !in init;
      p :| 0 <= p < |init| && init[p] == Dedup(names)[i];
      assert forall name | name in names[..p + 1] :: name in init;
    }
  }

  lemma {:induction false} DedupGrows(names: seq<string>, more: seq<string>)
    ensures Dedup(names) <= Dedup(names + more)
  {
    if more == [] {
      assert names + more == names;
    } else {
      var init := more[..|more| - 1];
      assert (names + more)[..|names + more| - 1] == names + init;
      DedupGrows(names, init);
    }
  }

  lemma {:induction false} OfChannelJoined(first: seq<Contribution>, second: seq<Contribution>, channel: string)
    ensures OfChannel(first + second, channel) == OfChannel(first, channel) + OfChannel(second, channel)
  {
    if second == [] {
      assert first + second == first;
    } else {
      var init := second[..|second| - 1];
      assert (first + second)[..|first + second| - 1] == first + init;
      OfChannelJoined(first, init, channel);
    }
  }

  lemma {:induction false} EffectiveJoined(first: seq<Contribution>, second: seq<Contribution>, baseMentions: seq<string>)
    ensures Effective(first + second, baseMentions) == Effective(first, baseMentions) + Effective(second, baseMentions)
  {
    if second == [] {
      assert first + second == first;
    } else {
      var init, last := second[..|second| - 1], second[|second| - 1];
      assert first + second == (first + init) + [last] && second == init + [last];
      EffectiveJoined(first, init, baseMentions);
      EffectiveNext(first + init, last, baseMentions);
      EffectiveNext(init, last, baseMentions);
    }
  }

  lemma EffectiveNext(contributions: seq<Contribution>, c: Contribution, baseMentions: seq<string>)
    ensures Effective(contributions + [c], baseMentions)
            == Effective(contributions, baseMentions) + if c.present then c.mentions else baseMentions
  {
    assert (contributions + [c])[..|contributions|] == contributions;
  }

  /** The targets of one list go on in the other: the same channels first, each with the same mentions first. */
  ghost predicate GoesOnIn(targets: seq<Target>, longer: seq<Target>) {
    && |targets| <= |longer|
    && forall i | 0 <= i < |targets| ::
         targets[i].channel == longer[i].channel && targets[i].mentions <= longer[i].mentions
  }

  lemma MoreContributions(first: seq<Contribution>, second: seq<Contribution>, baseMentions: seq<string>)
    ensures GoesOnIn(Grouped(first, baseMentions), Grouped(first + second, baseMentions))
  {
    hide Dedup, OfChannel, Effective;
    assert ChannelsOf(first + second) == ChannelsOf(first) + ChannelsOf(second);
    DedupGrows(ChannelsOf(first), ChannelsOf(second));
    var order := Dedup(ChannelsOf(first));
    forall i | 0 <= i < |order|
      ensures Dedup(Effective(OfChannel(first, order[i]), baseMentions))
              <= Dedup(Effective(OfChannel(first + second, order[i]), baseMentions))
    {
      OfChannelJoined(first, second, order[i]);
      EffectiveJoined(OfChannel(first, order[i]), OfChannel(second, order[i]), baseMentions);
      DedupGrows(Effective(OfChannel(first, order[i]), baseMentions), Effective(OfChannel(second, order[i]), baseMentions));
    }
  }

  /** Targets keep the order of the rules: one more matched rule only adds, at the end. */
  lemma LaterRuleAppends(rules: seq<PathRule>, rule: PathRule, base: Target)
    ensures GoesOnIn(Grouped(Contributions(rules, base.channel), base.mentions),
                     Grouped(Contributions(rules + [rule], base.channel), base.mentions))
  {
    hide Grouped, GoesOnIn, RuleContributions;
    assert (rules + [rule])[..|rules|] == rules;
    MoreContributions(Contributions(rules, base.channel), RuleContributions(rule, base.channel), base.mentions);
  }

  /** And they keep the order of a rule's list: one more entry of the last rule only adds, at the end. */
  lemma LaterEntryAppends(rules: seq<PathRule>, rule: PathRule, spec: ChannelSpec, base: Target)
    requires rule.channels != []
    ensures GoesOnIn(Grouped(Contributions(rules + [rule], base.channel), base.mentions),
                     Grouped(Contributions(rules + [rule.(channels := rule.channels + [spec])], base.channel), base.mentions))
  {
    hide Grouped, GoesOnIn, Contributions;
    var longer := rule.(channels := rule.channels + [spec]);
    var own := Contribution(OrPrimary(spec.channel, base.channel), SpecMentions(spec), true);
    assert longer.channels[..|longer.channels| - 1] == rule.channels;
    ContributionsNext(rules, rule, base.channel);
    ContributionsNext(rules, longer, base.channel);
    assert Contributions(rules + [longer], base.channel) == Contributions(rules + [rule], base.channel) + [own];
    MoreContributions(Contributions(rules + [rule], base.channel), [own], base.mentions);
  }

  lemma ContributionsNext(rules: seq<PathRule>, rule: PathRule, primary: string)
    ensures Contributions(rules + [rule], primary) == Contributions(rules, primary) + RuleContributions(rule, primary)
  {
    hide RuleContributions;
    assert (rules + [rule])[..|rules|] == rules;
  }

  lemma {:induction false} EffectiveFrom(contributions: seq<Contribution>, baseMentions: seq<string>, mention: string)
    ensures mention in Effective(contributions, baseMentions) <==>
            exists c :: c in contributions && mention in if c.present then c.mentions else baseMentions
  {
    if contributions != [] {
      var init, last := contributions[..|contributions| - 1], contributions[|contributions| - 1];
      assert contributions == init + [last];
      EffectiveFrom(init, baseMentions, mention);
    }
  }

  lemma {:induction false} OfChannelFrom(contributions: seq<Contribution>, channel: string)
    ensures forall c :: c in OfChannel(contributions, channel) <==> c in contributions && c.channel == channel
  {
    if contributions != [] {
      var init, last := contributions[..|contributions| - 1], contributions[|contributions| - 1];
      assert contributions == init + [last];
      OfChannelFrom(init, channel);
    }
  }

  /**
   The rule has the channel pinged with this mention: the list entry for the channel brings it, everybody being the
   mention of an entry without the key; or the rule's single channel does, the repository's mentions standing in for
   an absent key. An empty channel is the primary one.
   */
  ghost predicate RuleMentions(rule: PathRule, base: Target, channel: string, mention: string) {
    if rule.channels != [] then
      exists spec :: spec in rule.channels
        && channel == (if spec.channel == "" then base.channel else spec.channel)
        && mention in if spec.mentionsPresent then spec.mentions else ["<!channel>"]
    else
      && channel == (if rule.channel == "" then base.channel else rule.channel)
      && mention in if rule.mentionsPresent then rule.mentions else base.mentions
  }

  ghost predicate Brings(c: Contribution, baseMentions: seq<string>, channel: string, mention: string) {
    c.channel == channel && mention in if c.present then c.mentions else baseMentions
  }

  lemma {:induction false} SpecBrings(specs: seq<ChannelSpec>, base: Target, channel: string, mention: string)
    ensures (exists c :: c in SpecContributions(specs, base.channel) && Brings(c, base.mentions, channel, mention))
            <==> exists spec :: spec in specs
                   && channel == (if spec.channel == "" then base.channel else spec.channel)
                   && mention in if spec.mentionsPresent then spec.mentions else ["<!channel>"]
  {
    if specs != [] {
      var init, last := specs[..|specs| - 1], specs[|specs| - 1];
      assert specs == init + [last];
      SpecBrings(init, base, channel, mention);
      var own := Contribution(OrPrimary(last.channel, base.channel), SpecMentions(last), true);
      assert SpecContributions(specs, base.channel) == SpecContributions(init, base.channel) + [own];
      assert own in SpecContributions(specs, base.channel);
    }
  }

  lemma RuleBrings(rule: PathRule, base: Target, channel: string, mention: string)
    ensures (exists c :: c in RuleContributions(rule, base.channel) && Brings(c, base.mentions, channel, mention))
            <==> RuleMentions(rule, base, channel, mention)
  {
    if rule.channels != [] {
      SpecBrings(rule.channels, base, channel, mention);
    } else {
      var own := Contribution(OrPrimary(rule.channel, base.channel), rule.mentions, rule.mentionsPresent);
      assert own in RuleContributions(rule, base.channel);
    }
  }

  lemma {:induction false} RulesBring(rules: seq<PathRule>, base: Target, channel: string, mention: string)
    ensures (exists c :: c in Contributions(rules, base.channel) && Brings(c, base.mentions, channel, mention))
            <==> exists rule :: rule in rules && RuleMentions(rule, base, channel, mention)
  {
    hide RuleContributions, RuleMentions, Brings;
    if rules != [] {
      var init, last := rules[..|rules| - 1], rules[|rules| - 1];
      assert rules == init + [last];
      RulesBring(init, base, channel, mention);
      RuleBrings(last, base, channel, mention);
      assert Contributions(rules, base.channel)
          == Contributions(init, base.channel) + RuleContributions(last, base.channel);
    }
  }

  /** When a rule matches, a target carries exactly the mentions that matched rules bring to its channel, each once. */
  lemma TargetMentions(star: Tier, repo: Tier, files: seq<string>, target: Target, mention: string)
    requires repo.Some? && Matched(repo.value.paths, files) != []
    requires target in TargetsFor(star, repo, files)
    ensures Distinct(target.mentions)
    ensures mention in target.mentions <==>
            exists rule :: rule in Matched(repo.value.paths, files)
              && RuleMentions(rule, ResolveBaseTargets(star, repo)[0], target.channel, mention)
  {
    var winners, base := Matched(repo.value.paths, files), ResolveBaseTargets(star, repo)[0];
    var contributions := Contributions(winners, base.channel);
    RulesBring(winners, base, target.channel, mention);
    OfChannelFrom(contributions, target.channel);
    EffectiveFrom(OfChannel(contributions, target.channel), base.mentions, mention);
    hide Matched, ResolveBaseTargets, RuleMentions, Contributions, OfChannel, Effective;
    GroupedTarget(contributions, base.mentions, target);
  }

  lemma GroupedTarget(contributions: seq<Contribution>, baseMentions: seq<string>, target: Target)
    requires target in Grouped(contributions, baseMentions)
    ensures target.mentions == Dedup(Effective(OfChannel(contributions, target.channel), baseMentions))
  {
    hide Effective, OfChannel;
  }

  /** Without a matched rule the targets are the base targets. */
  lemma NoMatchNoChange(star: Tier, repo: Tier, files: seq<string>)
    requires repo.Some? ==> Matched(repo.value.paths, files) == []
    ensures TargetsFor(star, repo, files) == ResolveBaseTargets(star, repo)
  {
  }

  ghost predicate NamesChannel(rule: PathRule, channel: string) {
    rule.channel == channel || exists spec :: spec in rule.channels && spec.channel == channel
  }

  /** A channel is additional exactly when a base target after the first has it or a path rule names it in either form. */
  lemma AdditionalIs(star: Tier, repo: Tier, channel: string)
    ensures channel in AdditionalChannels(star, repo) <==>
      && channel != ""
      && (|| (exists i :: 1 <= i < |ResolveBaseTargets(star, repo)| && ResolveBaseTargets(star, repo)[i].channel == channel)
          || (repo.Some? && exists rule :: rule in repo.value.paths && NamesChannel(rule, channel)))
  {
    hide ResolveBaseTargets, SortedNames, PathChannelSet, NamesChannel;
    var base := ResolveBaseTargets(star, repo);
    FurtherChannel(base, channel);
    if repo.Some? {
      PathChannelNamed(repo.value.paths, channel);
    }
  }

  lemma FurtherChannel(base: seq<Target>, channel: string)
    requires base != []
    ensures channel in (set target | target in base[1..] && target.channel != "" :: target.channel) <==>
            channel != "" && exists i :: 1 <= i < |base| && base[i].channel == channel
  {
    if i :| 1 <= i < |base| && base[i].channel == channel {
      assert base[1..][i - 1] == base[i];
    }
  }

  lemma PathChannelNamed(rules: seq<PathRule>, channel: string)
    ensures channel in PathChannelSet(rules) <==>
            channel != "" && exists rule :: rule in rules && NamesChannel(rule, channel)
  {
    if channel != "" {
      if rule :| rule in rules && NamesChannel(rule, channel) {
        if rule.channel != channel {
          var spec :| spec in rule.channels && spec.channel == channel;
        }
      }
    }
  }
}
