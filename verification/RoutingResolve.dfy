/** Merging the repository tier over the org tier. */
module RoutingResolve {
  import opened Optional
  import opened RoutingModel

  type Tier = Option<RepoConfig>

  /** A list entry's mentions: as given, or the whole channel when the key is absent. */
  function SpecMentions(spec: ChannelSpec): seq<string> {
    if spec.mentionsPresent then spec.mentions else [CHANNEL_MENTION]
  }

  function ListTargets(specs: seq<ChannelSpec>): (targets: seq<Target>)
    ensures |targets| == |specs|
  {
    if specs == [] then []
    else ListTargets(specs[..|specs| - 1]) + [Target(specs[|specs| - 1].channel, SpecMentions(specs[|specs| - 1]))]
  }

  /** The repository tier's mentions key decides, then the org tier's, then the whole channel. */
  function ResolveMentions(star: Tier, repo: Tier): seq<string> {
    if repo.Some? && repo.value.mentionsPresent then repo.value.mentions
    else if star.Some? && star.value.mentionsPresent then star.value.mentions
    else [CHANNEL_MENTION]
  }

  /** All targets come from one tier, the repository's before the org's; without channels one target with none remains. */
  function ResolveBaseTargets(star: Tier, repo: Tier): (targets: seq<Target>)
    ensures targets != []
  {
    if repo.Some? && repo.value.channels != [] then ListTargets(repo.value.channels)
    else if repo.Some? && repo.value.channel != "" then [Target(repo.value.channel, ResolveMentions(star, repo))]
    else if star.Some? && star.value.channels != [] then ListTargets(star.value.channels)
    else if star.Some? && star.value.channel != "" then [Target(star.value.channel, ResolveMentions(star, repo))]
    else [Target("", ResolveMentions(star, repo))]
  }

  function ResolveRouting(star: Tier, repo: Tier): Target {
    ResolveBaseTargets(star, repo)[0]
  }

  function OverrideReactions(reactions: Reactions, o: ReactionsOverride): Reactions {
    Reactions(
      o.enabled.GetOr(reactions.enabled),
      o.newPR.GetOr(reactions.newPR),
      o.mergedPR.GetOr(reactions.mergedPR),
      o.closedPR.GetOr(reactions.closedPR),
      o.approved.GetOr(reactions.approved),
      o.commented.GetOr(reactions.commented),
      o.requestChange.GetOr(reactions.requestChange),
      o.botReview.GetOr(reactions.botReview))
  }

  function ApplyTier(resolved: Behavior, tier: Tier): Behavior {
    if tier.None? then resolved
    else
      var t := tier.value;
      Behavior(
        if t.reactions.Some? then OverrideReactions(resolved.reactions, t.reactions.value) else resolved.reactions,
        t.ignoreAIReviews.GetOr(resolved.ignoreAIReviews),
        t.dependabotFormat.GetOr(resolved.dependabotFormat),
        t.deleteOnClose.GetOr(resolved.deleteOnClose),
        t.notifications.GetOr(resolved.notifications))
  }

  /** Global settings, then the org tier, then the repository tier. */
  function ResolveBehavior(global: Defaults, star: Tier, repo: Tier): Behavior {
    var base := Behavior(global.reactions, global.ignoreAIReviews, global.dependabotFormat, global.deleteOnClose,
                         Notifications(false, []));
    ApplyTier(ApplyTier(base, star), repo)
  }

  lemma {:induction false} ListTargetsAt(specs: seq<ChannelSpec>, i: nat)
    requires i < |specs|
    ensures ListTargets(specs)[i] == Target(specs[i].channel, SpecMentions(specs[i]))
  {
    if i < |specs| - 1 {
      ListTargetsAt(specs[..|specs| - 1], i);
    }
  }

  // ---------------------------------------------------------------- which tier decides

  predicate SetsChannel(tier: Tier) {
    tier.Some? && (tier.value.channel != "" || tier.value.channels != [])
  }

  /** The mentions of a single channel: the repository tier's if it has the key, else the org tier's, else everybody. */
  ghost predicate AreSingleMentions(star: Tier, repo: Tier, mentions: seq<string>) {
    && (repo.Some? && repo.value.mentionsPresent ==> mentions == repo.value.mentions)
    && (!(repo.Some? && repo.value.mentionsPresent) && star.Some? && star.value.mentionsPresent ==>
          mentions == star.value.mentions)
    && (!(repo.Some? && repo.value.mentionsPresent) && !(star.Some? && star.value.mentionsPresent) ==>
          mentions == ["<!channel>"])
  }

  /** The targets are the channels of this one tier in order, or its single channel. */
  ghost predicate AreTargetsOf(tier: RepoConfig, star: Tier, repo: Tier, targets: seq<Target>) {
    if tier.channels != [] then
      && |targets| == |tier.channels|
      && forall i | 0 <= i < |targets| ::
           && targets[i].channel == tier.channels[i].channel
           && targets[i].mentions ==
              if tier.channels[i].mentionsPresent then tier.channels[i].mentions else ["<!channel>"]
    else
      |targets| == 1 && targets[0].channel == tier.channel && AreSingleMentions(star, repo, targets[0].mentions)
  }

  /**
   A repository tier that sets a channel, in either form, decides alone about the channels, whatever the org tier
   holds; else the org tier does; without either there is one target without a channel.
   */
  lemma RepositoryBeforeOrg(star: Tier, repo: Tier)
    ensures SetsChannel(repo) ==> AreTargetsOf(repo.value, star, repo, ResolveBaseTargets(star, repo))
    ensures !SetsChannel(repo) && SetsChannel(star) ==> AreTargetsOf(star.value, star, repo, ResolveBaseTargets(star, repo))
    ensures !SetsChannel(repo) && !SetsChannel(star) ==>
      var targets := ResolveBaseTargets(star, repo);
      |targets| == 1 && targets[0].channel == "" && AreSingleMentions(star, repo, targets[0].mentions)
  {
    if repo.Some? {
      forall i | 0 <= i < |repo.value.channels| { ListTargetsAt(repo.value.channels, i); }
    }
    if star.Some? {
      forall i | 0 <= i < |star.value.channels| { ListTargetsAt(star.value.channels, i); }
    }
    hide ListTargets;
  }

  /** The value closest to the repository. */
  ghost predicate IsNearest<T>(repo: Option<T>, star: Option<T>, global: T, value: T) {
    && (repo.Some? ==> value == repo.value)
    && (repo.None? && star.Some? ==> value == star.value)
    && (repo.None? && star.None? ==> value == global)
  }

  const NO_REACTIONS := ReactionsOverride(None, None, None, None, None, None, None, None)

  function ReactionsIn(tier: Tier): ReactionsOverride {
    if tier.Some? && tier.value.reactions.Some? then tier.value.reactions.value else NO_REACTIONS
  }

  function SettingIn<T>(tier: Tier, setting: RepoConfig -> Option<T>): Option<T> {
    if tier.Some? then setting(tier.value) else None
  }

  /** Every behavior setting, each reaction by itself, comes from the nearest tier that sets it. */
  lemma NearestSettingWins(global: Defaults, star: Tier, repo: Tier)
    ensures var b := ResolveBehavior(global, star, repo);
      && IsNearest(SettingIn(repo, (t: RepoConfig) => t.ignoreAIReviews), SettingIn(star, (t: RepoConfig) => t.ignoreAIReviews),
                   global.ignoreAIReviews, b.ignoreAIReviews)
      && IsNearest(SettingIn(repo, (t: RepoConfig) => t.dependabotFormat), SettingIn(star, (t: RepoConfig) => t.dependabotFormat),
                   global.dependabotFormat, b.dependabotFormat)
      && IsNearest(SettingIn(repo, (t: RepoConfig) => t.deleteOnClose), SettingIn(star, (t: RepoConfig) => t.deleteOnClose),
                   global.deleteOnClose, b.deleteOnClose)
      && IsNearest(SettingIn(repo, (t: RepoConfig) => t.notifications), SettingIn(star, (t: RepoConfig) => t.notifications),
                   Notifications(false, []), b.notifications)
  {
  }

  /** And so does the nearest reaction, each by itself. */
  lemma NearestReactionWins(global: Defaults, star: Tier, repo: Tier)
    ensures var b, near, far := ResolveBehavior(global, star, repo).reactions, ReactionsIn(repo), ReactionsIn(star);
      && IsNearest(near.enabled, far.enabled, global.reactions.enabled, b.enabled)
      && IsNearest(near.newPR, far.newPR, global.reactions.newPR, b.newPR)
      && IsNearest(near.mergedPR, far.mergedPR, global.reactions.mergedPR, b.mergedPR)
      && IsNearest(near.closedPR, far.closedPR, global.reactions.closedPR, b.closedPR)
      && IsNearest(near.approved, far.approved, global.reactions.approved, b.approved)
      && IsNearest(near.commented, far.commented, global.reactions.commented, b.commented)
      && IsNearest(near.requestChange, far.requestChange, global.reactions.requestChange, b.requestChange)
      && IsNearest(near.botReview, far.botReview, global.reactions.botReview, b.botReview)
  {
  }
}
