/** The routing mappings: tiers, path rules and what they may leave unset. */
module RoutingModel {
  import opened Optional

  const WILDCARD := "*"
  const CHANNEL_MENTION := "<!channel>"

  /** Party values of one level, each possibly unset; declared marks a party key that was written without a value. */
  datatype PartyOverride = PartyOverride(reviewers: Option<int>, deadline: Option<int>, declared: bool) {
    predicate IsSet() {
      reviewers.Some? || deadline.Some?
    }

    predicate IsPartyEntry() {
      IsSet() || declared
    }
  }

  const NO_PARTY := PartyOverride(None, None, false)

  /** A resolved cap and timer; the timer in nanoseconds. */
  datatype PartySettings = PartySettings(reviewers: int, deadline: int)

  datatype ChannelSpec = ChannelSpec(channel: string, mentions: seq<string>, mentionsPresent: bool)

  datatype PathRule = PathRule(
    dir: string,
    channel: string,
    mentions: seq<string>,
    mentionsPresent: bool,
    channels: seq<ChannelSpec>,
    party: PartyOverride)
  {
    predicate PartyOnly() {
      party.IsPartyEntry() && channel == "" && !mentionsPresent && channels == []
    }
  }

  datatype ReactionsOverride = ReactionsOverride(
    enabled: Option<bool>,
    newPR: Option<string>,
    mergedPR: Option<string>,
    closedPR: Option<string>,
    approved: Option<string>,
    commented: Option<string>,
    requestChange: Option<string>,
    botReview: Option<string>)

  datatype Reactions = Reactions(
    enabled: bool,
    newPR: string,
    mergedPR: string,
    closedPR: string,
    approved: string,
    commented: string,
    requestChange: string,
    botReview: string)

  datatype DigestConfig = DigestConfig(enabled: bool, schedule: string, timezone: string, country: string)

  /** specs are the cron specs of the scheduled strategy, none for the per-event strategy. */
  datatype Notifications = Notifications(scheduled: bool, specs: seq<string>)

  datatype RepoConfig = RepoConfig(
    channel: string,
    mentions: seq<string>,
    mentionsPresent: bool,
    reactions: Option<ReactionsOverride>,
    ignoreAIReviews: Option<bool>,
    dependabotFormat: Option<bool>,
    deleteOnClose: Option<bool>,
    digest: Option<DigestConfig>,
    notifications: Option<Notifications>,
    paths: seq<PathRule>,
    channels: seq<ChannelSpec>,
    party: PartyOverride)
  {
    predicate SetsSlackKey() {
      || channel != "" || channels != [] || mentionsPresent
      || reactions.Some? || ignoreAIReviews.Some? || dependabotFormat.Some?
      || deleteOnClose.Some? || digest.Some? || notifications.Some?
    }

    /** The tier holds something for the party and, path rules included, nothing for announcements. */
    predicate PartyOnly() {
      && !SetsSlackKey()
      && (forall rule | rule in paths :: rule.PartyOnly())
      && (party.IsPartyEntry() || paths != [])
    }
  }

  type Org = map<string, RepoConfig>
  type Mappings = map<string, Org>

  datatype Target = Target(channel: string, mentions: seq<string>)

  datatype Defaults = Defaults(
    reactions: Reactions,
    ignoreAIReviews: bool,
    dependabotFormat: bool,
    deleteOnClose: bool,
    gitProvider: string)

  datatype Behavior = Behavior(
    reactions: Reactions,
    ignoreAIReviews: bool,
    dependabotFormat: bool,
    deleteOnClose: bool,
    notifications: Notifications)

  // ---------------------------------------------------------------- channel ids

  predicate IsUpperOrDigit(c: char) {
    'A' <= c <= 'Z' || '0' <= c <= '9'
  }

  /** A channel id: C, G or D, then two or more capitals or digits. */
  predicate IsChannelID(value: string) {
    && |value| >= 3
    && (value[0] == 'C' || value[0] == 'G' || value[0] == 'D')
    && forall i | 1 <= i < |value| :: IsUpperOrDigit(value[i])
  }

  // ---------------------------------------------------------------- characters

  lemma UpperCase(c: char)
    ensures 'A' <= c <= 'Z' <==> c in "ABCDEFGHIJKLMNOPQRSTUVWXYZ"
  {
  }

  lemma LowerCase(c: char)
    ensures 'a' <= c <= 'z' <==> c in "abcdefghijklmnopqrstuvwxyz"
  {
  }

  lemma Digit(c: char)
    ensures '0' <= c <= '9' <==> c in "0123456789"
  {
  }

  /** A channel id starts with one of three letters and goes on with two or more capitals or digits. */
  lemma ChannelIDIs(value: string)
    ensures IsChannelID(value) <==>
            && |value| >= 3 && value[0] in "CGD"
            && forall c | c in value[1..] :: c in "ABCDEFGHIJKLMNOPQRSTUVWXYZ" || c in "0123456789"
  {
    forall c ensures IsUpperOrDigit(c) <==> c in "ABCDEFGHIJKLMNOPQRSTUVWXYZ" || c in "0123456789" {
      UpperCase(c);
      Digit(c);
    }
    if |value| >= 3 {
      forall i | 1 <= i < |value| ensures value[i] in value[1..] {
        assert value[i] == value[1..][i - 1];
      }
    }
  }
}
