/**
 * The reaction moderation rule of main.py. When the first reaction is added
 * to a message, the handler looks the message up in the recency tracker,
 * checks that the reaction came within the threshold, fetches the reacting
 * user's profile, looks for BIO_KEYWORD in the bio (ignoring case) and, when
 * every guard passes, bans the user from the chat; a platform error from the
 * ban is logged and swallowed.
 *
 * The two network calls are inputs: `profile` is what fetching the profile
 * would give, `ban` what the ban call would give. The `calls` of a Handling
 * record which of them the handler actually makes, in order.
 */
module ReactionModeration {
  import opened Wrappers
  import opened MessageTracker
  import opened CaseFolding

  const BIO_KEYWORD: string := "@creaitors_bot"

  /** A reaction type: a plain emoji has an `emoji` attribute, a custom emoji only a `custom_emoji_id`. */
  datatype Reaction = Emoji(emoji: string) | CustomEmoji(customEmojiId: string)

  /** The fields of a reaction update that the handler and its filter read. */
  datatype ReactionUpdate = ReactionUpdate(
    chatId: int,
    messageId: int,
    user: Option<int>,
    oldReaction: seq<Reaction>,
    newReaction: seq<Reaction>,
    date: Timestamp)

  /** The result of fetching the user's profile: its optional bio, or a platform error. */
  datatype ProfileFetch = Fetched(bio: Option<string>) | FetchFailed

  /** The result of the ban call: done, or a platform error. */
  datatype BanCall = BanDone | BanApiError

  /** An outbound call the handler makes. */
  datatype Call = GetChat(userId: int) | BanChatMember(chatId: int, userId: int)

  datatype SkipReason = Untracked | TooLate(elapsed: int) | NoBio | NoKeyword

  /** An exception that escapes the handler. */
  datatype HandlerError = ProfileFetchError | NoEmojiAttribute

  datatype Outcome =
    | NotHandled                                        // the event filter rejected the update
    | Skipped(reason: SkipReason)                       // a guard clause returned early
    | Banned(chatId: int, userId: int, banFailed: bool) // the ban was issued; a failure was logged and swallowed
    | Raised(error: HandlerError)                       // an exception left the handler

  datatype Handling = Handling(calls: seq<Call>, outcome: Outcome)

  /** The event filter: an acting user, no previous reaction, exactly one new reaction. */
  predicate IsFirstReaction(u: ReactionUpdate) {
    u.user.Some? && |u.oldReaction| == 0 && |u.newReaction| == 1
  }

  /** The message is tracked and the reaction came no later than the threshold after it. */
  predicate IsFresh(u: ReactionUpdate, messageDate: Option<Timestamp>) {
    messageDate.Some? && !ExceedsThreshold(u.date, messageDate.value)
  }

  /** The keyword, case folded, occurs in the bio, case folded. */
  predicate BioMatches(keyword: string, bio: string) {
    IsSubstring(CaseFold(keyword), CaseFold(bio))
  }

  /** Every condition under which the handler bans. */
  predicate BanConditions(u: ReactionUpdate, messageDate: Option<Timestamp>, profile: ProfileFetch, keyword: string) {
    && IsFirstReaction(u)
    && IsFresh(u, messageDate)
    && profile.Fetched?
    && profile.bio.Some?
    && BioMatches(keyword, profile.bio.value)
  }

  /**
   * The guard clauses of the handler, from the tracker lookup to the ban,
   * for an update that has passed the filter (so it has a user).
   */
  function Moderate(u: ReactionUpdate, messageDate: Option<Timestamp>, profile: ProfileFetch, keyword: string, ban: BanCall): (h: Handling)
    requires u.user.Some?
    // past the filter every update is handled: skipped, banned or raised
    ensures !h.outcome.NotHandled?
    // the lookup and the age test come before any call
    ensures !IsFresh(u, messageDate) ==> h.calls == [] && h.outcome.Skipped?
    ensures IsFresh(u, messageDate) ==> |h.calls| > 0 && h.calls[0] == GetChat(u.user.value)
    // the ban is the last guard's consequence, and the only second call
    ensures h.outcome.Banned? <==>
              IsFresh(u, messageDate) && profile.Fetched? && profile.bio.Some? && BioMatches(keyword, profile.bio.value)
    ensures |h.calls| == 2 <==> h.outcome.Banned?
    ensures h.outcome.Raised? <==> IsFresh(u, messageDate) && profile == FetchFailed
    ensures h.outcome.Raised? ==> h.outcome == Raised(ProfileFetchError)
  {
    var user := u.user.value;
    match messageDate
    case None => Handling([], Skipped(Untracked))
    case Some(sentAt) =>
      if ExceedsThreshold(u.date, sentAt) then
        Handling([], Skipped(TooLate(u.date - sentAt)))
      else
        match profile
        case FetchFailed => Handling([GetChat(user)], Raised(ProfileFetchError))
        case Fetched(None) => Handling([GetChat(user)], Skipped(NoBio))
        case Fetched(Some(bio)) =>
          if !BioMatches(keyword, bio) then
            Handling([GetChat(user)], Skipped(NoKeyword))
          else
            Handling([GetChat(user), BanChatMember(u.chatId, user)], Banned(u.chatId, user, ban == BanApiError))
  }

  /**
   * A reaction update as dispatched: the filter, then the guard chain.
   * The log line at the head of the handler describes the new reaction
   * without failing for any reaction type.
   */
  function OnReaction(u: ReactionUpdate, messageDate: Option<Timestamp>, profile: ProfileFetch, keyword: string, ban: BanCall): (h: Handling)
    // the filter: anything but a first reaction by a user is not handled
    ensures !IsFirstReaction(u) ==> h == Handling([], NotHandled)
    // an untracked or late reaction is skipped without fetching the profile
    ensures IsFirstReaction(u) && messageDate.None? ==> h == Handling([], Skipped(Untracked))
    ensures IsFirstReaction(u) && messageDate.Some? && ExceedsThreshold(u.date, messageDate.value) ==>
              h == Handling([], Skipped(TooLate(u.date - messageDate.value)))
    // otherwise the profile of the reacting user is fetched first
    ensures IsFirstReaction(u) && IsFresh(u, messageDate) ==> |h.calls| > 0 && h.calls[0] == GetChat(u.user.value)
    ensures h.outcome == Skipped(NoBio) <==> IsFirstReaction(u) && IsFresh(u, messageDate) && profile == Fetched(None)
    ensures h.outcome == Skipped(NoKeyword) <==>
              IsFirstReaction(u) && IsFresh(u, messageDate) && profile.Fetched? && profile.bio.Some? &&
              !BioMatches(keyword, profile.bio.value)
    // ban iff every guard passes; the ban is the reacting user in the reaction's chat, issued once
    ensures h.outcome.Banned? <==> BanConditions(u, messageDate, profile, keyword)
    ensures h.outcome.Banned? ==>
              && h.outcome == Banned(u.chatId, u.user.value, ban == BanApiError)
              && h.calls == [GetChat(u.user.value), BanChatMember(u.chatId, u.user.value)]
    ensures !h.outcome.Banned? ==> forall c :: c in h.calls ==> !c.BanChatMember?
    ensures IsFirstReaction(u) && IsFresh(u, messageDate) && !h.outcome.Banned? ==> h.calls == [GetChat(u.user.value)]
    // only a failed profile fetch escapes; a failed ban never does
    ensures h.outcome.Raised? <==> IsFirstReaction(u) && IsFresh(u, messageDate) && profile == FetchFailed
    ensures h.outcome.Raised? ==> h.outcome == Raised(ProfileFetchError)
  {
    if !IsFirstReaction(u) then Handling([], NotHandled) else Moderate(u, messageDate, profile, keyword, ban)
  }

  /**
   * A failed ban call is swallowed: it makes the same calls and reaches the
   * same verdict as a successful one, and only the logged failure differs.
   */
  lemma BanFailureSwallowed(u: ReactionUpdate, messageDate: Option<Timestamp>, profile: ProfileFetch, keyword: string)
    ensures var failed := OnReaction(u, messageDate, profile, keyword, BanApiError);
            var done := OnReaction(u, messageDate, profile, keyword, BanDone);
            && failed.calls == done.calls
            && (done.outcome.Banned? ==> failed.outcome == done.outcome.(banFailed := true))
            && (!done.outcome.Banned? ==> failed.outcome == done.outcome)
  {
  }

  /** Keywords that differ only in letter case, and bios that do, are treated alike. */
  lemma MatchIgnoresCase(keyword: string, otherKeyword: string, bio: string, otherBio: string)
    requires |keyword| == |otherKeyword|
    requires forall i :: 0 <= i < |keyword| ==> FoldChar(keyword[i]) == FoldChar(otherKeyword[i])
    requires |bio| == |otherBio|
    requires forall i :: 0 <= i < |bio| ==> FoldChar(bio[i]) == FoldChar(otherBio[i])
    ensures BioMatches(keyword, bio) == BioMatches(otherKeyword, otherBio)
  {
    assert CaseFold(keyword) == CaseFold(otherKeyword);
    assert CaseFold(bio) == CaseFold(otherBio);
  }

  /**
   * The handler as written: the log call at main.py:50-52, before the
   * tracker lookup, reads `.emoji` of the new reaction, which a custom emoji
   * reaction does not have, so the handler raises before the lookup and
   * every guard.
   */
  function OnReactionAsWritten(u: ReactionUpdate, messageDate: Option<Timestamp>, profile: ProfileFetch, keyword: string, ban: BanCall): (h: Handling)
    ensures !IsFirstReaction(u) ==> h == Handling([], NotHandled)
    // a custom emoji reaction raises with no call made, whatever the tracker and the profile say
    ensures IsFirstReaction(u) && u.newReaction[0].CustomEmoji? ==> h == Handling([], Raised(NoEmojiAttribute))
    // so a ban needs a plain emoji on top of every guard
    ensures h.outcome.Banned? <==> BanConditions(u, messageDate, profile, keyword) && u.newReaction[0].Emoji?
  {
    if !IsFirstReaction(u) then
      Handling([], NotHandled)
    else if u.newReaction[0].CustomEmoji? then
      Handling([], Raised(NoEmojiAttribute))
    else
      Moderate(u, messageDate, profile, keyword, ban)
  }

  /** For a plain emoji reaction the handler as written and the model agree. */
  lemma AsWrittenAgreesOnEmoji(u: ReactionUpdate, messageDate: Option<Timestamp>, profile: ProfileFetch, keyword: string, ban: BanCall)
    requires forall i :: 0 <= i < |u.newReaction| ==> u.newReaction[i].Emoji?
    ensures OnReactionAsWritten(u, messageDate, profile, keyword, ban) == OnReaction(u, messageDate, profile, keyword, ban)
  {
  }

  /**
   * A first reaction with a custom emoji, on a fresh message, by a user whose
   * bio is the keyword itself: the model bans, the handler as written raises
   * and never bans.
   */
  lemma CustomEmojiEscapesBan(keyword: string)
    ensures var u := ReactionUpdate(1, 100, Some(7), [], [CustomEmoji("5368324170671202286")], 5 * MICROS_PER_SECOND);
            var profile := Fetched(Some(keyword));
            && OnReactionAsWritten(u, Some(0), profile, keyword, BanDone) == Handling([], Raised(NoEmojiAttribute))
            && OnReaction(u, Some(0), profile, keyword, BanDone).outcome == Banned(1, 7, false)
  {
    assert OccursAt(CaseFold(keyword), CaseFold(keyword), 0);
  }

  /**
   * The reaction handler: look the message up in the tracker and run the
   * rule with BIO_KEYWORD. It has no modifies clause, so the tracker is left
   * unchanged.
   */
  method HandleMessageReaction(tracker: MessageDates, u: ReactionUpdate, profile: ProfileFetch, ban: BanCall)
    returns (h: Handling)
    ensures h == OnReaction(u, Get(tracker.dates, (u.chatId, u.messageId)), profile, BIO_KEYWORD, ban)
  {
    if !IsFirstReaction(u) {
      return Handling([], NotHandled);
    }
    var messageDate := tracker.Lookup(u.chatId, u.messageId);
    h := Moderate(u, messageDate, profile, BIO_KEYWORD, ban);
  }
}
