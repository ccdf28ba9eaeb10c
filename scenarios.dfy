/**
 * Worked cases of the tracker and the moderation rule: two message
 * sequences applied to the class, and four reaction updates applied to
 * the rule with the bot's own keyword.
 */
module Scenarios {
  import opened Wrappers
  import opened MessageTracker
  import opened CaseFolding
  import opened ReactionModeration

  /**
   * Messages 100 at 0 s and 101 at 5 s: 100 survives the second sweep.
   * Then message 200 at 15 s: 100 is evicted, 101 (10 s old) is kept, and a
   * reaction to 101 leaves the tracker as it was.
   */
  method TrackerScenarios() {
    var tracker := new MessageDates();
    tracker.HandleMessage(Message(1, 100, Supergroup, 0));
    var r := tracker.Lookup(1, 100);
    assert r == Some(0);
    tracker.HandleMessage(Message(1, 101, Supergroup, 5 * MICROS_PER_SECOND));
    r := tracker.Lookup(1, 100);
    assert r == Some(0);
    tracker.HandleMessage(Message(1, 200, Supergroup, 15 * MICROS_PER_SECOND));
    r := tracker.Lookup(1, 100);
    assert r == None;
    r := tracker.Lookup(1, 101);
    assert r == Some(5 * MICROS_PER_SECOND);
    // a private message is neither recorded nor sweeps anything
    tracker.HandleMessage(Message(1, 300, Private, 60 * MICROS_PER_SECOND));
    r := tracker.Lookup(1, 101);
    assert r == Some(5 * MICROS_PER_SECOND);
    // a first reaction at 8 s to message 101 by a keyword bio: banned, and the tracker is untouched
    var before := tracker.dates;
    var u := ReactionUpdate(1, 101, Some(7), [], [THUMBS_UP], 8 * MICROS_PER_SECOND);
    MixedCaseBioMatches();
    var h := HandleMessageReaction(tracker, u, Fetched(Some("AI art: @CreAItors_Bot")), BanDone);
    assert h == Handling([GetChat(7), BanChatMember(1, 7)], Banned(1, 7, false));
    assert tracker.dates == before;
  }

  /** The bot's keyword is already case folded. */
  lemma KeywordIsFolded()
    ensures CaseFold(BIO_KEYWORD) == BIO_KEYWORD
  {
  }

  /** A bio holding the keyword in other letter case matches. */
  lemma MixedCaseBioMatches()
    ensures BioMatches(BIO_KEYWORD, "AI art: @CreAItors_Bot")
  {
    KeywordIsFolded();
    assert CaseFold("AI art: @CreAItors_Bot") == "ai art: @creaitors_bot";
    assert OccursAt(BIO_KEYWORD, "ai art: @creaitors_bot", 8);
  }

  const THUMBS_UP: Reaction := Emoji("\U{1F44D}")

  /** A first reaction 5 s after the message by a user whose bio holds the keyword: fetch, then one ban of that user. */
  lemma FreshReactionWithKeywordBans()
    ensures var u := ReactionUpdate(1, 100, Some(7), [], [THUMBS_UP], 5 * MICROS_PER_SECOND);
            var h := OnReaction(u, Some(0), Fetched(Some("AI art: @CreAItors_Bot")), BIO_KEYWORD, BanDone);
            h == Handling([GetChat(7), BanChatMember(1, 7)], Banned(1, 7, false))
  {
    MixedCaseBioMatches();
  }

  /** A reaction 12 s after the message: skipped with no profile fetch and no ban, whatever the profile. */
  lemma LateReactionSkips(profile: ProfileFetch, ban: BanCall)
    ensures var u := ReactionUpdate(1, 100, Some(7), [], [THUMBS_UP], 12 * MICROS_PER_SECOND);
            OnReaction(u, Some(0), profile, BIO_KEYWORD, ban) == Handling([], Skipped(TooLate(12 * MICROS_PER_SECOND)))
  {
  }

  /** A reaction that is not the message's first: the rule is not triggered. */
  lemma SecondReactionNotHandled(messageDate: Option<Timestamp>, profile: ProfileFetch, ban: BanCall)
    ensures var u := ReactionUpdate(1, 100, Some(7), [THUMBS_UP], [THUMBS_UP], 5 * MICROS_PER_SECOND);
            OnReaction(u, messageDate, profile, BIO_KEYWORD, ban) == Handling([], NotHandled)
  {
  }

  /** The ban call fails: the failure is logged and the handler still returns normally. */
  lemma FailedBanReturnsNormally()
    ensures var u := ReactionUpdate(1, 100, Some(7), [], [THUMBS_UP], 5 * MICROS_PER_SECOND);
            var h := OnReaction(u, Some(0), Fetched(Some("AI art: @CreAItors_Bot")), BIO_KEYWORD, BanApiError);
            h == Handling([GetChat(7), BanChatMember(1, 7)], Banned(1, 7, true))
  {
    MixedCaseBioMatches();
  }
}
