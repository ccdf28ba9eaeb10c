# neiro2ban: recency tracker and reaction moderation rule

neiro2ban is a Telegram moderation bot in one file, `main.py`. It has two pieces of logic, and this Dafny project models both.

- **Recency tracker.** `message_dates` maps `(chat id, message id)` to the send date of each supergroup message. Each supergroup message is stored under its key. Then every entry older than `REACTION_SECONDS_THRESHOLD` (10 s) is deleted. Age is measured against the *new message's* date, not the wall clock.
- **Reaction moderation rule.** The `message_reaction` handler runs only on the first reaction a user adds to a message. It skips the update in four cases: the message is untracked, the reaction came more than 10 s after the message, the user has no bio, or the bio does not contain `@creaitors_bot` (ignoring case). Otherwise it bans the user from the chat. A platform error from the ban is logged and swallowed.

Modules:

- `Wrappers` (`wrappers.dfy`): the `Option` type.
- `MessageTracker` (`tracker.dfy`):
  - the class `MessageDates`, whose `dates : map<Key, Timestamp>` field is the dictionary;
  - `HandleMessage`, which inserts and then deletes stale keys in a loop over a snapshot;
  - `Lookup`, a read-only query;
  - the pure functions `Swept` and `Recorded`, which specify `HandleMessage`, and the lemmas about them.
- `CaseFolding` (`casefold.dfy`): case folding and Python's `in` on strings.
- `ReactionModeration` (`moderation.dfy`):
  - the filter and the guard chain, as pure functions;
  - the handler method, which reads the tracker and never writes it.
- `Scenarios` (`scenarios.dfy`): worked cases, including a client of the class.

Modelling choices:

- **Time.** Dates are integer microseconds. The source's `(a - b).total_seconds() > 10` becomes the exact test `a - b > 10_000_000` (`ExceedsThreshold`).
- **Network calls.** `bot.get_chat` and `bot.ban_chat_member` are inputs:
  - `ProfileFetch` is either the optional bio or a platform error;
  - `BanCall` is either done or `TelegramAPIError`.
- **Call trace.** Each `Handling` records the outbound calls the handler makes, in order. This is how "no profile fetch" and "exactly one ban" are stated.
- **Keyword.** The keyword is a parameter of the rule. `HandleMessageReaction` passes the constant `BIO_KEYWORD`.
- **Profile fetch errors.** In the source, an exception from `bot.get_chat` is not caught. The model therefore gives outcome `Raised(ProfileFetchError)`. A failed ban gives `Banned(..., banFailed := true)`: the handler returns normally.
- **Tracker is read-only here.** `HandleMessageReaction` has no `modifies` clause, so the verifier guarantees it leaves `tracker.dates` unchanged.

## Model

| member | source | states |
|---|---|---|
| `MessageTracker.Get` | main.py:55 | `dict.get` on the tracker: `Some(d)` exactly when the key is present, with its stored date; otherwise `None`. |
| `MessageTracker.Swept` | main.py:40-43 | The sweep only removes. An entry is kept iff its age against the sweeping date is at most the threshold, and kept values are unchanged. |
| `MessageTracker.Recorded` | main.py:38-43 | After recording key k at T: the map holds k ↦ T, since k survives its own sweep. Every remaining entry v has T − v ≤ threshold. No key except k is added, and no other value changes. Every other entry with T − v ≤ threshold is kept, future-dated entries included. |
| `MessageTracker.OnMessage` | main.py:36-43 | The `F.chat.type == SUPERGROUP` filter with the handler. A message from any other chat type leaves the map unchanged. A supergroup message is tracked at its date, leaves only entries within the threshold of that date, and keeps every entry within the threshold. Either way, every other remaining entry was already there, unchanged. |
| `MessageTracker.OnMessages` | main.py:36-43 | Over a sequence of messages, every tracked entry either was already there with the same date, or is the date of some supergroup message with that key. |
| `MessageTracker.RecordedIdempotent` | main.py:38-43 | Recording the same key with the same date twice gives the same map as recording it once. |
| `MessageTracker.EntrySurvives` | main.py:36-43 | Over any sequence of messages, an entry stays tracked with its date while no later supergroup message overwrites its key or finds it older than the threshold. |
| `MessageTracker.StaleEntryStaysEvicted` | main.py:36-43 | Once evicted, a key stays absent until a supergroup message with that key arrives. |
| `MessageTracker.MessageDates.constructor` | main.py:20 | The dictionary starts empty. |
| `MessageTracker.MessageDates.HandleMessage` | main.py:36-43 | A supergroup message leaves `dates == Recorded(old(dates), key, date)`: insert, then a loop over a snapshot that deletes stale keys. A message from any other chat type changes nothing. |
| `MessageTracker.MessageDates.Lookup` | main.py:55 | A read with no effect: it finds the key iff it is tracked, and returns its stored date. |
| `CaseFolding.FoldChar` | main.py:72 | ASCII upper-case letters fold to the letter 32 code points higher; every other character is unchanged. |
| `CaseFolding.CaseFold` | main.py:72 | Folding keeps the length and folds each character. |
| `CaseFolding.CaseFoldIdempotent` | main.py:72 | Folding an already folded string changes nothing. |
| `CaseFolding.IsSubstring` | main.py:72 | Python's `needle in hay`: true iff the needle occurs in the hay at some index. |
| `CaseFolding.OccursShift` | main.py:72 | When there is no match at index 0, an occurrence in the string is the same as an occurrence in its tail. |
| `CaseFolding.FoldPreservesOccurrence` | main.py:72 | An occurrence of the keyword in the bio is still an occurrence after both are folded. |
| `ReactionModeration.Moderate` | main.py:54-82 | The guard chain after the filter. Every update is skipped, banned or raised; none is "not handled". An untracked or stale message is skipped with no call made. Otherwise the first call fetches the reacting user's profile. A ban, the only outcome with a second call, happens iff the bio is present and holds the keyword. Only a failed fetch raises, and then with the profile fetch error. |
| `ReactionModeration.OnReaction` | main.py:46-82 | Anything but a first reaction by a user is not handled. An untracked message, or one more than the threshold older than the reaction, is skipped with no call made. Otherwise the user's profile is fetched first. A missing bio or a missing keyword is skipped, and a failed fetch raises; in these three cases the fetch is the only call. The outcome is a ban iff every guard passes, and then the handler makes one ban call, for the reacting user in the reaction's chat. A failed ban never escapes; only a failed profile fetch raises, and it raises the profile fetch error. |
| `ReactionModeration.BanFailureSwallowed` | main.py:79-82 | A failed ban call makes the same calls and reaches the same verdict as a successful one. Only the logged failure differs. |
| `ReactionModeration.MatchIgnoresCase` | main.py:72 | Two keywords that differ only in letter case, checked against two bios that differ only in letter case, give the same result. |
| `ReactionModeration.OnReactionAsWritten` | main.py:46-82 | The handler as written. A first reaction with a custom emoji raises at the log line with no call made, whatever the tracker and the profile say. A ban therefore needs a plain-emoji reaction as well as every guard. |
| `ReactionModeration.AsWrittenAgreesOnEmoji` | main.py:50-52 | For plain emoji reactions, the handler as written behaves exactly like the model. |
| `ReactionModeration.CustomEmojiEscapesBan` | main.py:50-52 | Take a first custom-emoji reaction, 5 s after a tracked message, by a user whose bio is the keyword. The handler as written raises before the lookup; the model bans. |
| `ReactionModeration.HandleMessageReaction` | main.py:46-82 | The handler with the corrected log line (see Findings). It looks up the message's tracked date with the `(chat id, message id)` key, then applies `OnReaction` with `BIO_KEYWORD`, so a custom-emoji reaction also runs the guards; the handler as written would raise at main.py:51 (`OnReactionAsWritten`). It writes nothing to the tracker. |
| `Scenarios.KeywordIsFolded` | main.py:23 | `BIO_KEYWORD` is already case folded. |
| `Scenarios.MixedCaseBioMatches` | main.py:72 | The bio `AI art: @CreAItors_Bot` matches the keyword. |
| `Scenarios.FreshReactionWithKeywordBans` | main.py:55-82 | A reaction 5 s after the message, by a user whose bio holds the keyword: the profile is fetched, then the user is banned once. |
| `Scenarios.LateReactionSkips` | main.py:62-65 | A reaction 12 s after the message is skipped with no fetch and no ban, whatever the profile and the ban result. |
| `Scenarios.SecondReactionNotHandled` | main.py:46 | An update whose old reaction list is non-empty is not handled. |
| `Scenarios.FailedBanReturnsNormally` | main.py:79-82 | When the ban call fails with an API error, the handler returns normally with the ban recorded as failed. |

## Left out

- The startup hook (`delete_webhook`), `.env` loading, the `Bot` and `Dispatcher` construction, and `start_polling` (main.py:10-17, 26-28, 85-91). These are framework plumbing.
- `handle_start_command` (main.py:31-33). It touches neither the tracker nor the rule. As written, its decorator names `CommandStart`, which is never imported (main.py:5-8). Loading the module therefore raises `NameError` at main.py:31, before `handle_message` and `handle_message_reaction` are registered and before `main()` runs, so the bot as written never starts. The model assumes the missing import is added.
- Logging, including what the log lines say. Only their effect on control flow is modelled: the reaction log line at main.py:50-52 appears in the Findings below.
- The network calls themselves. Their results are parameters, and every exception type beyond the platform error in the ban call and a failure of the profile fetch is left out.
- asyncio scheduling. The model handles one event at a time with no interleaving at await points.
- `datetime` and float arithmetic. `total_seconds()` on integer-microsecond differences is replaced by exact integer comparison.
- `CaseFolding.FoldChar`, `CaseFolding.CaseFold`: only ASCII letters are folded, not the full Unicode `str.casefold`; the matching lemmas are stated on this folding.
- Python's dictionary iteration order during the sweep. The result of the sweep does not depend on it, and the model deletes keys in an arbitrary order.
- Reaction types other than plain and custom emoji (for example paid reactions) are not modelled.

## Findings

| source | as written | input that shows it | evidently intended | confidence | as-written member | corrected member |
|---|---|---|---|---|---|---|
| main.py:50-52 | The log call at main.py:50-52, before the lookup, reads `update.new_reaction[0].emoji`. A custom-emoji reaction type carries only `custom_emoji_id`, so the attribute access raises and the handler stops before the lookup at main.py:55 and every guard. | A first reaction with one custom emoji, 5 s after a tracked message, by a user whose bio contains the keyword. | Log the reaction and run the guard chain for every reaction type, so such a user is banned. | medium, not executed | `ReactionModeration.CustomEmojiEscapesBan` | `ReactionModeration.OnReaction` |
