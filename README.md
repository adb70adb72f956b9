# Moderation and referral bots: a Dafny model of the decision logic

The repository holds several Telegram bots that share one SQLite store:

- a moderation bot (`bot.py`) with its own warning counters, activity log and referral table;
- a multipurpose group bot (`multipurpose_bot.py`) with warnings, strikes, per-group settings, media locks, a captcha and event referrals;
- three contest-bot variants (`enhanced_bot.py`, `stable_bot.py`, `fixed_bot.py`) that register users from `/start` codes and run an event-creation dialogue;
- the store itself (`database.py`).

This project models the stateful decision logic inside those handlers once every Telegram call is abstracted away:

- the two warning ledgers and the referral and activity tables;
- the warn escalation of the multipurpose bot and the group-settings commands, clamps and toggles around it;
- the media-lock rule, and the captcha bookkeeping of the group handler;
- how each bot turns a `/start` argument into a referrer and an event, and registers a newcomer only once;
- the event-creation dialogue kept in `user_data`, event membership, and callback dispatch.

Layout, one module per file:

| file | module | models |
|---|---|---|
| `common.dfy` | `Common`, `PyStr` | `Option`, `dict.get`, and the Python string operations the handlers use (`strip`, `lower`, `split`, `int`, `str`, `join`) |
| `ranking.dfy` | `Ranking` | insertion into a list ordered by a key, used for the `ORDER BY ... DESC` queries |
| `database.py` → `database.dfy` | `SqliteStore` | the class `Database` over its `warnings` rows, `user_activity` rows and `referrals` rows |
| `bot.py` → `freshbot.dfy` | `FreshBot` | the class `Bot` over its own `warnings`, `activity` and `referrals` tables, and its commands |
| `assumed_store.dfy` | `AssumedStore` | the `Database` methods the other bots call that `database.py` does not define (see below) |
| `multipurpose_bot.py` → `moderation.dfy`, `moderation_commands.dfy` | `Moderation`, `ModerationCommands` | immunity, escalation, settings commands, media locks, captcha, group handler |
| `enhanced_bot.py`, `multipurpose_bot.py` → `links.dfy` | `Links` | the Telegram-link checks and the `@name` rewrite |
| all four contest variants → `start_codes.dfy` | `StartCodes` | `/start` code resolution and registration |
| `enhanced_bot.py`, `stable_bot.py` → `event_flow.dfy` | `EventFlow` | the class `Session` over `user_data`, the dialogue, and `join_event_confirm` |
| `enhanced_bot.py`, `stable_bot.py`, `multipurpose_bot.py` → `callbacks.dfy` | `Callbacks` | `button_handler` prefix dispatch and the callback-handler registration order |

**Assumed store behaviour.** The multipurpose and contest bots call store methods that no file defines: `increment_warning`, `add_strike`, `get_group_settings`, `set_group_setting`, `add_user`, `get_user`, `get_user_by_referral_code`, `get_event_by_code` and `create_event`; their `clear_warnings` then acts on the counters `increment_warning` keeps. `AssumedStore` gives each one the smallest behaviour the callers rely on:

- a counter returns its stored value plus one and stores it;
- a lookup finds what was stored;
- a settings write overwrites one key of one chat;
- `get_group_settings` returns the stored keys over the defaults 3, 10, 0, 1 and 1 for `warn_threshold`, `mute_minutes_default`, `anti_links`, `auto_ban_on_repeat` and `strikes_reset_on_mute`.

These are assumptions, not facts derived from code. Everything proved about the multipurpose and contest bots holds relative to them.

**Platform calls.** A platform call whose outcome changes what the handler does next becomes a boolean input, true when the call returned without an exception:

- `replyOk` is the "Warned" reply of both `/warn` handlers, which stands outside any `try` before the threshold test, and the answer the contest bots send after a store call and before `user_data.clear()`;
- `noticeOk` is the "Warning n/t" notice of the multipurpose group handler, sent before its threshold test;
- `editOk` is the confirmation edit of `skip_group_link`, made before `user_data.clear()`;
- `banOk` is the ban call, and `muteOk` the restrict call together with the notice sent right after it, since both stand before the clear in one `try`;
- `notifyOk` is the notice after a ban in `bot.py`.

Every other send either ends the handler after its last state change or sits in a `try` of its own whose failure changes no state. The answer to a note or filter trigger in the group handler is folded into its `triggered` input: an answer that raised falls through to the checks after it, which is `triggered == false`. The issuer's administrator list is an input (`admins`, `None` when fetching it failed). So are the captcha messages that were sent (`sent`, with the message id or `None`). Clock values are a `now` parameter. Fresh referral codes, event codes and event ids are parameters that the caller guarantees are unused.

## Model

| member | source | states |
|---|---|---|
| SqliteStore.Database.constructor | database.py:32-72 | the warning, activity and referral tables start empty |
| SqliteStore.Database.AddWarning | database.py:93-106 | exactly one row (fresh id, chat, user, reason, now, warned_by) is appended and True is returned; the activity and referral tables are untouched |
| SqliteStore.Database.GetWarnings | database.py:108-121 | the result is a permutation of exactly the rows of that (chat, user) pair, in non-increasing timestamp order |
| SqliteStore.Database.ClearWarnings | database.py:123-136 | every row of the pair is removed, and only those; the result is True iff at least one row matched |
| SqliteStore.Without | database.py:127-130 | the rows kept are exactly those of other pairs, and kept plus matching rows account for all rows |
| SqliteStore.Matching | database.py:112-118 | the rows selected are exactly those of that pair |
| SqliteStore.MatchingAppend | database.py:97-103 | after an append, the pair's rows gain the new row iff it belongs to that pair |
| SqliteStore.ClearedNoMatch | database.py:127-133 | after clearing, the pair has no rows, so a second clear returns False |
| SqliteStore.ClearKeepsOthers | database.py:127-133 | clearing one pair leaves every other pair's rows as they were |
| SqliteStore.ClearIdempotent | database.py:127-133 | clearing twice leaves the same rows as clearing once |
| SqliteStore.Database.UpdateUserActivity | database.py:139-170 | the activity table becomes `Touched(old, ...)` |
| SqliteStore.Touched | database.py:148-164 | an existing row gets count + 1, last_active = now, the same join_date, and each name field replaced only by a non-null value; a missing row is inserted with count 1 and last_active = join_date = now; other rows are unchanged |
| SqliteStore.ActiveUsers | database.py:177-182 | a user is counted iff it has a row in that chat with last_active in the closed interval [start, end] |
| SqliteStore.Database.GetActiveUsersCount | database.py:172-185 | the count equals the number of distinct active users of the chat in the interval |
| SqliteStore.ActiveAfterTouch | database.py:148-182 | a touch adds the user to the active set when now is in the interval and removes it otherwise; other users are unaffected |
| SqliteStore.ChatUsers | database.py:190-196 | the users of a chat are exactly those with a row in it |
| SqliteStore.Database.RankChatUsers | database.py:190-197 | all users of the chat, each once, with their stored row, sorted by message count descending |
| SqliteStore.RankStep | database.py:190-197 | inserting the next user at its place keeps the list sorted, distinct and faithful to the rows |
| SqliteStore.RankedPrefix | database.py:190-197 | the first `limit` entries of the full ranking are a top listing: sorted, distinct, of length min(limit, users), and no user left out has more messages than any listed one |
| SqliteStore.Database.GetTopActiveUsers | database.py:187-203 | the result is such a top listing for the chat and limit |
| SqliteStore.Database.AddReferral | database.py:205-218 | a new (referrer, referred) pair is stored with now and True is returned; a duplicate returns False and changes nothing (the key is the table's unique pair, lines 66-72) |
| SqliteStore.PairsOf | database.py:223-227 | the pairs counted are exactly the stored pairs with that referrer |
| SqliteStore.Database.GetReferralCount | database.py:220-232 | the count equals the number of stored pairs with that referrer |
| SqliteStore.ReferralCountAfterAdd | database.py:205-229 | a referrer's count grows by one exactly when the insert added a new pair of that referrer, and is unchanged otherwise |
| FreshBot.Bot.constructor | bot.py:28-64 | the three tables start empty |
| FreshBot.Bot.AddWarning | bot.py:106-128 | returns the previous count plus one (1 when there was no row) and stores it with the new reason and timestamp |
| FreshBot.Bumped | bot.py:110-128 | the pair's counter is one more than before with the new reason and time; every other pair is unchanged |
| FreshBot.Bot.ClearWarnings | bot.py:130-133 | the pair's row is deleted, so its count reads 0 |
| FreshBot.ClearThenWarn | bot.py:115-133 | after a clear, the next warning returns 1 |
| FreshBot.BumpNeverDecreases | bot.py:110-128 | a warning never lowers any pair's count |
| FreshBot.Bot.RecordActivity | bot.py:135-141 | one (chat, user, now) event is appended |
| FreshBot.Bot.RecordReferral | bot.py:143-152 | the referral table becomes `Referred(old, ...)` |
| FreshBot.Referred | bot.py:143-152 | a self-referral and an existing pair change nothing; a new pair is stored with now |
| FreshBot.ReferredIdempotent | bot.py:147-152 | repeating a referral changes nothing and keeps the first timestamp (the table's key, lines 55-61) |
| FreshBot.ParseTarget | bot.py:157-176 | a reply's sender wins; otherwise the second whitespace token is used iff it is all ASCII digits; otherwise None |
| FreshBot.WarnReason | bot.py:226 | with at most two words the reason is "No reason provided"; otherwise its words are exactly the words after the second |
| FreshBot.StartReferrer | bot.py:185-190 | a referrer is read only in a private chat, and exactly when the first argument parses as an integer |
| FreshBot.Bot.CmdStart | bot.py:179-190 | the referral table changes only by recording (referrer, caller) when `StartReferrer` yields a referrer |
| FreshBot.ReferralLinkRoundTrip | bot.py:185-207 | the code in the bot's own referral link, the decimal user id, gives back that id |
| FreshBot.Bot.CmdWarn | bot.py:222-242 | outside a group, or without a truthy target, nothing changes; otherwise the count goes up by one; when the "Warned" reply raises nothing else happens; otherwise a ban is attempted iff the count reaches the threshold, and the counter is cleared only if the ban and the notice both returned without error |
| FreshBot.MsgCount | bot.py:288-313 | a user's count is positive iff some event of that chat and user is at or after `since` (every event when `since` is 0) |
| FreshBot.Posters | bot.py:288-313 | the users listed are exactly those with a positive count |
| FreshBot.CountAntitone | bot.py:288-313 | a later `since` never raises a count |
| FreshBot.PeriodsNest | bot.py:278-286 | day ≤ week ≤ month ≤ all-time counts, and any other period word means all time |
| FreshBot.Period | bot.py:278 | the period is the first argument lowered, and "all" without one |
| FreshBot.PeriodSince | bot.py:280-286 | day, week and month start 1, 7 and 30 days before now; any other word, "all" included, counts from 0 |
| FreshBot.ListStep | bot.py:288-314 | inserting the next poster at its place keeps the listing sorted, distinct and correctly counted |
| FreshBot.ListingPrefix | bot.py:288-314 | the first 25 entries of the full listing are the top posters: sorted, distinct, of length min(25, posters), and nobody left out outranks a listed user |
| FreshBot.TopPosters | bot.py:288-314 | the rows are what `ORDER BY msgs DESC LIMIT` can return: posters once each with their counts, sorted, as many as the limit allows, none left out with more messages |
| FreshBot.Bot.ListPosters | bot.py:288-314 | every poster of the chat since `since`, once, with its count, sorted by count descending |
| FreshBot.Bot.CmdActivity | bot.py:273-314 | outside a group the bot refuses; in a group the period is the first argument lowered (default "all"), and the rows are the top 25 posters since that period's start |
| FreshBot.ReplyReasonLost | bot.py:222-228 | as written, "/warn spam" sent as a reply records no reason |
| FreshBot.IntendedReasonKeepsWords | bot.py:226 | with the corrected reason rule, the recorded reason's words are exactly the words after the target, as the help at lines 195 and 213 describes |
| AssumedStore.Effective | multipurpose_bot.py:1251-1258 | assumed: settings read for a chat hold every default key, keep every stored value, and fall back to the defaults elsewhere |
| AssumedStore.ReadAfterWrite | multipurpose_bot.py:2252 | assumed: a written setting reads back, and other chats' settings are unchanged (also line 2272) |
| AssumedStore.ModerationStore.constructor | multipurpose_bot.py:1250-1255 | assumed: the ledgers, the settings and the activity log start empty |
| AssumedStore.ModerationStore.IncrementWarning | multipurpose_bot.py:1250 | assumed: returns the stored warning count plus one and stores it; nothing else changes |
| AssumedStore.ModerationStore.AddStrike | multipurpose_bot.py:1255 | assumed: returns the stored strike count plus one and stores it; nothing else changes |
| AssumedStore.ModerationStore.ClearWarnings | multipurpose_bot.py:1266 | assumed: removes the pair's warning count and keeps its strikes (also line 1287) |
| AssumedStore.ModerationStore.SetGroupSetting | multipurpose_bot.py:2252 | assumed: overwrites one key of one chat (also line 2272) |
| AssumedStore.ModerationStore.RecordActivity | multipurpose_bot.py:724 | assumed: appends one (chat, user) entry |
| AssumedStore.ReferralStore.constructor | enhanced_bot.py:90-121 | assumed: the user, event and participant tables start empty |
| AssumedStore.ReferralStore.ActiveEventCodes | multipurpose_bot.py:447-453 | the codes looked up are exactly those of stored events that are active |
| AssumedStore.ReferralStore.AddUser | enhanced_bot.py:96-103 | assumed: stores one new user row under a fresh code and returns that code |
| AssumedStore.ReferralStore.CreateEvent | enhanced_bot.py:392 | assumed: stores one new active event under a fresh id and code and returns the code |
| AssumedStore.ReferralStore.UpdateEventGroupLink | enhanced_bot.py:449 | assumed: only an existing event's group link changes, and the result says whether it existed |
| Moderation.OwnerOf | multipurpose_bot.py:1180-1187 | the owner found is the first administrator with status "creator", and there is none iff no administrator has that status |
| Moderation.IsGroupAdmin | multipurpose_bot.py:1160-1165 | a user is an administrator iff the fetch succeeded and some entry of the list has its id; a failed fetch means no |
| Moderation.HasImmunity | multipurpose_bot.py:1167-1191 | a target is immune iff it is the issuer, the bot, or an administrator (the owner is one); the reason is the first that applies in the order issuer, bot, owner, administrator, each case stated as an iff |
| Moderation.TargetById | multipurpose_bot.py:1194-1206 | without a reply, a decimal id as first argument names that user |
| Moderation.ParseTargetUser | multipurpose_bot.py:1194-1206 | a reply names its sender; otherwise the target is the first argument read by `int()`, and nobody without arguments |
| Moderation.WarnReason | multipurpose_bot.py:1245-1249 | a reason exists only with arguments, and with more than one when there is no reply; it is never empty |
| Moderation.ReasonKeepsWords | multipurpose_bot.py:1245-1249 | the reason is all arguments when replying and the arguments after the id otherwise, and is None iff there are none |
| Moderation.Escalate | multipurpose_bot.py:1250-1289 | count = old + 1 and is stored; when the "Warned" reply raises nothing else happens; otherwise below the threshold only the count is stored, and at or above it exactly one strike is added and exactly one of ban (iff auto-ban is on and strikes ≥ 2) or mute follows; the ban branch always clears warnings, and the mute branch clears them iff the restrict call succeeded and reset-on-mute is on |
| Moderation.WarnOutcome | multipurpose_bot.py:1228-1293 | a warning is issued iff in a group, the issuer is an administrator, a target parses and it is not immune; otherwise the ledger is unchanged; a warned target is never the issuer or an administrator, and its ledger step, failed reply included, is `Escalate` |
| Moderation.StrikesOnlyGrow | multipurpose_bot.py:1250-1289 | a warn command raises at most the target's strikes, by at most one, and never lowers any |
| Moderation.WarnsStayBelowThreshold | multipurpose_bot.py:1250-1289 | with reset-on-mute on and successful enforcement, the stored warning count stays below the threshold while the "Warned" reply goes out; when that reply raises, a count one below the threshold reaches it and stays there with no strike |
| Moderation.EscalationScenario | multipurpose_bot.py:1250-1289 | with the default settings, the third warning mutes for 10 minutes and clears, and the sixth bans and clears with 2 strikes |
| Moderation.AutoWarn | multipurpose_bot.py:843-863 | the automatic warning adds one to the count and never a strike; when its notice raises nothing else happens; otherwise it mutes iff the count reaches the threshold, and clears iff the mute succeeded and reset-on-mute is on (also lines 889-906) |
| Moderation.SettingOr | multipurpose_bot.py:844-847 | a stored non-zero setting is used; a missing or zero one reads as the default (also lines 890-892) |
| Moderation.FirstLockHit | multipurpose_bot.py:871-887 | the lock found is present and locked, and no earlier lock in list order is both |
| Moderation.Clamp | multipurpose_bot.py:1764-1767 | the value stays in [lo, hi], equals v inside it and the nearer bound outside it |
| Moderation.ConfigWrite | multipurpose_bot.py:1721-1784 | a write happens only for toggle, inc and dec with a key; a toggle writes 1 iff the current value is falsy; inc and dec move `warn_threshold` within [1, 10] and `mute_minutes_default` within [1, 10080] by at most one from an in-range value |
| Moderation.ToggleTwice | multipurpose_bot.py:1758-1761 | toggling a 0/1 setting twice restores it |
| Moderation.LockAllButtonIgnored | multipurpose_bot.py:1721-1784 | as written, the "Lock all" buttons write nothing (also lines 2468-2469) |
| Moderation.UnknownActionIgnored | multipurpose_bot.py:1733-1771 | data whose action is not toggle, inc or dec writes nothing |
| Moderation.LockAllWrites | multipurpose_bot.py:2424-2426 | one write of the same value for each lock key, in list order |
| Moderation.IntendedLockAllButtonWrites | multipurpose_bot.py:2468-2469 | with the corrected callback, each "Lock all" button writes every lock key to 1 or 0 |
| Moderation.IntendedLockAllSetsEveryLock | multipurpose_bot.py:2468-2469 | with the corrected callback, after a "Lock all" button every lock reads 1 (on) or 0 (off) |
| Moderation.IntendedLockAllMatchesCommand | multipurpose_bot.py:2411-2429 | the corrected button writes exactly what `/lockall on` or `/lockall off` writes (also lines 2468-2469) |
| Moderation.SetWarnsValue | multipurpose_bot.py:2249-2252 | a value is written iff the argument parses as an integer, and it lies in [1, 10] |
| Moderation.SetWarnsExact | multipurpose_bot.py:2249-2252 | an integer in [1, 10] is stored as is, and a larger one as 10 |
| Moderation.SetMuteValue | multipurpose_bot.py:2269-2272 | a value is written iff the argument parses, and it lies in [1, 1440] |
| Moderation.SetMuteCutsAdvertisedMax | multipurpose_bot.py:1705 | as written, `/setmute 10080`, the advertised maximum, stores 1440 (also line 2271) |
| Moderation.IntendedSetMuteValue | multipurpose_bot.py:1705 | with the corrected clamp, the value lies in [1, 10080] (also lines 1766-1767) |
| Moderation.IntendedSetMuteExact | multipurpose_bot.py:1705 | with the corrected clamp, every advertised value 1-10080 is stored as given |
| Moderation.SetFlagValue | multipurpose_bot.py:2277-2311 | "on" and "off" (any case) give 1 and 0; anything else, or no argument, flips the current value |
| Moderation.AntiLinksValue | multipurpose_bot.py:1665-1684 | the new value is 1 iff the current one is falsy |
| Moderation.LockAlias | multipurpose_bot.py:2377-2389 | an accepted name always maps to one of the eight lock keys |
| Moderation.NormalizeLockKey | multipurpose_bot.py:2377-2389 | the normalized key, when there is one, is a lock key |
| Moderation.CanonicalLockName | multipurpose_bot.py:2377-2389 | a lowercase alias normalizes to its key |
| Moderation.LockNamesRoundTrip | multipurpose_bot.py:2377-2389 | the lock name shown in each media warning normalizes back to that lock's key (also line 888) |
| Moderation.LockWrite | multipurpose_bot.py:2391-2409 | `/lock` writes iff there are two arguments and the first names a lock; the value is 1 iff the second is "on" in any case |
| Moderation.LockAllValue | multipurpose_bot.py:2411-2429 | `/lockall` accepts exactly "on" or "off" in any case as the first argument, giving 1 or 0 |
| ModerationCommands.WarnCommand | multipurpose_bot.py:1228-1293 | the ledger and the reply are `WarnOutcome` of the old ledger, the chat's settings and the outcomes of the reply, ban and restrict calls; settings and activity are untouched |
| ModerationCommands.EscalateStore | multipurpose_bot.py:1250-1289 | the increment, strike and clear calls leave the ledger as `Escalate` says, including the stop after a failed "Warned" reply |
| ModerationCommands.SetWarnsCommand | multipurpose_bot.py:2237-2255 | outside a group or for a non-administrator nothing is written; no argument shows the current threshold (default 3); an integer argument writes the clamped value; anything else shows the usage |
| ModerationCommands.SetMuteCommand | multipurpose_bot.py:2257-2275 | the same for the mute length, clamped to [1, 1440], default 10 |
| ModerationCommands.SetFlagCommand | multipurpose_bot.py:2277-2311 | an administrator in a group always writes the flag, as `SetFlagValue` decides from the current value (default 1) |
| ModerationCommands.AntiLinksCommand | multipurpose_bot.py:1665-1684 | an administrator in a group always flips `anti_links` |
| ModerationCommands.LockCommand | multipurpose_bot.py:2391-2409 | a write happens iff the issuer may and `/lock` names a lock and a state |
| ModerationCommands.LockAllCommand | multipurpose_bot.py:2411-2429 | a write of every lock key happens iff the issuer may and the argument is "on" or "off" |
| ModerationCommands.ConfigCallback | multipurpose_bot.py:1721-1784 | a write happens iff in a group, the user is an administrator and `ConfigWrite` yields one |
| ModerationCommands.ApplyWritesSnoc | multipurpose_bot.py:2424-2426 | applying one more write is one more settings write |
| ModerationCommands.ApplyWritesOtherChat | multipurpose_bot.py:2424-2426 | writes to one chat leave every other chat's settings unchanged |
| ModerationCommands.WriteAll | multipurpose_bot.py:2424-2426 | the loop leaves the settings as applying every write in order, and changes nothing else |
| ModerationCommands.RunCommand | multipurpose_bot.py:1758-1771 | the settings become those after the command's writes; nothing else changes |
| ModerationCommands.SetWarns | multipurpose_bot.py:2237-2255 | the reply is `SetWarnsCommand` of the chat's settings; the settings change by its writes only |
| ModerationCommands.SetMute | multipurpose_bot.py:2257-2275 | the reply is `SetMuteCommand`; the settings change by its writes only |
| ModerationCommands.SetFlag | multipurpose_bot.py:2277-2311 | the reply is `SetFlagCommand`; the settings change by its writes only |
| ModerationCommands.AntiLinks | multipurpose_bot.py:1665-1684 | the reply is `AntiLinksCommand`; the settings change by its writes only |
| ModerationCommands.Lock | multipurpose_bot.py:2391-2409 | the reply is `LockCommand`; the settings change by its writes only |
| ModerationCommands.LockAll | multipurpose_bot.py:2411-2429 | the reply is `LockAllCommand`; the settings change by its writes only |
| ModerationCommands.GroupConfig | multipurpose_bot.py:1721-1784 | the reply is `ConfigCallback`; the settings change by its writes only |
| ModerationCommands.LockAllSetsEveryLock | multipurpose_bot.py:2411-2429 | after `/lockall`, every lock of the chat reads the given value and other chats are unchanged |
| ModerationCommands.OnlyAdminsWrite | multipurpose_bot.py:1721-2429 | outside a group or for a non-administrator, no settings command and no config button writes anything |
| ModerationCommands.CaptchaBook.constructor | multipurpose_bot.py:750-776 | no challenge is pending at first |
| ModerationCommands.CaptchaBook.RecordChallenges | multipurpose_bot.py:755-776 | the pending map becomes `Challenges(old, ...)` |
| ModerationCommands.ChallengesRecorded | multipurpose_bot.py:755-776 | a challenge is pending exactly for each new member whose message was sent, and every other entry is kept |
| ModerationCommands.GroupOutcome | multipurpose_bot.py:710-911 | strikes never change; a warning is issued iff a non-administrator's message, not answered by a note or filter, has a link while anti-links is on or has a present locked media type; links are handled before media; the media warning names the first locked type; at most one warning per message; its ledger step, failed notice included, is `AutoWarn` |
| ModerationCommands.FirstLockedIndex | multipurpose_bot.py:871-887 | the loop with its break finds `FirstLockHit` |
| ModerationCommands.AdminsNotEnforced | multipurpose_bot.py:731-736 | an administrator's message, or one answered by a note or filter, never changes the ledger (also lines 778-802) |
| ModerationCommands.AutoWarnStore | multipurpose_bot.py:843-863 | the increment and clear calls leave the ledger as `AutoWarn` says, including the stop after a failed notice (also lines 889-906) |
| ModerationCommands.GroupMessageHandler | multipurpose_bot.py:710-911 | the ledger and action are `GroupOutcome` for the given notice and restrict outcomes; the activity log gains the sender iff there is a message and a sender in a group; settings are untouched; challenges are recorded only for a non-administrator's message while the captcha is on |
| Links.IsValidTelegramLink | enhanced_bot.py:33-45 | the pattern loop returns True iff the stripped link matches one of the four anchored forms |
| Links.EnhancedValidLink | enhanced_bot.py:33-45 | the stripped link matches one of the four anchored patterns |
| Links.ValidLinkIsTmeOrName | enhanced_bot.py:33-45 | every accepted link, once stripped, is a `https://t.me/` URL or an `@name` |
| Links.FormatGroupLink | enhanced_bot.py:138-140 | an `@name` becomes `https://t.me/name` with the same name; any other link is kept (also lines 734-736) |
| Links.FormattedLinkValid | enhanced_bot.py:138-140 | an accepted stored link becomes a `https://t.me/` URL that is still accepted; a link not starting with `@` is kept as it is (also lines 734-736) |
| Links.MpIntendedIsTme | multipurpose_bot.py:1956-1959 | the corrected check accepts only `https://t.me/` links (besides `@...`), all of which the code as written accepts too |
| Links.MpValidLinkAsWritten | multipurpose_bot.py:1956-1959 | an accepted link starts with `@`, or starts `https://t`, one arbitrary character, then `me/` |
| Links.MpDotMatchesAnyHost | multipurpose_bot.py:1959 | as written, "https://tXme/abc" is accepted; the corrected check rejects it |
| StartCodes.ContestResolve | enhanced_bot.py:56-88 | no argument gives no referrer; an event code gives the join prompt for that event; a bare code sets no event and sets the referrer iff it is the code of a user other than the caller, and then that user; a code with `_` sets both referrer and event or neither, both exactly when it splits into a known user's code (not the caller's) and a known event code, and then to those two. `stable_bot.py:43-70` is the same decision |
| StartCodes.FixedResolve | fixed_bot.py:38-45 | a referrer is set iff the argument is a known code of a user other than the caller, and it is that user |
| StartCodes.MultipurposeResolve | multipurpose_bot.py:435-454 | the argument never prompts; with a `_`, the referrer is set iff the part before the first `_` is a known code, and then to its user, and the event iff the rest is an active event code, and then to that event; without a `_` there is no referrer and the event is the active event of the whole code, if any. There is no self-referral check |
| StartCodes.IntendedMultipurposeResolve | multipurpose_bot.py:454 | the corrected reading never prompts, and a referrer it sets is a known user |
| StartCodes.ContestPersonalCode | enhanced_bot.py:73-83 | a `<referral>_<event>` code by another user sets both the referrer and the event |
| StartCodes.MultipurposePersonalCode | multipurpose_bot.py:438-453 | a `<referral>_<event>` code sets the referrer and the active event |
| StartCodes.MultipurposeHalves | multipurpose_bot.py:438-453 | for any code `<left>_<right>` with no `_` in left, left alone decides the referrer and right alone the active event |
| StartCodes.BareReferralCodeDropped | multipurpose_bot.py:435-454 | as written, a bare referral code sets a referrer in the contest bots but none in the multipurpose bot (also line 1102) |
| StartCodes.IntendedBareReferralCode | multipurpose_bot.py:454 | with the corrected rule, a bare referral code sets its user as referrer, and other inputs resolve as before (also line 1102) |
| StartCodes.AfterStart | enhanced_bot.py:90-121 | only a newcomer is added; every existing user row is kept |
| StartCodes.FirstRegistrationKept | enhanced_bot.py:90-121 | over any series of `/start` calls, a registered user's row never changes |
| StartCodes.ContestStartKeepsNoSelfReferral | enhanced_bot.py:73-121 | the contest bots never register a user as its own referrer |
| StartCodes.MultipurposeStartKeepsNoSelfReferral | multipurpose_bot.py:435-467 | the multipurpose bot registers no self-referral either, because the caller is not yet registered when it is added |
| StartCodes.StartRegistration | stable_bot.py:72-101 | `add_user` is called only for a newcomer, with the resolved referrer and event; an existing user keeps and is shown its stored code; the join prompt registers nobody |
| StartCodes.ContestStart | enhanced_bot.py:47-121 | the intent is `ContestResolve` over the store's code tables, and the users become `AfterStart` of it; the code returned is the caller's stored code, or the fresh code for a newcomer (None after the join prompt), and only a newcomer's code is added to the code table, pointing at the caller; events and their codes are untouched |
| StartCodes.FixedStart | fixed_bot.py:30-72 | the intent is `FixedResolve` as a registration, and the users become `AfterStart` of it; the code returned is the caller's stored code, or the fresh code for a newcomer (None after the join prompt), and only a newcomer's code is added to the code table, pointing at the caller; events and their codes are untouched |
| StartCodes.MultipurposeStart | multipurpose_bot.py:426-467 | the intent is `MultipurposeResolve` over the active events, and the users become `AfterStart` of it; the code returned is the caller's stored code, or the fresh code for a newcomer (None after the join prompt), and only a newcomer's code is added to the code table, pointing at the caller; events and their codes are untouched |
| EventFlow.DescriptionOf | enhanced_bot.py:340-345 | "skip" in any case gives no description; otherwise the stripped text, refused iff longer than 500 |
| EventFlow.StartsKeepFlowOk | enhanced_bot.py:254-277 | starting a creation or a link dialogue, or clearing, keeps the dialogue invariant |
| EventFlow.TextKeepsFlowOk | enhanced_bot.py:298-430 | every text keeps the invariant in both bots, and every store call made has a title of at most 100 characters, a description of at most 500 and an accepted link |
| EventFlow.GroupLinkStepCompletes | enhanced_bot.py:367-430 | at the link step, when the answer goes out, "skip" or an accepted link creates the event from the recorded title and description and clears `user_data`; any other text changes nothing |
| EventFlow.FailedReplyRepeatsCreation | enhanced_bot.py:422-425 | when the answer after creating an event raises, `user_data` stays, so the same text creates the same event again, in either bot (also `stable_bot.py:279-282`) |
| EventFlow.CreationHasPriority | enhanced_bot.py:303-311 | while an event is being created, a text never updates a group link |
| EventFlow.SkipLink | enhanced_bot.py:931-972 | skipping succeeds iff the target event id is truthy and names an event; `user_data` is cleared iff skipping succeeded and the confirmation edit went out, otherwise it is kept |
| EventFlow.Session.constructor | enhanced_bot.py:298-302 | `user_data` starts empty |
| EventFlow.Session.Clear | enhanced_bot.py:835-842 | `user_data.clear()` |
| EventFlow.Session.StartCreateEvent | enhanced_bot.py:254-259 | sets the creation flag and the title step and keeps the other keys |
| EventFlow.Session.StartSetGroupLink | enhanced_bot.py:272-277 | sets the link flag and the target event |
| EventFlow.Session.TitleStepText | enhanced_bot.py:316-336 | the title step of either bot moves to the description step unless the stripped title is longer than 100 |
| EventFlow.AfterCall | enhanced_bot.py:422-425 | after a store call the dialogue ends (`user_data` cleared) iff the answer went out; a failed answer keeps the state as it was |
| EventFlow.TitleText | enhanced_bot.py:316-331 | a stripped title over 100 characters changes nothing; otherwise it is recorded and the step moves to the description; the other keys are kept |
| EventFlow.EnhancedText | enhanced_bot.py:298-475 | an event is created only at the link step, from the recorded title and description, with no link iff the text was "skip"; a link is updated only outside creation, for the target event, with the stripped accepted text; after a store call `user_data` is cleared iff the answer went out; a text with no store call keeps the dialogue's flags and target |
| EventFlow.StableText | stable_bot.py:207-282 | the stable bot never updates a link; it creates an event only at the description step, from the recorded title, with no link and no description iff the text was "skip"; `user_data` is cleared iff the answer went out |
| EventFlow.Session.EnhancedHandleText | enhanced_bot.py:298-475 | `user_data` and the store call follow `EnhancedText` for the given answer outcome; the event table changes by that call only; a created event's fresh code is added to the code table, pointing at the new id, and that table is otherwise kept; users, user codes and participants are untouched |
| EventFlow.Session.StableHandleText | stable_bot.py:207-282 | `user_data` and the store call follow `StableText`, which creates the event at the description step and clears `user_data` only when the answer after it goes out; the event table and the code table change only by that creation, which maps the fresh code to the new id; users, user codes and participants are untouched |
| EventFlow.Session.SkipGroupLink | enhanced_bot.py:931-972 | `user_data` and the reply follow `SkipLink` for the given outcome of the confirmation edit |
| EventFlow.EnhancedJoinReply | enhanced_bot.py:712-745 | there is an answer iff the event exists; the join button is the event's link rewritten; the personal code is `<referral>_<event>` |
| EventFlow.PersonalCodeRegistersReferral | enhanced_bot.py:741-744 | a participant's personal code, used by a newcomer, registers the newcomer under that participant and that event (also lines 73-83) |
| EventFlow.JoinButtonValid | enhanced_bot.py:734-736 | the join button built from a stored link is an accepted `https://t.me/` URL |
| EventFlow.JoinEventConfirm | enhanced_bot.py:699-753 | membership gains the (event, user) pair and nothing else, so a repeat changes nothing; `stable_bot.py:363-380` does the same insert |
| Callbacks.IdAt | enhanced_bot.py:185-198 | an id read from callback data is the integer value of that `_`-separated piece |
| Callbacks.EnhancedDispatch | enhanced_bot.py:164-200 | an id route starts with its own prefix and carries the id parsed from its piece; a failed id read needs an id prefix; data with no id prefix and no exact name is ignored |
| Callbacks.StableDispatch | stable_bot.py:120-147 | only the stats and join routes carry an id, each from its prefix; a failed read needs one of those prefixes |
| Callbacks.MultipurposeDispatch | multipurpose_bot.py:916-960 | the same prefix and id guarantees as the enhanced bot, in the multipurpose order |
| Callbacks.NoRouteToSendEventLink | enhanced_bot.py:185-190 | as written, no callback data reaches `send_event_link` in the enhanced or the multipurpose bot |
| Callbacks.EventLinkButtonFails | enhanced_bot.py:185-190 | as written, every `event_link_<n>` button takes the event-stats branch and fails to read an id; `multipurpose_bot.py:947-952` has the same order (also line 658) |
| Callbacks.IntendedEventLinkButton | enhanced_bot.py:185-190 | with `event_link_` matched first, each such button opens `send_event_link` for event n (also line 793) |
| Callbacks.IntendedDispatchElsewhere | enhanced_bot.py:164-200 | the correction changes no other callback data |
| Callbacks.EventPrefixRoute | enhanced_bot.py:185-186 | all three bots send `event_` data to the event-stats branch, reading piece 1 |
| Callbacks.JoinPrefixRoute | enhanced_bot.py:193-195 | all three bots send `join_event_` data to `join_event_confirm`, reading piece 2 |
| Callbacks.SetGroupPrefixRoute | enhanced_bot.py:196-198 | both bots that have it send `set_group_` data to `start_set_group_link`, reading piece 2 |
| Callbacks.EventStatsButton | enhanced_bot.py:185-186 | an `event_<n>` button opens the stats of event n in all three bots |
| Callbacks.JoinEventButton | enhanced_bot.py:193-195 | a `join_event_<n>` button joins event n in all three bots |
| Callbacks.SetGroupButton | enhanced_bot.py:196-198 | a `set_group_<n>` button sets the link of event n |
| Callbacks.FirstAccepting | multipurpose_bot.py:201-203 | the handler chosen is the first registered one whose pattern accepts the data, and none iff no pattern does |
| Callbacks.ConfigButtonsUnreachable | multipurpose_bot.py:201-203 | as written, the catch-all `button_handler`, registered first, takes every callback, so `gc:` data goes nowhere |
| Callbacks.IntendedCallbackRouting | multipurpose_bot.py:201-203 | with the pattern handlers registered first, `gc:` data reaches `group_config_callback`, `approve:` data `approval_callback`, and everything else `button_handler` |

## Left out

- Telegram API calls (reply, edit, restrict, ban, delete, fetching administrators, command scopes, polling and webhooks): each call whose outcome changes what the handler does next is a boolean input (see "Platform calls" above); message texts and keyboards are not modelled.
- SQLite errors: every `database.py` method catches `sqlite3.Error` and returns False, [] or 0; the model's store never fails, so those error results do not arise.
- The operational scripts, `start.py`, `test_bot.py`, `debug_bot.py` and `referral_commands.py`: they contain no decision logic outside SQL or network calls.
- Link detection in the multipurpose group handler (`multipurpose_bot.py:822-833`): its regular expressions and domain list are reduced to the input `hasLink`.
- Notes, filters, rules text, `clean_service` and the report and approval flows of the multipurpose bot: a note or filter answering the message is the input `triggered`.
- The captcha answer path, `unwarn`, `warnings`, `mute`, `unmute`, `ban`, `tban`, `kick`, `purge`, `del`, `tagactives`, `settings`, `setlogchat` and the multipurpose bot's own event dialogue (`multipurpose_bot.py:1835-2172`): they are outside the modelled core.
- Shadowed definitions in `multipurpose_bot.py` (the earlier `setwarns`, `setmute`, `antilinks`, `setautoban`, `setresetwarns`, `_render_group_config_kb`, `unmute`, `_is_group_admin` at line 92 and `_parse_target_user` at line 100): Python keeps only the last definition, which is the one modelled (`_is_group_admin` at line 1160, `_parse_target_user` at line 1194). The earlier `_parse_target_user` would fall back to the arguments when the replied-to message has no sender; the later one, modelled here, returns that missing sender.
- Concurrency: the read-then-write race in `bot.py` `_add_warning` and concurrent updates in the multipurpose bot; the model is sequential.
- Clocks: `time.time` and `datetime.utcnow` are the parameter `now`.
- SQLite mechanics: connections, indexes, `vacuum`, `backup`, and `get_referrals`; among rows tied on the `ORDER BY` key only the key order is stated.
- Store internals behind the assumed operations: code generation, `get_leaderboard`, `get_referral_stats` and event statistics; fresh codes and ids are inputs.
- The warning reason of the multipurpose bot is computed but not stored, because the assumed `increment_warning` keeps only a count.
- Non-ASCII decimal digits: Python's `int()` and `str.isdigit()` accept every Unicode decimal digit (`int('٣') == 3`), while `PyStr.ParseInt` and `PyStr.AllDigits` accept ASCII digits only. So for an argument in another script's digits the source gets a number and the model gets `None` in FreshBot.ParseTarget (`/warn ٣`), FreshBot.StartReferrer (`/start ٣`), Moderation.ParseTargetUser, Moderation.SetWarnsValue, Moderation.SetMuteValue and Callbacks.IdAt. The Unicode digit tables are not modelled.
- `str.lower()` beyond ASCII, KELVIN SIGN and U+0130: it cannot change a comparison with the ASCII words the handlers test.
- The administrator list is one snapshot per handler call; a list that changes between the two fetches of `_is_group_admin` and `_has_immunity` is not modelled.
- The enhanced bot's `set_group_link` text step is modelled through its store call only (`UpdateEventGroupLink`); its reply texts are left out.
- Unreachable handlers. `MessageHandler(filters.StatusUpdate.ALL, …)` is registered at `multipurpose_bot.py:206`, in the same handler group and ahead of the unified group handler, so new-member messages never reach `_group_message_handler_unified`, and its captcha branch (lines 752-776) cannot run as written. ModerationCommands.CaptchaBook.RecordChallenges and ModerationCommands.GroupMessageHandler model that branch as if the message reached it.
- Unregistered commands. `lock_command` (line 2391), `lockall_command` (line 2411) and `captcha_command` (line 256) are never registered at lines 175-213, so `/lock`, `/lockall` and `/captcha` cannot be invoked as written. ModerationCommands.LockCommand, ModerationCommands.LockAllCommand, ModerationCommands.Lock and ModerationCommands.LockAll model the handler bodies, and Moderation.IntendedLockAllMatchesCommand compares the corrected button with that unregistered command.
- The event-id and code arguments of `join_event`, `show_event_stats` and `send_event_link` reply screens: only the dispatch to them is modelled.

## Findings

The handlers model the code as written. Each corrected definition stands beside the as-written one, and the intended property is proved about it.

| source | as written | input that shows it | evidently intended | confidence | as-written member | corrected member |
|---|---|---|---|---|---|---|
| enhanced_bot.py:185-190 | `startswith("event_")` comes before `startswith("event_link_")`; `multipurpose_bot.py:947-952` has the same order | the bot's own button `event_link_7` (enhanced_bot.py:658) goes to the stats branch, and `int("link")` fails | the `event_link_` buttons open `send_event_link` | high, not executed | Callbacks.EventLinkButtonFails | Callbacks.IntendedEventLinkButton |
| multipurpose_bot.py:435-454 | a bare argument is only looked up as an event code | `/start ABC123`, where ABC123 is the referral code shown by `show_stats` (multipurpose_bot.py:1102), registers no referrer | a bare referral code sets the referrer, as the comment at line 454 says | medium, not executed | StartCodes.BareReferralCodeDropped | StartCodes.IntendedBareReferralCode |
| multipurpose_bot.py:1721-1784 | the config callback handles only toggle, inc and dec | the "Lock all ON" button, data `gc:lockall:on` (line 2468), changes nothing | the button sets every lock, as `/lockall on` does | high, not executed | Moderation.LockAllButtonIgnored | Moderation.IntendedLockAllMatchesCommand |
| multipurpose_bot.py:2271 | `/setmute` clamps to [1, 1440] | `/setmute 10080` stores 1440 | the [1, 10080] range of the help text (line 1705) and of the config buttons | medium, not executed | Moderation.SetMuteCutsAdvertisedMax | Moderation.IntendedSetMuteExact |
| multipurpose_bot.py:1959 | the pattern `https://t.me/...` leaves the dot unescaped | `https://tXme/abc` is accepted | only links on the host `t.me` | high, not executed | Links.MpDotMatchesAnyHost | Links.MpIntendedIsTme |
| bot.py:226 | the reason is always `split()[2:]` | "/warn spam" as a reply records "No reason provided" | "/warn (reply) [reason]", as the help at lines 195 and 213 says | high, not executed | FreshBot.ReplyReasonLost | FreshBot.IntendedReasonKeepsWords |
| multipurpose_bot.py:201-203 | the catch-all `button_handler` is registered before the `^gc:` and `^approve:` handlers in the same group | every `gc:toggle:...` button is taken by `button_handler`, which ignores it | the pattern handlers receive their data | high, not executed | Callbacks.ConfigButtonsUnreachable | Callbacks.IntendedCallbackRouting |
