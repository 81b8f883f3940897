# Decision and formatting logic of a Discord moderation bot, in Dafny

The bot's commands are thin layers over the Discord platform. Under that layer, each command makes a few decisions:
- whether the author holds the command's permission flag;
- which members to act on;
- what to do when a call on one member fails;
- how to word the grammatical list of skipped names;
- which of three replies to send.

The model states these decisions exactly and proves the properties the commands promise. It covers the moderation cogs `cogs/mod.py` and `cogs/moderator.py`, the greetings of `cogs/litwa.py`, the lookup tables of `cogs/weather.py`, and the bound handling of `cogs/rng.py`.

How commands are modelled:
- **Traces.** A command is a function or method from its inputs to a trace, `Platform.Run(effects, raised)`.
  - `effects` lists, in order, the reactions added, the messages sent and the platform calls made: ban, kick, move_to, edit, channel creation and deletion, pin, unpin, delete.
  - `raised` is the exception that escapes the command, if one does.
- **The platform as an oracle.** The platform is a function `Oracle = Effect -> CallResult`, giving `Done`, `Forbidden` or some other `HttpError` for each call. So every behaviour is stated for every possible pattern of platform failures.
- **Per-member loops.**
  - The loop of ban, kick, summon, blackout and disconnect is `Bulk.Apply`. `Bulk.EditAll` is the loop of mute, unmute, deafen and undeafen.
  - Both are methods with `while` loops, proved against recursive specification functions (`Bulk.Calls`, `Bulk.Skipped`, `Bulk.EditRun`). Lemmas are proved about those functions.
- **The joiner.**
  - The source's joining loop, used by `skipped_msg` in both moderation cogs and by `user_chain`, is `Joiner.AppendChain`. It is proved equal to an independent reference definition, `Joiner.Joined`.
  - `Joined` interleaves the names, in order and each exactly once, with the separators `" and "` (two names) or `", "` … `", and "` (three or more).

Modules:
- `platform.dfy`. Module `Platform`: the members, channels, messages and permissions; the effects; the oracle; the denial and no-mention replies; Python's `str.split()` word count.
- `joiner.dfy`. Module `Joiner`: the grammatical joiner.
- `bulk.dfy`. Module `Bulk`: the per-member loops, the three-way classification, and the author fallback that both disconnect commands share.
- `mod.py`'s cog is module `Mod` (`mod.dfy`). `moderator.py`'s is `Moderator` (`moderator.dfy`), `litwa.py`'s `Litwa` (`litwa.dfy`), `weather.py`'s `Weather` (`weather.dfy`) and `rng.py`'s `Rng` (`rng.dfy`).

Behaviour of the code worth knowing when reading the model:
- **The serial comma.** The joiner puts ", " after every name but the last and then "and " before it, so three names read "A, B, and C" (cogs/mod.py:23-26, cogs/litwa.py:19-23).
- **The author fallback.** Among the bulk and edit commands, only `disconnect` falls back to the author when nobody is mentioned (cogs/mod.py:180-186, cogs/moderator.py:68-74); mute, unmute, deafen and undeafen answer "No users mentioned." (cogs/mod.py:248-250). Outside them, `momtibi` targets the author when there is no mention and only the command word (cogs/litwa.py:95-96), and `nickname` reaches the author only through its argument-error hook (cogs/mod.py:291), which is left out.
- **Uncaught edits.** mute, unmute, deafen and undeafen have no `try`: the first failed edit escapes and ends the command, and later members are not edited (cogs/mod.py:244-245, `Bulk.EditRun`).
- **bontibi and gaeree without mentions.** Their docstrings say they greet the author when nobody is named. With no mention and only the command word, the code answers "No users mentioned."; with no mention and further words, it answers "Unrecognized user(s)." (cogs/litwa.py:45-50, 69-74). The author is greeted only when the message mentions someone but the converted `users` argument is empty.

## Model

| member | source | states |
|---|---|---|
| Platform.Denial | cogs/mod.py:36-39 | The reply to an author without the permission flag contains the text "You lack this authority!" and makes no platform call. |
| Platform.WordCountAboveOne | cogs/mod.py:61 | `Platform.WordCount`, the number of words `content.split()` gives, counted as the characters that start a word, is above 1 exactly when the content has a non-space, then a space, then a non-space character, that is, a second word. |
| Platform.WordCountPositive | cogs/mod.py:61 | The split is non-empty exactly when the content has a non-space character. |
| Platform.NoMentionReply | cogs/mod.py:61-66 | With no mention, a second word in the message gives the confused reaction and the command's "unrecognized" text. mod.py uses "Unrecognized user mention(s)." and litwa.py "Unrecognized user(s)." (cogs/litwa.py:45-50). Otherwise the confused reaction and "No users mentioned.". `Mod.NoMentions` is this reply with mod.py's text, `Litwa.Unmentioned` with litwa.py's. |
| Joiner.ListingIsInterleave | cogs/mod.py:24-25 | The loop over all names but the last builds those names, each followed by ", ". |
| Joiner.ChainIsJoined | cogs/mod.py:18-26 | The case-by-case construction (one name, two names, the loop for three or more) equals the reference joiner: every name once, in order, with " and " between two names, or ", " between names and ", and " before the last of three or more. |
| Joiner.JoinedBySize | cogs/mod.py:19-26 | The joined text is "" for no names, "A" for one, "A and B" for two, and "A, B, and C" for three. |
| Joiner.AppendListing | cogs/mod.py:24-25 | The `for` loop appends exactly the listing of the names given to it. |
| Joiner.AppendChain | cogs/mod.py:18-26 | Appending the chain to a prefix yields the prefix followed by the reference joining of the names, for every number of names. |
| Bulk.Attempt | cogs/mod.py:87-99 | Ban, kick and move make one call per member. Blackout makes at most two calls (away and back), and skips a member outside voice with no call. |
| Bulk.Apply | cogs/mod.py:44-50 | The loop attempts every member in order and collects the failures without stopping. Its calls and skipped list are those of the specification functions. |
| Bulk.SkippedIsFailedSublist | cogs/mod.py:44-50 | The skipped list is an order-preserving sub-list of the mentions, at strictly increasing indices. A member's index is among them iff its attempt failed. |
| Bulk.OneCallEach | cogs/mod.py:46-48 | For ban, kick and move, the i-th call is the action on the i-th mentioned member, one call per member. |
| Bulk.SkippedCount | cogs/mod.py:52-54 | The skipped list is never longer than the mentions. It is empty iff every attempt succeeded, and it is as long as the mentions iff every attempt failed. |
| Bulk.VerdictByOutcome | cogs/mod.py:52-60 | `Bulk.Classify`, the test `not skipped` / `len(skipped) == len(mentions)` / otherwise, gives all / none / partial; that verdict is decided by the outcomes alone: all succeeded, all failed, or at least one of each. |
| Bulk.BlackoutSkipsSilent | cogs/mod.py:88-92 | Every call blackout makes is a move of a mentioned member who is in voice. Every mentioned member outside voice ends up on the skipped list. |
| Bulk.EditAll | cogs/mod.py:243-247 | The edit loop produces exactly the trace of the specification function, stopping at the first failed edit. |
| Bulk.EditRunEdits | cogs/mod.py:243-247 | The edits are made on the mentions in order, from the first. Nothing is raised iff every edit succeeds, and then every member was edited. |
| Bulk.EditRunStopsAtFirstFailure | cogs/mod.py:244-245 | When the loop raises, the last edit made is the first to fail, every earlier one succeeded, and its failure is what escapes. |
| Mod.SkippedMsg | cogs/mod.py:10-27 | None for no members. Otherwise "Skipped: " with the reference joining of the names and a period ("Skipped: A.", "Skipped: A and B.", "Skipped: A, B, and C."). |
| Mod.Report | cogs/mod.py:52-60 | An empty skipped list gives only the all-success text. A skipped list as long as the mentions gives the confused reaction and the "No users were …" text. Otherwise the warning reaction and the partial text with the skipped message. No platform call is made. |
| Mod.ReportAsWritten | cogs/mod.py:57-60 | As written, the partial class adds the warning reaction and then raises NameError without sending; the other classes are unchanged. |
| Mod.PartialReplyRaises | cogs/mod.py:57-60 | With two mentions where only the second ban fails, the source as written raises. The intended reply is "Some user(s) successfully banned. Skipped: B.". |
| Mod.Execute | cogs/mod.py:36-66 | No permission gives the denial alone. With mentions, the reply is the loop's calls followed by the three-way report. Without mentions, the no-mention reply. |
| Mod.Ban | cogs/mod.py:29-66 | ban is gated by ban_members, bans each mention once, and reports all / none / partial. |
| Mod.Kick | cogs/mod.py:190-227 | kick is gated by kick_members, kicks each mention once, and reports all / none / partial. |
| Mod.Summon | cogs/mod.py:319-362 | summon is gated by move_members. An author outside voice gets "You're not in a voice channel." and no call. Otherwise each mention is moved to the author's channel, with the three-way report. |
| Mod.Blackout | cogs/mod.py:68-117 | blackout is gated by move_members. Once TEMP is created, the trace is creation, the loop and its reply, then TEMP's deletion on every branch. A failed creation ends the command with no other call. |
| Bulk.DisconnectSelf | cogs/mod.py:180-186 | The fallback of both disconnect commands (also cogs/moderator.py:68-74) makes one call, moving the author. Its whole trace is that move followed by "Disconnected <author>." on success, or by the confused reaction and "You were not in a voice channel." on failure. |
| Mod.BlackoutAsWritten | cogs/mod.py:105-117 | blackout as written: in the partial class the NameError of the reply ends the command after the loop's calls and the warning reaction, with no message and no deletion of TEMP. Every other case has the trace of `Mod.Blackout`. |
| Mod.Disconnect | cogs/mod.py:142-188 | disconnect is gated by move_members. TEMP is created; then come the loop and its report, or the no-mention reply, or the author's fallback when the message has no second word; then TEMP is deleted on every branch. |
| Mod.DisconnectAsWritten | cogs/mod.py:172-188 | disconnect as written: in the partial class the NameError of the reply ends the command after the loop's moves and the warning reaction, with no message and no deletion of TEMP. Every other case has the trace of `Mod.Disconnect`. |
| Mod.EditEach | cogs/mod.py:236-250 | No permission gives the denial. No mention gives "No users mentioned.". Otherwise the edits run, and the confirmation is sent iff no edit failed; a failure escapes. |
| Mod.Mute | cogs/mod.py:229-250 | mute is gated by mute_members, mutes the mentions in order, and confirms "Muted user(s)." only when every edit succeeded. |
| Mod.Unmute | cogs/mod.py:364-385 | unmute is gated by mute_members and confirms "Unmuted user(s)." only when every edit succeeded. |
| Mod.Deafen | cogs/mod.py:119-140 | deafen is gated by deafen_members and confirms "Deafened user(s)." only when every edit succeeded. |
| Mod.Undeafen | cogs/mod.py:387-408 | undeafen is gated by deafen_members and confirms "Undeafened user(s)." only when every edit succeeded. |
| Mod.Rename | cogs/mod.py:272-277 | The nickname edit is the one platform call. Success is confirmed, Forbidden is answered with "I don't have permission to do that.", and any other failure escapes. |
| Mod.Nickname | cogs/mod.py:252-277 | An edit is made iff the gate `Mod.MayRename` holds (the target is the author, or the author has change_nickname; cogs/mod.py:260-261) and the new nickname differs from the current one. A repeated name gives "That's the same name." and no edit. |
| Mod.Pin | cogs/mod.py:293-317 | A pin call is made iff the author has manage_messages, a message is referenced, and it is not yet pinned. Each no-op case has its own reply. A message counts as referenced when `Platform.RefersToMessage` holds: Python's `ref and ref.message_id`, so a missing reference, a missing id and the id 0 all count as absent (cogs/mod.py:307). |
| Mod.Unpin | cogs/mod.py:410-435 | An unpin call is made iff the author has manage_messages, a message is referenced, and it is pinned. "Message unpinned." follows a successful unpin, and "Message not pinned." is the no-op reply. A message counts as referenced when `Platform.RefersToMessage` holds: Python's `ref and ref.message_id`, so a missing reference, a missing id and the id 0 all count as absent (cogs/mod.py:424). |
| Moderator.SkippedMsg | cogs/moderator.py:10-27 | None for no members. Otherwise "Skipped: " and the reference joining of the names, with no period. |
| Moderator.SkippedTextsDifferByPeriod | cogs/moderator.py:27 | For any non-empty list, mod.py's skipped text is this text followed by ".". |
| Moderator.DenialAsWritten | cogs/moderator.py:42-45 | As written, the denial sends nothing and makes no platform call; only the reaction is added. |
| Moderator.DenialAsWrittenIsSilent | cogs/moderator.py:43-44 | The unawaited send loses exactly the denial text: the intended denial is the written one plus that message. |
| Moderator.Report | cogs/moderator.py:59-67 | All / none / partial replies of Admin.disconnect; the partial text appends the period-free skipped message. |
| Moderator.Disconnect | cogs/moderator.py:29-76 | Without move_members, nothing but the denial. Otherwise KICK is created; the mentions are moved, or the author when nobody is mentioned; and KICK is deleted on every branch. |
| Litwa.UserChain | cogs/litwa.py:10-25 | The mentions joined by the reference joiner: "" for nobody, "A" for one, "A and B" for two, "A, B, and C" for three. |
| Litwa.Bontibi | cogs/litwa.py:27-50 | With mentions: "Bontibi, X!" for one user (the author when the conversion gives none), and "Bonivobis, <joined mentions>!" for several. |
| Litwa.Gaeree | cogs/litwa.py:52-74 | With mentions: "X is gaeree!" for one user (the author when none), and "<joined mentions> are gaeree!" for several. |
| Litwa.Momtibi | cogs/litwa.py:76-96 | The singular form for one mention and the joined form for several. With none, the author is targeted when only the command word was given; otherwise "Unrecognized user(s).". |
| Litwa.Orwell | cogs/litwa.py:116-136 | A delete is made iff a message is referenced and the rule `Litwa.MayDelete` holds: the author wrote it or has manage_messages (cogs/litwa.py:128-129). Otherwise the denial, or "No message referenced.", with no call. A message counts as referenced when `Platform.RefersToMessage` holds: Python's `ref and ref.message_id`, so a missing reference, a missing id and the id 0 all count as absent (cogs/litwa.py:125). |
| Weather.CompassDir | cogs/weather.py:21-59 | ValueError exactly outside [0, 360). On the domain the chain never falls through to None, and always returns one of the 16 points. |
| Weather.CompassSector | cogs/weather.py:28-59 | Point k of the rose, clockwise from N, is returned exactly on its band: [22.5k − 11.25, 22.5k + 11.25), and for N on [0, 11.25) ∪ [348.75, 360). Lower bounds are inclusive, so 11.25 is NNE. |
| Weather.CompassIsRounding | cogs/weather.py:28-59 | On the domain, the chain agrees with the arithmetic banding: the point at index floor((angle + 11.25) / 22.5) mod 16. |
| Weather.EmojiTable | cogs/weather.py:85-112 | `Weather.WeatherEmoji`, the if/elif chain with `Weather.Hundreds` as the truncating `int(code / 100)`, is this table: 2xx gives thunderstorm; 3xx and 5xx rain; 6xx snow; 800 sun; 801-803 few clouds; 804 overcast. Every other code, including negatives, raises. |
| Rng.RandInt | cogs/rng.py:24 | The library's contract: an empty range raises ValueError, and otherwise the draw lies in the inclusive range. |
| Rng.Ordered | cogs/rng.py:21-22 | After the swap the lower bound is at most the upper one, and the pair holds the same two values. An ordered pair is left as it is. |
| Rng.OrderedKeepsValues | cogs/rng.py:21-22 | The swapped pair equals the input pair as a set. |
| Rng.DefaultBounds | cogs/rng.py:13-22 | `Rng.Arguments` gives the converter's defaults a = 100 and b = 1. After the swap, no arguments give the bounds 1 and 100. One argument a ≥ 1 gives 1 and a. |
| Rng.RandomInteger | cogs/rng.py:12-24 | The reply echoes the ordered bounds, and its value lies between them. |
| Rng.Roll | cogs/rng.py:26-33 | For n ≥ 1 (6 by default), a roll in [1, n]. For n < 1, the bound error "Need a positive integer bound.", with the confused reaction. |

## Left out

- `glazeglopbot.py`, `cogs/vc.py` and `cogs/qr.py` are not part of this model. They are cog loading, the token and the event loop; voice wrappers with no logic of their own; and a QR-code library call with temporary-file I/O.
- weather.py's `get_obs`, `weather` and `forecast`: geocoding and weather-service calls, time-zone formatting, and floating-point unit conversions with rounding.
- litwa.py's `bruhvy` and `ree`: each sends one fixed text-to-speech message, with no decision to model.
- The argument-error hooks are not modelled: `nickname_err` (including its fallback of renaming the author), `tag_err` and `rng_err`. They depend on the framework's argument conversion and on matching exception text.
- Argument conversion: the mentions, `users` and the integer arguments arrive already converted and in the framework's order. `Rng.RandomInteger` and `Rng.Roll` take the integers the converter produced.
- `fetch_message` is an input: the referenced message is passed in as `fetched`. A failed fetch is not modelled.
- Adding reactions and sending messages are taken never to fail; only the member, channel and message operations consult the oracle.
- Rng replies are a datatype: `Drew(lo, hi, v)` stands for "(int lo to hi): v" and `Rolled(v)` for "Rolled v.". The decimal rendering of the integers is not modelled.
- `Rng.RandomInteger`, `Rng.Roll` and `Rng.RandInt`: the draw is a parameter that lies in the range, since only randint's contract, not its randomness, is specified.
- Weather.EmojiTable: condition codes are integers, and `int(code / 100)` is taken as exact truncation toward zero; floating-point rounding of very large codes is not modelled.
- Member and message identity is by id, as in discord.py's equality. A member's voice state is `Option<Channel>`, standing for `voice and voice.channel`.
- Python's `str.split()` whitespace is the fixed set of characters in `Platform.IsSpace`.
- The `async`/`await` sequencing is modelled as the order of the trace. There is no concurrency and no state beyond the trace.
- Weather.CompassDir: the angle is a `real`, not a Python float. NaN is not modelled; for NaN every comparison in compass_dir is false and it returns None.
- Moderator.Disconnect uses the intended denial, with its text sent; as written only the reaction is added (Moderator.DenialAsWritten).
- Mod.Blackout and Mod.Disconnect use the corrected partial reply. As written, the NameError in that reply also skips the deletion of TEMP; Mod.BlackoutAsWritten and Mod.DisconnectAsWritten model that trace (see Findings).
- Commands are modelled in a guild: `Permissions` is always present. In a direct message `ctx.author` is a `discord.User`, which has no `guild_permissions`, so the permission gate of every gated command (cogs/mod.py:36, 76, 126, 151, 197, 236, 300, 326, 371, 394, 417; cogs/moderator.py:42), nickname's test when the target is not the author (cogs/mod.py:261), and orwell's test when the author did not write the target (cogs/litwa.py:129) raise AttributeError and nothing is replied.

## Findings

| source | as written | input that shows it | evidently intended | confidence | as-written member | corrected member |
|---|---|---|---|---|---|---|
| cogs/mod.py:57-60 | The partial reply of ban, and likewise of blackout (109), disconnect (176), kick (221) and summon (356), calls `Moderator.skipped_msg`. The class is `Mod` and no `Moderator` is defined, so NameError is raised after the warning reaction and before any message. | ban with two mentions where only the second ban fails | The cog's own skipped_msg: "Some user(s) successfully banned. Skipped: B." | not executed | Mod.ReportAsWritten | Mod.Report |
| cogs/mod.py:105-117 | In blackout the same NameError escapes before `await temp_channel.delete()`, so TEMP is left in the guild. | blackout of two members in voice where only the second is not moved | The partial reply, then TEMP deleted | not executed | Mod.BlackoutAsWritten | Mod.Blackout |
| cogs/mod.py:172-188 | In disconnect the same NameError escapes before `await temp_channel.delete()`, so TEMP is left in the guild, holding the members that were moved into it. | disconnect of two members where only the second move fails | The partial reply, then TEMP deleted | not executed | Mod.DisconnectAsWritten | Mod.Disconnect |
| cogs/moderator.py:44 | `ctx.send("You lack this authority!")` is not awaited, so the coroutine is dropped and the denial text never reaches the channel. | disconnect by an author without move_members | The thumbs-down reaction followed by the denial text | not executed | Moderator.DenialAsWritten | Platform.Denial |

`skipped_msg` in cogs/mod.py:10 takes no `self`. It is only ever called through a class name, so the missing parameter does no harm on its own; the failure is the undefined class name in the first row.
