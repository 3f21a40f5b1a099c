# HorizonBot core, modelled in Dafny

This project models four pieces of the HorizonBot Discord bot and proves what they promise.

- **`ArgumentPrompter`** asks a command's author for a value in chat, one prompt message at a time:
  - it builds the prompt text (the base text, or "invalid text, space, base text" on a retry; empty texts fall back to the configured defaults);
  - it records the reply and the prompt message in an optional caller-owned set;
  - it aborts when the reply is a stop word;
  - it turns the reply into a typed value through an ordered chain of lookups;
  - its `autoPrompt*` wrappers repeat the round until the value is truthy.

  The class `Prompter` keeps the replies still to come (`pending`) and the texts sent (`sent`). `MessageSet` is the transcript; it behaves like a JavaScript `Set` (insertion order, no duplicates). The pure functions `AutoRun`, `Recorded` and `PromptText` specify the loop. The methods `Ask`, `Prompt` and `AutoPrompt` are proved against them.
- **`/dump`** (`dump.ts`) runs the member list through a fixed pipeline:
  - role filters, then the `reacted` filter;
  - sort, then limit;
  - format, then optional reverse, then optional numbering;
  - join, then a text or `dump.txt` attachment reply.

  `Dump` is the pipeline as a function. The method `ChatInputRun` reassigns the list step by step, reverses an array in place, and is proved equal to `Dump`.
- **`/reminders`** (`reminders.ts`) covers:
  - `_parseTime` (a duration beats a date);
  - the validation and field-by-field update of `edit`;
  - ownership checks in `edit` and `remove`;
  - `list` (the caller's pending reminders, by date, with timestamps in seconds).

  The store is a map from reminder id to reminder in the class `RemindersCommand`.
- **`DiscordLogManager`** decides, from a guild's status for an event type, which effects `logAction` has: store the record, write a console line, post an embed. It also builds the message link and the values filled into the embed's content field. `LogManager.LogAction` appends the effects to a log, in order.

Helper modules:
- `Wrappers`: `Option`, `Result`.
- `Strings`: `split`, `join`, decimal digits, `length` in UTF-16 code units.
- `Lists`: `filter`, `reverse`, in-place reverse.
- `Sorting`: `Array.prototype.sort`, specified as a stable insertion sort.
- `JsMath`: `Math.round(ms / 1000)`.

Two details of `_prompt` shape the model:
- `_prompt` tests the raw reply content against the stop words with `Set.has`. The text is not trimmed, so `" stop"` is not a stop word.
- Each round adds two messages to a `Set`: the reply and the applied prompt message. When a base message is edited in place, that message is in the set only once, however many rounds there are.

Outside lookups are uninterpreted function fields of a datatype (`Directory`, `DumpEnv`, `TimeResolvers`, `LogEnv`). These cover Discord's caches and resolvers, `localeCompare`, `pupa`, `dayjs`, `Intl.ListFormat` and `trimText`.

## Model

| member | source | states |
|---|---|---|
| ArgumentPrompter.PromptTextChoice | src/lib/structures/ArgumentPrompter.ts:90-93 | A first round shows the caller's base text when non-empty, else the default. A retry shows the invalid text (caller's or default), one space, then that same base text. |
| ArgumentPrompter.BooleanPromptUsesRoleTexts | src/lib/structures/ArgumentPrompter.ts:184-188 | `promptBoolean` shows exactly the texts `promptRole` shows, for every caller text and retry flag. |
| ArgumentPrompter.FirstSome | src/lib/structures/ArgumentPrompter.ts:101-102 | An ordered `??` chain gives the earliest present candidate, and nothing only when every candidate is absent. |
| ArgumentPrompter.ChannelQueryReplacesSpaces | src/lib/structures/ArgumentPrompter.ts:100 | `split(' ').join('-')` keeps the length, turns every space into `-`, leaves every other character, and leaves no space. |
| ArgumentPrompter.Resolve | src/lib/structures/ArgumentPrompter.ts:116-124 | A round's value always has the slot's type. The text slot gives the raw content, truthy exactly when non-empty. |
| ArgumentPrompter.ChannelChainOrder | src/lib/structures/ArgumentPrompter.ts:96-102 | The channel comes from the first chain entry that succeeds: a usable mention (text and guild-based), then lookup by id, then by name, both on the dashed query. |
| ArgumentPrompter.MessageChainOrder | src/lib/structures/ArgumentPrompter.ts:112-113 | The message comes from an id in the current channel before a message link. |
| ArgumentPrompter.MemberChainOrder | src/lib/structures/ArgumentPrompter.ts:163-167 | The member comes from a mention, then the name query, then the id. |
| ArgumentPrompter.RoleChainOrder | src/lib/structures/ArgumentPrompter.ts:177-181 | The role comes from a mention, then the id, then the name query. |
| ArgumentPrompter.MemberAndRoleChainsDiffer | src/lib/structures/ArgumentPrompter.ts:163-181 | Without mentions, when both lookups succeed, the member comes from the query and the role from the id. |
| ArgumentPrompter.AddedIsSetAdd | src/lib/structures/ArgumentPrompter.ts:201-202 | `Set.add` keeps insertion order, never duplicates, and adds exactly the given message. |
| ArgumentPrompter.MessageSet.AddAll | src/lib/structures/ArgumentPrompter.ts:202 | `addAll(response, appliedMessage)` adds the reply, then the prompt message, keeping the set duplicate-free. |
| ArgumentPrompter.RecordedContents | src/lib/structures/ArgumentPrompter.ts:199-202 | Over any number of rounds the transcript only grows at the end and never duplicates. It holds exactly the earlier messages plus both messages of every round. |
| ArgumentPrompter.ExchangedIdsAt | src/lib/structures/ArgumentPrompter.ts:199-202 | Both the reply and the applied prompt message of every round are recorded. The applied message is the base message when one is edited. |
| ArgumentPrompter.AutoRun | src/lib/structures/ArgumentPrompter.ts:27-30 | The retry loop never takes more replies than the stream holds. |
| ArgumentPrompter.AutoRunResolvedIsTruthy | src/lib/structures/ArgumentPrompter.ts:27-30 | Any value the loop returns is truthy and has the slot's type. |
| ArgumentPrompter.AutoPromptNeverFalsy | src/lib/structures/ArgumentPrompter.ts:40-87 | `autoPromptBoolean` never gives `false`, `autoPromptText` never `''`, `autoPromptDuration` never `0`. |
| ArgumentPrompter.AutoRunStopsAtFirstDecisive | src/lib/structures/ArgumentPrompter.ts:204-205 | The first reply that is a stop word or resolves to a truthy value ends the loop, after exactly that many rounds. A stop word aborts even when the reply would also resolve. |
| ArgumentPrompter.AutoRunExhaustedIff | src/lib/structures/ArgumentPrompter.ts:28-29 | The loop runs out of replies exactly when no reply is a stop word or resolves to a truthy value. |
| ArgumentPrompter.ReadOptions | src/lib/structures/ArgumentPrompter.ts:193-202 | Corrected reading of the optional options: absent options mean no transcript and no base message. It agrees with the as-written reading whenever options are given. |
| ArgumentPrompter.ReadOptionsAsWrittenFailsWithoutOptions | src/lib/structures/ArgumentPrompter.ts:197-201 | As written, a prompter built without options fails on its first round. The corrected reading gives empty options instead. |
| ArgumentPrompter.Prompter.constructor | src/lib/structures/ArgumentPrompter.ts:15-21 | The prompter keeps the given transcript set and base message. No text has been sent yet. |
| ArgumentPrompter.Prompter.Ask | src/lib/structures/ArgumentPrompter.ts:193-207 | `_prompt` sends the text, takes the next reply, and records both messages before the stop check. A stopped round is recorded too. The result is `AskOutcome` (stop exactly when the raw content is a stop word). |
| ArgumentPrompter.Prompter.Prompt | src/lib/structures/ArgumentPrompter.ts:89-191 | One `prompt*` round sends `PromptText`, consumes one reply, and records it. Its result is `RoundOutcome`. |
| ArgumentPrompter.Prompter.FirstRound | src/lib/structures/ArgumentPrompter.ts:27 | The first round, with the caller's flag, starts the loop invariant. |
| ArgumentPrompter.Prompter.Retry | src/lib/structures/ArgumentPrompter.ts:28-29 | A retry round with the invalid text keeps the loop invariant and consumes a reply or ends the loop. |
| ArgumentPrompter.Prompter.AutoPrompt | src/lib/structures/ArgumentPrompter.ts:23-31 | `autoPrompt*` gives `AutoRun`'s outcome and consumes exactly its rounds. The first prompt uses the caller's flag, every later one the retry text. Earlier texts are untouched, and the transcript records exactly those rounds. |
| Dump.RoleFiltersKeepExactly | src/commands/Admin/dump.ts:159-175 | A member survives the role filters exactly when it has every requested role and, with `no-roles`, only `@everyone`. |
| Dump.ReactedEmojiAtMessage | src/commands/Admin/dump.ts:180-181 | `emoji@message` (each free of `@`, non-empty) selects emoji-on-message mode with those two parts. |
| Dump.ReactedMessageOnly | src/commands/Admin/dump.ts:200 | A non-empty text without `@` is read as message-only mode, with the whole text as the message. |
| Dump.ReactedIgnoresThirdPiece | src/commands/Admin/dump.ts:180 | Only the first two `@`-separated pieces count; anything after a second `@` is ignored. |
| Dump.ReactionFilterOff | src/commands/Admin/dump.ts:178-186 | An absent or empty `reacted`, or one starting with `@` (its first piece is empty), leaves the list unchanged. |
| Dump.ReactionFilterNarrows | src/commands/Admin/dump.ts:178-215 | The reaction filter keeps only members from its input. It stops the command (`noMatchFound`) only in emoji-on-message mode. |
| Dump.ReactionFilterKeepsEmojiReactors | src/commands/Admin/dump.ts:188-194 | In emoji mode, with the emoji and the message resolved and that emoji among the message's reactions, a member is kept exactly when it is in the list and reacted with that emoji. |
| Dump.ReactionFilterKeepsMessageReactors | src/commands/Admin/dump.ts:200-212 | In message-only mode, with the message resolved, a member is kept exactly when it is in the list and reacted to the message with some emoji. |
| Dump.ReactionFilterStopsIff | src/commands/Admin/dump.ts:188-197 | The command stops with `noMatchFound` exactly when, in emoji mode, both lookups resolve and the emoji is not among the message's reactions. |
| Dump.ReactionFilterUnresolvedKeepsAll | src/commands/Admin/dump.ts:188-207 | When the emoji or the message does not resolve, in either mode, the list is left as it was. |
| Dump.SortedByNameOrdered | src/commands/Admin/dump.ts:46-47 | With a collation that orders strings, `order: name` keeps every member and orders them by username. |
| Dump.SortedByIdOrdered | src/commands/Admin/dump.ts:48-49 | With such a collation, `order: id` keeps every member and orders them by id. |
| Dump.SortedByCreatedAscends | src/commands/Admin/dump.ts:50-51 | `order: created` keeps every member, oldest account first. |
| Dump.SortedByJoinedAscends | src/commands/Admin/dump.ts:52-53 | `order: joined` keeps every member, earliest arrival first. |
| Dump.NicknameComparatorAsymmetric | src/commands/Admin/dump.ts:54-55 | A member without a nickname ties with everyone on the left, but compares as the text `"null"` on the right. |
| Dump.KeepFirst | src/commands/Admin/dump.ts:225-230 | The counter filter `i++ < limit` keeps exactly the first `min(limit, n)` members (none for a negative limit). |
| Dump.LimitedIsPrefix | src/commands/Admin/dump.ts:225-230 | A zero (absent) limit keeps all members. Otherwise the result is the first `min(limit, n)` members in their current order. |
| Dump.DefaultTemplate | src/commands/Admin/dump.ts:233-235 | Without a `format`, members render with `{u} ({i})`. |
| Dump.EnumeratedNumbers | src/commands/Admin/dump.ts:244-246 | Line `i` becomes the decimal digits of `i + 1`, `". "`, then the line. The digits read back as `i + 1`. |
| Dump.EnumerationFollowsFinalOrder | src/commands/Admin/dump.ts:243-246 | With `enumerate`, line `i` is numbered `i + 1` after any reversal. |
| Dump.DescReversesKeptMembers | src/commands/Admin/dump.ts:238-241 | `desc` reverses the members the limit kept: line `i` is the kept member `n - 1 - i`. |
| Dump.NoMatchFoundIff | src/commands/Admin/dump.ts:248-251 | `noMatchFound` is the reply exactly when the reaction filter stopped the command or no member is left. |
| Dump.PayloadHoldsOutput | src/commands/Admin/dump.ts:253-270 | The reply holds every line joined by the separator (newline by default). It is the file `dump.txt` exactly when its UTF-16 length (`output.length`) is over 2000, and private exactly with `dm`. |
| Dump.BmpOutputAttachedByLength | src/commands/Admin/dump.ts:257-259 | For output without characters above U+FFFF, it is sent as `dump.txt` exactly when it has more than 2000 characters. |
| Dump.AstralOutputIsAttachment | src/commands/Admin/dump.ts:257-259 | 1001 emoji outside the Basic Multilingual Plane are 2002 code units, so they go out as `dump.txt` although they are only 1001 characters. |
| Dump.SelectMembers | src/commands/Admin/dump.ts:155-230 | Filtering, sorting and limiting by reassignment give `Selected`. |
| Dump.RenderLines | src/commands/Admin/dump.ts:232-246 | Formatting into an array, reversing it in place and numbering give `Lines`. |
| Dump.ChatInputRun | src/commands/Admin/dump.ts:154-271 | The command gives the reply `Dump` specifies. |
| Reminders.ParseTimePrecedence | src/commands/General/reminders.ts:191-197 | A duration `d` gives `now + d` even when the text is also a date. Otherwise the result is the date, if any; none exactly when neither reads. |
| Reminders.NewReminder | src/commands/General/reminders.ts:92-105 | `create` stores nothing exactly when the text is neither a duration nor a date. Otherwise the reminder has the given id, the caller's id and the content, is not yet reminded, and is due at now plus the duration when the text reads as one, else at the date it reads as. |
| Reminders.EditChecksOwnership | src/commands/General/reminders.ts:144-149 | `edit` answers `invalidReminder` exactly when the id is missing or belongs to someone else. |
| Reminders.EditNeedsSomething | src/commands/General/reminders.ts:151-156 | For an owned reminder, `edit` answers `invalidUsage` exactly when neither a time nor a content is given. |
| Reminders.EditBadTimeChangesNothing | src/commands/General/reminders.ts:158-166 | `edit` answers `invalidTime` exactly when a time is given and does not parse, even with a valid content. |
| Reminders.EditUpdatesOnlySupplied | src/commands/General/reminders.ts:158-171 | A successful edit changes the date only when a time is given and the description only when a content is given. Id, owner and `reminded` never change. |
| Reminders.ListEmptyIff | src/commands/General/reminders.ts:118-124 | `noReminders` is the reply exactly when the caller has no pending reminder. |
| Reminders.ListSortsPending | src/commands/General/reminders.ts:117-137 | The list is the caller's pending reminders sorted by date, and its total counts them. |
| Reminders.ListHoldsEachPendingOnce | src/commands/General/reminders.ts:118-132 | Every pending reminder of the caller is listed as often as it is cached. |
| Reminders.ListOnlyPending | src/commands/General/reminders.ts:118-119 | Only the caller's reminders not yet reminded are listed. |
| Reminders.ListByAscendingDate | src/commands/General/reminders.ts:132 | The list runs from the earliest date to the latest. |
| Reminders.ListTimestampsRounded | src/commands/General/reminders.ts:135 | Each line's timestamp is its date in milliseconds rounded to the nearest second. |
| Reminders.RemindersCommand.Create | src/commands/General/reminders.ts:92-115 | An unparsable time answers `invalidTime` and stores nothing. Otherwise `create` stores `NewReminder` under a fresh id and asks to open DMs when they are closed. |
| Reminders.RemindersCommand.Edit | src/commands/General/reminders.ts:143-177 | Field-by-field edit: a refusal leaves the store unchanged. A success saves exactly `EditResult`'s reminder and nothing else. |
| Reminders.RemindersCommand.Remove | src/commands/General/reminders.ts:179-189 | Only the caller's own reminder is deleted. Anything else answers `invalidReminder` and changes nothing. |
| DiscordLogManager.MessageUrlRoundTrip | src/lib/structures/DiscordLogManager.ts:20 | A message link built from `/`-free ids reads back into exactly those guild, channel and message ids. |
| DiscordLogManager.InviteTextLines | src/lib/structures/DiscordLogManager.ts:58-61 | A join shows one rendered line per invite code, joined by `"\nou : "`. |
| DiscordLogManager.DepartureContent | src/lib/structures/DiscordLogManager.ts:62-73 | A departure lists role mentions, or `aucun` when there are none. The arrival date is rounded to the nearest second. |
| DiscordLogManager.MessageContent | src/lib/structures/DiscordLogManager.ts:80-87 | A message event shows the trimmed text, or the new text of an edit, and a link naming that message. |
| DiscordLogManager.ReactionContent | src/lib/structures/DiscordLogManager.ts:88-94 | A reaction shows the resolved emoji when it resolves, the stored text otherwise. |
| DiscordLogManager.EffectsInOrder | src/lib/structures/DiscordLogManager.ts:23-51 | The effects are always a prefix of store, console line, post. |
| DiscordLogManager.StatusGates | src/lib/structures/DiscordLogManager.ts:24-38 | Disabled does nothing. Silent only stores. Console stores and logs. Any other status also posts, exactly when a log channel is configured. |
| DiscordLogManager.LogManager.LogAction | src/lib/structures/DiscordLogManager.ts:23-51 | `logAction` appends exactly `Effects` for the guild's status and log channel. A guild missing from the status cache throws before any effect. |
| Sorting.SortBySorted | src/commands/Admin/dump.ts:219-222 | With a comparator that is a total preorder, the sort keeps every element and orders them. |
| Lists.ReverseInPlace | src/commands/Admin/dump.ts:240-241 | `reverse()` leaves the array holding its old contents last first. |
| Strings.SplitJoinRoundTrip | src/commands/Admin/dump.ts:180 | Splitting the join of separator-free parts gives the parts back. |
| JsMath.RoundMillisToSecondsNearest | src/commands/General/reminders.ts:135 | `Math.round(ms / 1000)` is the `s` with `1000 s - 500 <= ms < 1000 s + 500`. |

## Left out

- Waiting for a reply (`MessagePrompter`) and its 60-second timeout are not modelled. Replies come from a finite stream. When the stream ends, a round gives `NoReply` and `autoPrompt*` gives `Exhausted`; the bot itself would keep waiting until the timeout.
- Editing the base message, sending or replying on Discord, fetching members and reactions, `Promise.all` and the DM send are I/O. Their results are parameters: the fetched lists, the resolvers in `Directory` and `DumpEnv`, and `dmDelivers` / `dmOpen`.
- `ArgumentResolver`, `@/resolvers`, `localeCompare`, `pupa`, `dayjs`, `Intl.ListFormat` and `trimText` are uninterpreted functions (`userMention` is modelled as `<@id>`). Their grammars and locale rules are not modelled.
- The `list` pagination (ten lines per page, embed building) is not modelled. The model stops at the lines and the total.
- The JSON console line of `logAction`, the embed's colour, title and context field, and the final `pupa` rendering of the content field are not modelled. `Posted` records the channel, the type and the filled-in values.
- `getContentValue` reads the guild from the cache without a check. A missing guild (a crash for `GuildJoin`) is not modelled: the content values take the invite links as a function.
- DiscordLogManager.ContentValue: requires the payload's content to have the shape its type carries (`Shaped`). The source's types guarantee this; the model does not cover a misshapen record.
- The mongoose models (`Reminders`, `DiscordLogs`) are an in-memory map and an effect log. Id allocation is a parameter.
- Reminders.RemindersCommand.Create: requires the given id to be fresh, which the database guarantees.
- `Array.prototype.sort` and `Collection.sort` sort in place. The model sorts values with a stable insertion sort. For a comparator that is a total preorder with consistent signs (`cmp(a, b) < 0` exactly when `cmp(b, a) > 0`), every stable sort gives the model's order. For any other comparator, such as the `nick` comparator, the order JavaScript engines produce may differ from the model's.
- Sorting.SortBySorted: order is proved only for comparators that are total preorders. The Name and Id orders are proved for a `localeCompare` that is one (`Collation`).
- ArgumentPrompter.AutoRun: its own contract only bounds the rounds. Its outcomes are stated by `AutoRunResolvedIsTruthy`, `AutoRunStopsAtFirstDecisive` and `AutoRunExhaustedIff`.
- Command registration and option parsing by Discord are not modelled. Options arrive already typed, `None` standing for `null`.

## Findings

| source | as written | input that shows it | evidently intended | confidence | as-written member | corrected member |
|---|---|---|---|---|---|---|
| src/lib/structures/ArgumentPrompter.ts:193-202 | `_options` is optional (`_options?`), yet `_prompt` reads `this._options.baseMessage` and `this._options.messageArray` without `?.` | a prompter built as `new ArgumentPrompter(message)` with no options: its first `_prompt` throws a TypeError (`ReadOptionsAsWrittenFailsWithoutOptions`) | absent options mean no base message and no transcript (`this._options?.…`) | not executed | ArgumentPrompter.ReadOptionsAsWritten | ArgumentPrompter.ReadOptions |
