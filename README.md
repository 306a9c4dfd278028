# lighty-twitch-mtgbot in Dafny

A model of the two pieces of the Lighty Discord/Twitch bot that hold logic of their own, with proofs about them:

- **The dispatcher** (`LightyMTGClient` in lighty_mtg.py). It keeps a per-user counter of pending requests, a FIFO generation queue and a `currently_processing` flag. Four admission points put requests on the queue:
  - a mention in chat;
  - the `lighty_mtg` slash command;
  - the `lighty_mtg_three_pack` slash command;
  - a Twitch channel-point redemption.

  `process_queue` serves one request at a time: a single card, a three-card pack or a chat reply. It posts the result, saves the card images and relays a notice to Twitch. Then it decrements the user's counter. Small string helpers sit alongside:
  - the 2000-character chunking of chat replies;
  - prompt sanitising;
  - stripping of mention tags;
  - the storage paths;
  - the enabled/banned test;
  - the rewrite of the token lines of `settings.cfg`.
- **The card rules** (`MTGCardGenerator` in modules/mtg_generator.py):
  - the choice of card type and its colour;
  - the six `is_*_card` tests that pick the build path;
  - the mana draws;
  - creature attack and defence;
  - the mana-icon strip;
  - the title normalisation;
  - the legendary-land rule;
  - the greedy word-wrap of the card text.

Modules:

| file | module | content |
|---|---|---|
| Wrappers.dfy | `Wrappers` | `Option` |
| Text.dfy | `Text` | decimal rendering and parsing, `str.split`/`join`, `startswith`, `lstrip` |
| Replies.dfy | `Replies` | the chunking of chat replies |
| Prompts.dfy | `Prompts` | sanitising, mention tags, storage paths |
| Settings.dfy | `Settings` | `is_enabled_not_banned`, the queue-depth setting, `refresh_token`'s line rewrite |
| CardRules.dfy | `CardRules` | the card tables and the pure card rules |
| CardLayout.dfy | `CardLayout` | the wrap loops |
| Requests.dfy | `Requests` | the request tags and the shared Twitch user id |
| CardGenerator.dfy | `CardGenerator` | the generator object, as a class whose fields the build steps assign |
| Dispatch.dfy | `Dispatch` | the client, as a class holding the counters, the queue, the flag and an outbox of visible effects |
| Counters.dfy | `Counters` | one user's counter over whole runs, as written and corrected |

Randomness is an explicit draw. `CardRules.Pick(lo, hi, d)` is the value `random.choice(range(lo, hi))` returns for a raw draw `d`. `CardRules.PickCovers` shows that every value of the range is reachable, so a property proved for every draw holds for every outcome. Glyph and icon widths, the text subprocess's exit code and JSON, generated chat responses, message links and timestamps are all inputs.

Where the model departs from the code as written:

- **The generator's constructor.** The call sites pass the action as the first of four arguments (lighty_mtg.py:283, 307, 325). `MTGCardGenerator.__init__` (modules/mtg_generator.py:19-20) takes only `prompt, channel, user` and always sets `action = 'lightycard'`. As written, each of those calls raises `TypeError` before `is_room_in_queue`, so nothing is ever queued:
  - in the slash commands (lighty_mtg.py:307, 325) it raises after the enabled/banned check, so an enabled user gets no answer;
  - in the redemption handler (lighty_mtg.py:283), which has no enabled check, it raises after the reward-title match and the `discord_channel_id` lookup, so a redemption does nothing.

  The model follows the call sites instead: `CardGenerator.Generator.constructor` takes the action as a parameter, and `CardCommand` and `ChannelPoints` queue requests. The as-written slash command is modelled beside them as `Dispatch.Client.CardCommandAsWritten` (see Findings).

Where the source and its design description disagree, the model follows the source:

- **The channel-point redemption** runs no enabled/banned check (lighty_mtg.py:277-288). It queues a pack under the shared id 666 when that id has room and gives no answer when it is full.

Behaviour of the source the model keeps:

- **State carries over within a pack.** One generator object builds all three cards of a pack (lighty_mtg.py:120-142), so its fields carry over from card to card:
  - once a land is legendary, every later land of the pack is labelled "Legendary Land" (`CardGenerator.LegendaryFlagCarriesOver`);
  - an artifact card's secondary mana stays 0 for the cards after it.
- **`generate_card` swallows exceptions** (`@logger.catch`, modules/mtg_generator.py:38). Two failures leave a card with no face, and the dispatcher goes on and saves it anyway:
  - a failing text step;
  - a foil roll on a plain artifact. `roll_foil`'s texture table has no `'artifact'` entry, so it opens the path `'error'`. This happens before the title and the mana are pasted, so that card's secondary mana is not zeroed either.
- **A failing request costs its user two.** An exception inside the body of `process_queue` decrements the counter twice: in `except` and in `finally` (lighty_mtg.py:170-174). The model keeps this as written (`Dispatch.Client.Finish`), so a counter can go negative. The corrected bookkeeping is modelled beside it (see Findings).

## Model

| member | source | states |
|---|---|---|
| CardRules.Pick | modules/mtg_generator.py:30-31 | a draw from `range(lo, hi)` lies in `[lo, hi)` |
| CardRules.PickCovers | modules/mtg_generator.py:30-31 | every value of the range is the result of some draw |
| CardRules.PickIn | modules/mtg_generator.py:289 | `random.choice` of a range has a value exactly when the range is non-empty, and the value lies in it |
| CardRules.PrimaryManaDraw | modules/mtg_generator.py:30 | a new card's primary mana is in [1,4] |
| CardRules.SecondaryManaDraw | modules/mtg_generator.py:31 | a new card's secondary mana is in [0,4] |
| CardGenerator.Generator.constructor | modules/mtg_generator.py:19-33 | the fields start empty with the drawn mana; the action is a parameter, as at lighty_mtg.py:283, 307, 325 |
| CardRules.ChosenCategory | modules/mtg_generator.py:559 | the sampled base category is one of the six |
| CardRules.ChosenTypeSpec | modules/mtg_generator.py:557-651 | the chosen type is in its category's list; its colour is in the table, never "error", and is one the build code handles; exactly one build path applies, the one of the category |
| CardRules.ChoiceListMatchesPredicate | modules/mtg_generator.py:557-651 | every type of every category's list has a known colour, satisfies exactly its category's `is_*_card` test, and is gold only as a creature |
| CardRules.OneBuild | modules/mtg_generator.py:486-549 | every type in one `is_*_card` list satisfies only that test and has a known colour |
| CardRules.TypeListsDisjoint | modules/mtg_generator.py:486-549 | the six type lists are pairwise disjoint |
| CardGenerator.Generator.ChooseCardType | modules/mtg_generator.py:557-651 | `card_type` becomes the drawn member of the category list and `card_color` its table colour, not "error"; nothing else changes |
| CardRules.CreatureStatsRanges | modules/mtg_generator.py:288-298 | for mana in range and a known colour the stats exist; non-gold with t = primary + secondary: max(1, t//2) <= def <= t, def == t only when max(1, t//2) == t, 0 <= atk < t; gold: 1 <= def < 2·primary, 0 <= atk < 2·primary |
| CardRules.OneManaCreatureDefence | modules/mtg_generator.py:293-298 | a non-gold creature with 1 primary and 0 secondary mana is 0/1 whatever the draws |
| CardGenerator.Generator.CreatureAttackDefence | modules/mtg_generator.py:283-298 | a generator's stats always exist and are those of its colour and mana |
| CardRules.PrimaryIcon | modules/mtg_generator.py:336-346 | a gold card's primary icons are drawn from the five colours |
| CardRules.PrimaryRowTiles | modules/mtg_generator.py:332-348 | the primary icons tile the strip: the first starts at x = w, each next one where the one before ends, and the last ends at the strip width (1 + primary)·w |
| CardRules.PrimaryIconsAfter | modules/mtg_generator.py:336-347 | behind the optional secondary icon, the i-th primary icon sits at x = (i + 1)·w |
| CardRules.ManaStripSpec | modules/mtg_generator.py:303-348 | plain and gold strips are (1 + primary)·w wide; artifact strips are one icon wide and show primary + secondary; the strip's right edge is at x = 676; the secondary icon is at x = 0 exactly when the 1-in-3 roll hits and secondary >= 1; an artifact's secondary mana is 0 afterwards |
| CardGenerator.Generator.PasteMana | modules/mtg_generator.py:303-348 | the strip for the current colour and mana; `card_secondary_mana` becomes 0 for an artifact and is unchanged otherwise |
| CardRules.LandIconSpec | modules/mtg_generator.py:223-233 | a land is legendary exactly when its 1-in-10 roll hits; then its icon shows 1..4 mana (2..4 for an artifact land), otherwise a single mana |
| CardGenerator.Generator.PasteLandAbilities | modules/mtg_generator.py:217-240 | the legendary flag is set by a hit and never cleared |
| CardRules.ReplaceWithSpaceAt | modules/mtg_generator.py:214 | `str.replace(c, ' ')` keeps the length and changes exactly the occurrences of c |
| CardRules.NormalizeTitleSpec | modules/mtg_generator.py:214 | the title is the first min(25, length) characters with line breaks made spaces, and holds no '\n' or '\r' |
| CardGenerator.Generator.GenerateText | modules/mtg_generator.py:195-215 | a non-zero exit code changes nothing; a missing `prompt1` or `prompt2` fails after assigning what came before it |
| CardGenerator.Generator.GenerateCard | modules/mtg_generator.py:38-130 | exactly the category's build path runs. A face exists iff the text step succeeds and the foil roll does not raise. The new type, colour, creature type, title, flavour text, secondary mana and legendary flag are given for every outcome. The face's stats, mana strip and land icon are those of the colour and the mana before the call, and its type line is that of the build |
| CardGenerator.Generator.BuildFace | modules/mtg_generator.py:56-121 | the rest of a build path: stats for creatures, a strip for all but lands, a land icon for lands. Secondary mana becomes 0 for a non-land artifact-coloured card |
| CardRules.FoilTextureOfChoice | modules/mtg_generator.py:370-401 | of the types `choose_card_type` draws, only the plain artifact has no foil texture |
| CardRules.ChoiceListHasNoSlash | modules/mtg_generator.py:557-651 | no type in the choice lists contains a '/' |
| CardRules.ChosenTypeHasNoSlash | modules/mtg_generator.py:557-651 | the type drawn for any pair of draws contains no '/' |
| CardRules.ChosenFoilRaises | modules/mtg_generator.py:370-401 | `roll_foil` raises exactly for a plain artifact whose 1-in-50 foil roll hits |
| CardGenerator.LegendaryFlagCarriesOver | modules/mtg_generator.py:118-130 | a generator that made a legendary land labels every later land "Legendary Land" |
| CardLayout.Step | modules/mtg_generator.py:243-260 | a line break moves to x = 94 one line lower and draws nothing; a fitting token is drawn at the cursor; one passing x = 659 is drawn at x = 94 one line (a symbol's height) lower; y never decreases |
| CardLayout.LayoutGoesDown | modules/mtg_generator.py:439-466 | each word and symbol is drawn exactly once, in text order: the i-th drawn item has the width of the i-th non-newline token. Drawn tokens go top to bottom between the start and the final cursor |
| CardLayout.LayoutRightEdge | modules/mtg_generator.py:439-466 | every drawn token starts at x = 94 or ends by x = 659 |
| CardLayout.LayoutInsideBox | modules/mtg_generator.py:243-260 | from x >= 94 nothing is drawn left of 94, and a token no wider than the box stays inside it |
| CardLayout.FitsOnOneLine | modules/mtg_generator.py:243-260 | words that fit are drawn side by side, one space apart, on the same line |
| CardLayout.WrapTokens | modules/mtg_generator.py:439-466 | the loop computes the layout function |
| CardLayout.StepToken | modules/mtg_generator.py:443-466 | one pass of the loop body moves the cursor and draws exactly as one layout step |
| CardLayout.PasteAbilityText | modules/mtg_generator.py:433-484 | the flavour text is drawn iff the line after the ability text starts at y <= 805, and then lies wholly below the ability text |
| CardLayout.PasteLandFlavour | modules/mtg_generator.py:242-260 | a land's flavour text is drawn at y >= 800 and x >= 94 |
| Text.NatToString | lighty_mtg.py:195 | `str` of an id: non-empty, digits only, no leading zero |
| Text.ParseNatToString | lighty_mtg.py:184 | `int(str(n)) == n` |
| Text.NatToStringInjective | lighty_mtg.py:195 | different ids have different strings |
| Text.Split | lighty_mtg.py:195 | `str.split(sep)` gives at least one piece and no piece holds the separator |
| Text.JoinSplit | lighty_mtg.py:195 | joining the pieces of a split gives back the string |
| Text.SplitJoin | lighty_mtg.py:195 | splitting a join of separator-free pieces gives back the pieces |
| Text.Lstrip | lighty_mtg.py:71 | the result is a suffix that does not start with whitespace, and only whitespace was removed |
| Replies.ChunksConcat | lighty_mtg.py:163-165 | the chunks of a reply concatenate to the reply |
| Replies.ChunksCount | lighty_mtg.py:163-165 | there are ceil(len / 2000) chunks |
| Replies.ChunkAt | lighty_mtg.py:163-165 | chunk j is `response[2000j : 2000(j+1)]`, 1 to 2000 characters long |
| Replies.ChunksFrom | lighty_mtg.py:163-165 | the chunks from offset i are the 2000-character slice at i followed by the chunks after it |
| Replies.SendChunks | lighty_mtg.py:163-165 | the sending loop sends exactly the chunks, in order |
| Prompts.SanitizeRemovesUnsafe | lighty_mtg.py:102 | no character of `<>:"/\|?*` or `\x00`-`\x1F` survives sanitising |
| Prompts.SanitizeIsSubsequence | lighty_mtg.py:102 | the sanitised prompt is a subsequence of the prompt |
| Prompts.SanitizeCounts | lighty_mtg.py:102 | every safe character keeps its number of occurrences and every unsafe one has none |
| Prompts.SanitizeKeepsSafe | lighty_mtg.py:102 | a prompt with no unsafe character is unchanged |
| Prompts.SanitizeIdempotent | lighty_mtg.py:102 | sanitising twice is sanitising once |
| Prompts.IndexOf | lighty_mtg.py:71 | the first occurrence of a character |
| Prompts.StripTagsSpec | lighty_mtg.py:71 | after removing `<...>` tags no tag is left, and the result is a subsequence of the message |
| Prompts.StripTagsChars | lighty_mtg.py:71 | removing tags adds no character |
| Prompts.StripTagsKeepsUntagged | lighty_mtg.py:71 | a message without tags is unchanged |
| Prompts.StripTagsIdempotent | lighty_mtg.py:71 | removing tags twice is removing them once |
| Prompts.MentionPrompt | lighty_mtg.py:71 | the chat prompt does not start with whitespace |
| Prompts.CardImagePathInUserDirectory | lighty_mtg.py:102-103 | a card image is stored directly in `users/{user}/`, ends in ".webp" and has a bounded length |
| Prompts.PackImagePathsDistinct | lighty_mtg.py:122-138 | the three pack images of one request have different paths |
| Settings.EnabledNotBanned | lighty_mtg.py:190-196 | an answer exists iff the flag has a value (and the ban list one when it is read); the answer is true iff the flag is "True" and the id is not a piece of the comma-split ban list |
| Settings.IdStrings | lighty_mtg.py:195 | the decimal strings of a list of ids |
| Settings.IdStringsHaveNoComma | lighty_mtg.py:195 | no id string contains a comma |
| Settings.IdStringListed | lighty_mtg.py:195 | an id's string is among the id strings iff the id is listed |
| Settings.BanListByIds | lighty_mtg.py:195 | with a ban list written as comma-joined ids, a user is banned iff their id is listed |
| Settings.NoBanListAdmitsAll | lighty_mtg.py:195 | with the flag on and no ban list every user is admitted |
| Settings.SpaceAfterCommaDoesNotBan | lighty_mtg.py:195 | with the ban list "1, 2" user 1 is banned and user 2 is not |
| Settings.FlagExactlyTrue | lighty_mtg.py:192-193 | a flag with no first value raises; any first value other than exactly "True" refuses every user; a `True` answer needs the flag to read "True" |
| Settings.QueueDepth | lighty_mtg.py:184 | the depth defaults to 1 when the key is missing and is otherwise the decimal value of the first entry, when that is a plain number |
| Settings.QueueDepthWritten | lighty_mtg.py:184 | a depth written as `str(n)` reads back as n |
| Settings.FirstMatch | lighty_mtg.py:245-253 | the index of the first line with the prefix, or the line count |
| Settings.ReplaceFirstSpec | lighty_mtg.py:245-253 | only the first line with the prefix is replaced; the line count and every other line are unchanged |
| Settings.ReplaceFirstLine | lighty_mtg.py:245-253 | the in-place loop with `break` computes that replacement |
| Settings.PrefixesExclusive | lighty_mtg.py:246-251 | no line starts with both token prefixes |
| Settings.FirstMatchSamePlaces | lighty_mtg.py:250-253 | the refresh-token line is found at the same place after the auth line is rewritten |
| Settings.RewrittenSettingsSpec | lighty_mtg.py:245-253 | the first `twitch_channel_auth=` line and the first `twitch_channel_refresh_token=` line are rewritten; every other line and the line count are unchanged |
| Settings.RefreshToken | lighty_mtg.py:220-264 | on status 200 the lines are rewritten and the new access token returned; otherwise nothing changes and None is returned |
| Dispatch.Posts | lighty_mtg.py:163-165 | one message per piece, in order |
| Dispatch.Emitted | lighty_mtg.py:87-170 | the effects before an exception are a prefix of the full effects |
| Dispatch.ChatReplyEvents | lighty_mtg.py:161-165 | a chat reply is ceil(len / 2000) posts of 1 to 2000 characters, in order, whose contents concatenate to the reply |
| Dispatch.SavesUnderConcat | lighty_mtg.py:115-142 | saves under one directory stay under it when effect lists are concatenated |
| Dispatch.PackCardSavesUnder | lighty_mtg.py:121-122 | both saves of a pack card are under `users/{user}/` |
| Dispatch.CardSavesUnder | lighty_mtg.py:102-105 | the card image of a single-card request is saved under `users/{user}/` |
| Dispatch.PackSavesUnder | lighty_mtg.py:115-138 | all six saves of a pack are under `users/{user}/` |
| Dispatch.SavesInUserDirectory | lighty_mtg.py:102-142 | every image a request saves lands under `users/{user}/` |
| Dispatch.DrawnTypesSaveInUserDirectory | lighty_mtg.py:102-142 | when the card types are ones `choose_card_type` drew, every image a request saves lands under `users/{user}/` |
| Dispatch.PackImagesDistinct | lighty_mtg.py:121-138 | the three `cardN.webp` saves of a pack are distinct |
| Dispatch.Client.constructor | lighty_mtg.py:48-53 | empty counters and queue, flag clear |
| Dispatch.Client.IsRoomInQueue | lighty_mtg.py:180-187 | an unseen user gets a 0 entry; the answer is whether the counter is below the depth; nothing else changes |
| Dispatch.Client.Admit | lighty_mtg.py:312-313 | the user's counter rises by exactly 1 and the request goes to the tail of the queue |
| Dispatch.Client.AdmitOrRefuse | lighty_mtg.py:309-316 | with room the counter rises by 1 and the request is queued; without room the queue and the counters are unchanged (apart from the 0 entry) |
| Dispatch.Client.OnMessage | lighty_mtg.py:66-79 | a mention from an enabled, unbanned user queues a chat request with the tag-stripped prompt, or answers "Queue limit has been reached..."; anything else changes nothing |
| Dispatch.Client.ChatAdmission | lighty_mtg.py:67-79 | a message without a mention of the bot, or from a disabled or banned author, changes nothing; otherwise the chat request is queued with the counter raised by 1, or the queue-limit notice is sent |
| Dispatch.Client.CardCommand | lighty_mtg.py:300-334 | an exception in the check changes nothing; a disabled or banned user gets the ephemeral refusal; otherwise the card request is queued and confirmed, or the user is told the queue is full |
| Dispatch.Client.LightyMtg | lighty_mtg.py:300-316 | an exception in the check changes nothing. A disabled or banned user gets the ephemeral refusal. Otherwise a single card is queued with the counter raised by 1 and "Card Being Created:" sent, or the queue-limit reply is sent. A card is queued iff the user is enabled, unbanned and has room |
| Dispatch.Client.LightyMtgThreePack | lighty_mtg.py:318-334 | the same four outcomes for a three-card pack |
| Dispatch.Client.CardCommandAsWritten | lighty_mtg.py:300-334 | as written, the four-argument constructor call raises once the enabled check passes: only a disabled or banned user is answered, and nothing is queued |
| Dispatch.Client.ChannelPoints | lighty_mtg.py:276-288 | a redemption of the configured reward queues a pack under id 666 iff 666 has room, with no enabled check and no answer |
| Dispatch.Client.Take | lighty_mtg.py:84-88 | the head of the queue is taken, in admission order, and the flag is set |
| Dispatch.Client.Record | lighty_mtg.py:89-165 | the effects are appended; nothing else changes |
| Dispatch.Client.Release | lighty_mtg.py:170-178 | as written: the counter drops by 1, or by 2 on failure; the task is marked done either way and the flag is cleared |
| Dispatch.Client.ReleaseCorrected | lighty_mtg.py:173-178 | the counter drops by exactly 1; the task is marked done and the flag is cleared |
| Dispatch.Client.Finish | lighty_mtg.py:87-178 | as written: the effects up to the failure point, then the counter drops by 1 on success or 2 on failure |
| Dispatch.Client.FinishCorrected | lighty_mtg.py:87-178 | the same effects with a single decrement, which keeps every counter equal to the user's pending requests |
| Dispatch.CountsArePending | lighty_mtg.py:180-187 | with no failures, every counter equals its user's queued and in-service requests, so it is never negative, and those requests never exceed max(depth, 0) |
| Dispatch.PendingAfterService | lighty_mtg.py:170-178 | once the request in service is done, its user has one pending request fewer and every other user the same number |
| Dispatch.PendingAfterTake | lighty_mtg.py:84-88 | taking the head of the queue into service changes no user's pending requests, so every counter keeps its relation to them and its bound |
| Counters.AsWrittenCount | lighty_mtg.py:170-174 | as written, the counter equals pending requests minus the number of failures |
| Counters.AsWrittenExceedsDepth | lighty_mtg.py:170-174 | at depth 1, one failure leaves the counter at -1 and then lets two requests be pending at once |
| Counters.CorrectedCountIsPending | lighty_mtg.py:173-174 | with one decrement per finished request the counter equals the pending count and never exceeds the depth |
| Counters.CorrectedNeverExceedsDepth | lighty_mtg.py:180-187 | from a fresh counter, pending requests never exceed max(depth, 0) and the counter is never negative |

## Left out

- Pixels are not modelled: PIL drawing, image loading, pasting and resizing, fonts, foil blending, signature rolls, and the artist and copyright text. Only their positions and widths enter the model, as inputs.
- External processes are not modelled: the text and image subprocesses, `asyncio.to_thread`, the unbounded image-retry loop, and the `torch`/`gc` clean-up. The text step is represented by its exit code and the JSON it leaves.
- The tokenising regular expression `(\{[^}]+\}|\S+|\n)` and the mana-symbol regex are not modelled. Texts arrive as tokens with their measured widths.
- Unmapped mana symbols are not modelled. Their path `'error'` fails to open, which raises.
- `generate_abilities` is not modelled. Its random pick from a JSON file is an input, such as `CardDraws.creatureType`.
- The template loading, `card_artist`, and the attachment file names of the Discord posts are not modelled.
- Discord and Twitch are not modelled: the clients, message objects, channels, `get_channel`, `delete_after`, the Discord attachments, and the `discord_channel_id` lookup in the redemption handler. A message link is an input, and posts are recorded as events in an outbox.
- `Dispatch.Client.ChannelPoints`: does not model the exception that a missing or non-numeric `discord_channel_id` raises before anything is queued.
- HTTP is not modelled. The token endpoint's status code and token fields are inputs of `Settings.RefreshToken`, and reading and writing `settings.cfg` is the array the method rewrites.
- `os.makedirs`, logging and `loguru` are not modelled.
- `CardGenerator.Generator.constructor`: takes the action, as the call sites do. The three-parameter `__init__` as written makes every such call raise `TypeError`. That is modelled only for the slash commands, by `Dispatch.Client.CardCommandAsWritten`. `ChannelPoints` queues as the call site intends.
- `Dispatch.Client.constructor`: the queue depth is read once, where the source reads it on each `is_room_in_queue` call. The settings do not change while the bot runs.
- `Settings.QueueDepth`: accepts plain decimal digits only. Python's `int()` also accepts signs, surrounding whitespace and underscores.
- asyncio concurrency is modelled sequentially. The `process_queue` body is split into `Take` and `Finish`, and admissions may run between them, as they can while a request is being generated.
- Chat generation (modules/chat_generator.py) is not part of this model. Only its action tag is used, as `DiscordChat`, and its response is an input.
- `Dispatch.Client.Finish`: where an exception stops the item is an input (a count of effects done). The model does not derive which Discord or file call raised.
- The files attached to the Discord posts are not modelled. A post is recorded by its text.

## Findings

| source | as written | input that shows it | evidently intended | confidence | as-written member | corrected member |
|---|---|---|---|---|---|---|
| lighty_mtg.py:170-174 | a failed request decrements its user's counter in `except` and again in `finally` | depth 1: a request that raises, then two more requests. The counter goes 0 → 1 → -1 → 0 → 1, so both later requests are admitted and two are pending at once | one decrement per finished request, so the counter equals the user's pending requests and never exceeds the depth | not executed | Counters.AsWrittenExceedsDepth | Counters.CorrectedCountIsPending |
| lighty_mtg.py:300-334 | the commands build `MTGCardGenerator(action, prompt, channel, user)`, but `__init__` takes only `prompt, channel, user` (modules/mtg_generator.py:19) | any `lighty_mtg` command from an enabled, unbanned user: the call raises `TypeError` before `is_room_in_queue`, so nothing is queued and no answer is sent | `__init__` takes the action and stores it, so that `process_queue` can tell a single card from a pack | not executed | Dispatch.Client.CardCommandAsWritten | Dispatch.Client.CardCommand |
