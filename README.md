# Lost Ark merchant and island notifier — a verified model

This project models the notification core of a Discord bot for Lost Ark. The bot
listens to a merchants hub and to its own island calendar. It announces notable
wandering merchants and upcoming island sessions in registered channels, keeps a
merchant announcement's vote count current, and turns the relative timestamps of
finished announcements into absolute ones. Every announcement is recorded in a
`messages` table so that it is never repeated. Chat commands register and remove
channels in a `channels` table.

The model is written in Dafny. Each event handler is a method over a chat client
(`Chat.Client`) and two database tables (`Store.Table`). It is proved equal to a
function over a value `Bot.World`, which pairs the messages table with the chat.
The promises of the code are lemmas about those functions:

- announcing twice announces nothing new, on every channel and across the re-announcement on reconnect (`Merchants.FoundEventStable`, `Merchants.CheckActiveStable`, `IslandAlerts.IslandAlertStable`, `EarlyBot.FoundGroupStable`, `EarlyBot.InitialStable`);
- at most one record exists per merchant and channel (`Merchants.FoundEventUnique`, `Merchants.CheckActiveUnique`);
- at most one registration exists per channel, guild and type (`Commands.*Unique`);
- the `Votos: N` rewrite keeps only the last count, on every channel (`Markers.VotesLastWins`, `Merchants.VotesOnChannelsLastWins`);
- a sweep leaves no relative timestamp behind in any recorded message it can fetch (`Merchants.ListCheckSweeps`, `IslandAlerts.IslandsCleanupKeeps`);
- cleanup never touches rows of the other kind (`Merchants.ClearKeepsIslandRows`, `IslandAlerts.IslandsCleanupKeeps`).

The model also covers two earlier versions of the bot that the repository still ships:

- `index.js` keeps a map in memory (module `FirstBot`);
- `src/index.js` uses a single channels table (modules `EarlyBot` and `LegacyCommands`).

Layout, one module per file (`early_bot.dfy` holds two):

| file | module | models |
|---|---|---|
| wrappers.dfy | Wrappers | `Option` |
| text.dfy | Text | decimal numerals, `toLowerCase`, `split(' ')[1]` |
| markers.dfy | Markers | the three regular expressions `Votos: -?[0-9]+`, `Expiración: <t:([0-9]+):R>`, `Empieza En: <t:([0-9]+):R>` and `String.replace` with them |
| store.dfy | Store | the knex-backed `Database` class (src/database/database.js) |
| chat.dfy | Chat | the Discord client: send, fetch, edit, the channel cache, readiness |
| world.dfy | Bot | the shared state and the timestamp sweep |
| tracker.dfy | Tracker | `IslandTracker` (src/services/islands.js) |
| islands.dfy | IslandAlerts | src/handlers/islands.js |
| merchants.dfy | Merchants | src/handlers/merchants.js |
| commands.dfy | Commands | src/services/helpers/discord-commands.js |
| legacy_commands.dfy | LegacyCommands | src/commands.js over src/database.js |
| early_bot.dfy | LegacyHub, EarlyBot | src/index.js |
| first_bot.dfy | FirstBot | index.js |

The clock, the environment variables, the merchant catalog and the answers of the
hub are parameters. Whether each chat reply succeeds is also a parameter
(`replyOk`).

## Model

| member | source | states |
|---|---|---|
| Text.IntToString | src/handlers/merchants.js:154-156 | a vote count prints as an optional `-` followed by one or more digits, so `-?[0-9]+` can match it again |
| Text.ToLower | src/handlers/merchants.js:83-85 | ASCII lower-casing keeps the length and maps each `A`-`Z` to its lower-case letter, every other character to itself |
| Text.Word | src/services/helpers/discord-commands.js:21 | the text before the first space is a space-free prefix followed by a space or the end |
| Text.SecondWordOf | src/services/helpers/discord-commands.js:21 | `split(' ')[1]` of `command type rest` is `type` |
| Markers.DigitRunSpec | src/handlers/merchants.js:154 | `[0-9]+` is greedy: it takes every leading digit and stops at the first non-digit |
| Markers.VotesTextMatches | src/handlers/merchants.js:154-156 | the replacement `Votos: N` is itself exactly one whole match of the pattern when followed by a non-digit |
| Markers.VotesOverwrite | src/handlers/merchants.js:154-156 | a later global replace of `Votos: -?[0-9]+` gives the same text whether or not an earlier vote rewrite happened |
| Markers.VotesIdempotent | src/handlers/merchants.js:154-156 | rewriting the vote count to the same number twice equals doing it once |
| Markers.VotesLastWins | src/handlers/merchants.js:154-156 | two vote updates in a row leave the text the second alone would leave |
| Markers.VotesKeepOtherText | src/handlers/merchants.js:154-156 | the rewrite changes only the counts: with the counts blanked out, the text is unchanged |
| Markers.ReplaceWithoutMarker | src/handlers/merchants.js:193 | a text without a match is left as it is by a replace |
| Markers.FirstCaptureNone | src/handlers/merchants.js:191-193 | `match(regex)?.[1]` is missing exactly when the text has no marker |
| Markers.CaptureIsDigits | src/handlers/merchants.js:163 | the captured timestamp is a non-empty run of digits |
| Markers.NoMarkerLeft | src/handlers/merchants.js:194 | replacing every marker by a stamp that cannot start a marker leaves no marker at all |
| Markers.ExpiryStampFacts | src/handlers/merchants.js:194 | `Expirado: <t:N:f>` cannot start or contain a new `Expiración:` match |
| Markers.IslandStampFacts | src/handlers/islands.js:136 | `Terminó: <t:N:f>` cannot start or contain a new `Empieza En:` match |
| Markers.RewriteExpirySpec | src/handlers/merchants.js:191-194 | an expiry rewrite happens exactly when a marker is present, and the rewritten text has none left |
| Markers.RewriteExpiryFirst | src/handlers/merchants.js:191-194 | the text before the first marker is kept, and every marker becomes `Expirado: <t:T:f>`, with T the timestamp of the first marker |
| Markers.RewriteIslandStartSpec | src/handlers/islands.js:133-136 | an island rewrite happens exactly when an `Empieza En:` marker is present, and none is left after it |
| Markers.RewriteIslandStartFirst | src/handlers/islands.js:133-136 | every `Empieza En:` marker becomes `Terminó: <t:T:f>`, with T the first marker's timestamp; the text before the first marker is kept |
| Store.SelectSpec | src/database/database.js:42-48 | `find` returns exactly the rows that satisfy every filter, and no more rows than the table has |
| Store.SelectNone | src/database/database.js:25-30 | with no filter, every row is selected |
| Store.SelectNarrow | src/database/database.js:25-30 | each filter `parseFilters` adds narrows the query: selecting by `fs + [f]` is selecting by `f` within the rows selected by `fs` |
| Store.SelectAppend | src/database/database.js:42-48 | selecting from two row lists joined is joining the two selections |
| Store.SelectSnoc | src/database/database.js:53-59 | after an insert, a query finds what it found before, plus the new row exactly when that row matches |
| Store.RejectSpec | src/database/database.js:64-69 | `delete` keeps exactly the rows that fail some filter |
| Store.SelectRejectPartition | src/database/database.js:64-69 | the deleted rows and the kept rows together are the table (as a multiset) |
| Store.RejectShrinks | src/database/database.js:64-69 | a delete never adds a row to any query's answer |
| Store.RejectClears | src/database/database.js:64-69 | after deleting by `fs`, a query by stricter filters finds nothing |
| Store.RejectNone | src/database/database.js:64-69 | a delete with no filter empties the table |
| Store.PatchSpec | src/database/database.js:75-80 | `update` keeps the row count, and changes only the listed fields of the matching rows |
| Store.NewRowSpec | src/database/database.js:53-59 | an inserted row gets a fresh `id` unless the data names one, and keeps every other field of the data |
| Store.ParseFilters | src/database/database.js:25-30 | applying the filters one at a time gives the rows satisfying all of them |
| Store.Table.Find | src/database/database.js:42-48 | returns the rows satisfying every filter; the table is unchanged |
| Store.Table.Insert | src/database/database.js:53-59 | appends the data with a fresh `id` and returns that id |
| Store.Table.Delete | src/database/database.js:64-69 | removes exactly the matching rows and returns how many it removed |
| Store.Table.Update | src/database/database.js:75-80 | patches the matching rows and returns how many matched |
| Chat.Lookup | src/handlers/merchants.js:155 | a message can be fetched from a channel exactly when it exists and was posted there |
| Chat.SentKeeps | src/handlers/merchants.js:96-121 | sending posts a message under a new id and leaves every earlier message as it was |
| Chat.Client.Send | src/handlers/merchants.js:96-121 | posts the text in the channel and returns the new message's id |
| Chat.Client.Fetch | src/handlers/merchants.js:155 | returns the message's text when it is in that channel, and nothing otherwise |
| Chat.Client.Edit | src/handlers/merchants.js:156 | replaces the message's text |
| Bot.GrowsSelect | src/database/database.js:53-59 | inserting rows never shrinks a query's answer |
| Bot.RestampSpec | src/handlers/merchants.js:191-194 | a message is edited exactly when it has a marker, and an edited message would not be edited again |
| Bot.SweptTrans | src/handlers/islands.js:130-138 | two sweeps together restamp each message at most once |
| Bot.RestampAllSwept | src/handlers/merchants.js:188-196 | a sweep creates and deletes no message, moves none, and leaves each one unchanged or restamped |
| Bot.SweptLookup | src/handlers/islands.js:132 | a sweep does not change which messages can be fetched from which channel |
| Bot.MarkerFreeSwept | src/handlers/merchants.js:188-196 | a message with no marker left keeps having none through further sweeps |
| Bot.RestampOneClears | src/handlers/merchants.js:189-195 | the message a sweep step handles has no marker left afterwards, if it can be fetched |
| Bot.RestampAllClears | src/handlers/merchants.js:188-196 | after a channel's sweep, every message the rows point to that can be fetched has no marker left |
| Bot.RestampMessage | src/handlers/merchants.js:189-195 | fetches a recorded message, edits it when it has a marker, and reports whether the fetch succeeded |
| Bot.Sweep | src/handlers/merchants.js:188-196 | the chat after the loop is the sweep over the recorded messages, in order |
| Tracker.DailyIslands | src/services/islands.js:20-46 | an island is kept exactly when it is dated today and, on a weekend, is listed for the half of the day now running |
| Tracker.DailyIslandsIdempotent | src/services/islands.js:27-45 | filtering today's islands again changes nothing |
| Tracker.StartsSoonWindow | src/services/islands.js:80-96 | a session qualifies exactly when it starts 1 to 26 minutes from now, and 15:00 counts only on weekends |
| Tracker.StartsSoonUnique | src/services/islands.js:10 | the sessions are two hours apart, so at most one of them starts soon |
| Tracker.Upcoming | src/services/islands.js:80-96 | the upcoming time is the start of a qualifying session, and there is none exactly when no session qualifies |
| Tracker.FindUpcoming | src/services/islands.js:79-96 | the scan stops at the first qualifying session, as `some` does |
| Tracker.IslandTracker.SetupTracker | src/services/islands.js:56-115 | starts the job only when none exists; otherwise it raises an alert and changes nothing else |
| Tracker.IslandTracker.StopTracker | src/services/islands.js:117-124 | stops an existing job; with no job it raises an alert |
| Tracker.IslandTracker.OnTick | src/services/islands.js:64-108 | reloads the calendar and raises the listed alerts; emits ISLAND_ALERT with today's islands when a session starts soon, and ISLANDS_CLEANUP otherwise |
| IslandAlerts.NameValues | src/handlers/islands.js:44 | the `in` list holds each island's name, in order |
| IslandAlerts.IslandRowMatches | src/handlers/islands.js:40-56 | the row recorded for an announced island matches the duplicate check for that island list and channel |
| IslandAlerts.SendIslandsGrows | src/handlers/islands.js:63-85 | announcing n islands appends n rows and posts n messages |
| IslandAlerts.AlertChannelAnnounces | src/handlers/islands.js:40-85 | a channel is left untouched exactly when it already has one of the announcements, and is announced afterwards |
| IslandAlerts.AnnouncedGrows | src/handlers/islands.js:58-61 | once announced, a channel stays announced as rows are added |
| IslandAlerts.AlertChannelsSettles | src/handlers/islands.js:24-87 | after ISLAND_ALERT, every registered and cached islands channel has the announcement |
| IslandAlerts.AlertChannelsIdle | src/handlers/islands.js:32-61 | when every channel already has the announcement, ISLAND_ALERT changes nothing |
| IslandAlerts.IslandAlertStable | src/handlers/islands.js:19-88 | a second identical ISLAND_ALERT changes nothing |
| IslandAlerts.AlertOnChannel | src/handlers/islands.js:40-85 | the duplicate check and then one announcement and record per island, for one channel |
| IslandAlerts.AnnounceIslands | src/handlers/islands.js:63-85 | announces and records each island in order |
| IslandAlerts.AnnounceIsland | src/handlers/islands.js:65-83 | sends the island's message and records its id with the island name and a null merchant |
| IslandAlerts.AlertOnChannels | src/handlers/islands.js:32-87 | the per-channel work for each registered row whose channel is cached, in row order; an uncached channel is skipped |
| IslandAlerts.OnIslandAlert | src/handlers/islands.js:19-88 | does nothing unless the client is ready; otherwise announces on each registered islands channel in the cache |
| IslandAlerts.AllFetchableSnoc | src/handlers/islands.js:130-138 | all of `rows[..i+1]` can be fetched exactly when all of `rows[..i]` and `rows[i]` can |
| IslandAlerts.FetchableSwept | src/handlers/islands.js:130-138 | a sweep does not change which recorded messages can be fetched |
| IslandAlerts.CleanupChannelRows | src/handlers/islands.js:113-151 | a channel's cleanup adds no row, keeps every row outside the channel's island rows, and only restamps messages |
| IslandAlerts.CleanupChannelClears | src/handlers/islands.js:140-151 | when every recorded message could be fetched, the channel has no island row left |
| IslandAlerts.CleanupChannelsKeeps | src/handlers/islands.js:105-153 | the cleanup of all channels adds no row and keeps every merchant row |
| IslandAlerts.IslandRowsChannel | src/handlers/islands.js:113-124 | an island row belongs to one channel only |
| IslandAlerts.CleanupChannelMarks | src/handlers/islands.js:113-151 | after a channel's cleanup, none of its island announcements that can be fetched has an `Empieza En:` marker |
| IslandAlerts.CleanupChannelsMarks | src/handlers/islands.js:90-154 | after the cleanup of every cached islands channel, each one's fetchable island announcements have no `Empieza En:` marker, nor do the messages of the deleted rows |
| IslandAlerts.IslandsCleanupKeeps | src/handlers/islands.js:90-154 | ISLANDS_CLEANUP adds no row, keeps every merchant row and only restamps `Empieza En:` markers; when ready, every fetchable island announcement of a cached islands channel has no marker left |
| IslandAlerts.CleanupOnChannel | src/handlers/islands.js:113-151 | sweeps the channel's island messages, then deletes its island rows only if every fetch succeeded |
| IslandAlerts.OnIslandsCleanup | src/handlers/islands.js:90-154 | does nothing unless the client is ready; otherwise cleans up each registered islands channel in the cache |
| Merchants.AppearanceTime | src/handlers/merchants.js:32-54 | the chosen hour is one whose window holds now, and there is none exactly when no window holds now |
| Merchants.AppearanceTimeFirst | src/handlers/merchants.js:36-53 | `filter(...)[0]` picks the first hour whose window holds now |
| Merchants.RemainingTime | src/handlers/merchants.js:16-30 | the expiry in seconds is the window's end rounded down to a whole second |
| Merchants.RecordMatch | src/handlers/merchants.js:63-74 | the row recorded for a merchant and channel matches the duplicate check for exactly that pair |
| Merchants.FoundOneUnique | src/handlers/merchants.js:63-127 | announcing one merchant keeps at most one record per merchant and channel |
| Merchants.FoundAllUnique | src/handlers/merchants.js:56-134 | announcing a group keeps at most one record per merchant and channel |
| Merchants.FoundOneSettles | src/handlers/merchants.js:63-127 | announcing a merchant changes nothing exactly when it is recorded, unremarkable, uncatalogued or out of its window; afterwards that holds |
| Merchants.SettledGrows | src/handlers/merchants.js:76-81 | a merchant that needs no announcement still needs none after rows are added |
| Merchants.SettledSnoc | src/handlers/merchants.js:56-134 | settling the last merchant after the others leaves all of them settled |
| Merchants.FoundAllSettles | src/handlers/merchants.js:56-134 | after a group is announced on a channel, no merchant of it needs another announcement there |
| Merchants.FoundAllIdle | src/handlers/merchants.js:56-134 | announcing a group whose merchants are all settled changes nothing |
| Merchants.FoundAllStable | src/handlers/merchants.js:56-134 | announcing the same group twice equals announcing it once |
| Merchants.NotifyMerchant | src/handlers/merchants.js:59-127 | for one merchant and channel: the duplicate check, the notability test, the window, the send and the record |
| Merchants.NotifyMerchantFound | src/handlers/merchants.js:56-134 | each merchant of the group, in order |
| Merchants.OnMerchantFound | src/handlers/merchants.js:238-270 | does nothing unless the client is ready; announces to the given channel, or to each registered merchants channel in the cache; `FoundEventUnique` and `FoundEventStable` state what that state keeps |
| Merchants.FoundOnChannelsUnique | src/handlers/merchants.js:256-266 | announcing a group on every cached registered channel keeps at most one record per merchant and channel |
| Merchants.FoundEventUnique | src/handlers/merchants.js:238-270 | MERCHANT_FOUND, to one channel or to all, keeps at most one record per merchant and channel |
| Merchants.FoundOnChannelsSettles | src/handlers/merchants.js:256-266 | after the fan-out, every merchant of the group is settled on every cached registered channel, and rows were only added |
| Merchants.FoundOnChannelsIdle | src/handlers/merchants.js:256-266 | the fan-out of a group settled on every cached channel changes nothing |
| Merchants.EventSettledGrows | src/handlers/merchants.js:238-270 | a MERCHANT_FOUND with nothing left to announce stays so as rows are added |
| Merchants.FoundEventSettles | src/handlers/merchants.js:238-270 | after MERCHANT_FOUND nothing is left to announce for the group on the channels it reaches |
| Merchants.FoundEventIdle | src/handlers/merchants.js:238-270 | a MERCHANT_FOUND with nothing left to announce changes nothing |
| Merchants.FoundEventStable | src/handlers/merchants.js:238-270 | the same MERCHANT_FOUND twice equals once, on every channel it reaches |
| Merchants.VotesOneLastWins | src/handlers/merchants.js:136-157 | two vote updates for a merchant and channel leave the message as the second alone would |
| Merchants.VotesOneIdempotent | src/handlers/merchants.js:136-157 | repeating a vote update changes nothing more |
| Merchants.NotifyMerchantVotesChanged | src/handlers/merchants.js:136-157 | finds the merchant's record for the channel, fetches its message, and rewrites its vote count |
| Merchants.NotifyVotesOnChannels | src/handlers/merchants.js:289-298 | the vote update on each registered merchants channel in the cache, in order |
| Merchants.OnVotesChanged | src/handlers/merchants.js:272-299 | does nothing unless the client is ready; otherwise updates each registered merchants channel in the cache |
| Merchants.RegisteredSpec | src/index.js:23-32 | the cached registered channels are exactly the channels some row registers that the client has cached |
| Merchants.Target | src/index.js:74-80 | the message a vote update edits is in the channel being updated |
| Merchants.VotesOnListSpec | src/index.js:72-82 | a vote update over a channel list changes no message's channel, and rewrites exactly the messages recorded for the merchant on a listed channel |
| Merchants.VotesOnListLastWins | src/index.js:72-82 | two vote updates over a channel list leave the messages as the second alone would |
| Merchants.VotesOnChannelsList | src/handlers/merchants.js:276-298 | the MERCHANT_VOTES_CHANED fan-out is the vote update over the cached registered merchants channels, in row order |
| Merchants.VotesOnChannelsLastWins | src/handlers/merchants.js:272-299 | two MERCHANT_VOTES_CHANED events for a merchant leave every channel's messages as the second alone would |
| Merchants.ClearKeepsIslandRows | src/handlers/merchants.js:203-209 | after clearing, a row remains exactly when it was there and has a null merchant; the id counter is unchanged |
| Merchants.SweepChannelsSwept | src/handlers/merchants.js:177-198 | the sweep of every merchants channel only restamps `Expiración:` markers |
| Merchants.SweepChannelsClears | src/handlers/merchants.js:177-198 | after the sweep, every recorded message of a cached merchants channel that can be fetched has no `Expiración:` marker left |
| Merchants.ListCheckSweeps | src/handlers/merchants.js:301-306 | MERCHANTS_LIST_CHECK only restamps messages and leaves every message without an expiry marker as it was; when it clears, every recorded fetchable message of a cached merchants channel has no expiry marker left |
| Merchants.SweepMerchantChannels | src/handlers/merchants.js:177-198 | sweeps the recorded messages of each registered merchants channel in the cache |
| Merchants.Clear | src/handlers/merchants.js:159-210 | with no active merchant and no error: sweeps, then deletes every merchant row; otherwise nothing |
| Merchants.OnListCheck | src/handlers/merchants.js:301-306 | does nothing unless the client is ready; otherwise clears, with `hasActive` meaning a non-empty merchant list |
| Merchants.CheckActiveMerchants | src/handlers/merchants.js:212-220 | when the poll succeeded, each active group is handled as a MERCHANT_FOUND event in order; otherwise nothing happens |
| Merchants.CheckActiveUnique | src/handlers/merchants.js:212-220 | `checkActiveMerchants` keeps at most one record per merchant and channel |
| Merchants.CheckActiveSettles | src/handlers/merchants.js:212-220 | afterwards nothing is left to announce for any reported group, and rows were only added |
| Merchants.CheckActiveIdle | src/handlers/merchants.js:212-220 | re-announcing groups with nothing left to announce changes nothing |
| Merchants.CheckActiveStable | src/handlers/merchants.js:212-232 | running `checkActiveMerchants` again with the same report, as MERCHANTS_READY and a reconnect do, equals running it once |
| Commands.ChannelType | src/services/helpers/discord-commands.js:21-23 | a type is read only when it is the message's second word and is `merchants` or `islands` |
| Commands.CommandAsWritten | src/services/helpers/discord-commands.js:15-116 | as written, `/setchannel` and `/removechannel` always answer `false` and leave the table unchanged |
| Commands.SplitTypeError | src/services/helpers/discord-commands.js:21 | a well-formed `/setchannel merchants` registers nothing as written, but registers the channel once the type is read from the text |
| Commands.SetChannelId | src/services/helpers/discord-commands.js:15-72 | the guard, the type check, the duplicate check, the insert and the reply, with the type read from the message's text |
| Commands.RemoveChannelId | src/services/helpers/discord-commands.js:74-116 | the guard, the type check, the delete of the channel's registration for that type, and the reply |
| Commands.Clear | src/services/helpers/discord-commands.js:118-140 | only the administrator's exact `/clearguild` or `/clearall` deletes: the guild's channels or every channel |
| Commands.SetAlertChannel | src/services/helpers/discord-commands.js:142-184 | registers the channel as the guild's alert channel unless it already is |
| Commands.RemoveAlertChannel | src/services/helpers/discord-commands.js:186-215 | deletes the channel's alert registration |
| Commands.ChannelRowMatches | src/services/helpers/discord-commands.js:29-65 | a registered row matches the duplicate check for exactly its own channel, guild and type |
| Commands.InsertUnique | src/services/helpers/discord-commands.js:52-65 | inserting after an empty duplicate check keeps every registration unique |
| Commands.DeleteUnique | src/services/helpers/discord-commands.js:88-109 | a delete keeps every registration unique |
| Commands.SetChannelUnique | src/services/helpers/discord-commands.js:15-72 | `/setchannel` keeps at most one registration per channel, guild and type |
| Commands.RemoveChannelUnique | src/services/helpers/discord-commands.js:74-116 | `/removechannel` keeps registrations unique |
| Commands.ClearUnique | src/services/helpers/discord-commands.js:118-140 | clearing keeps registrations unique |
| Commands.SetAlertUnique | src/services/helpers/discord-commands.js:142-184 | `/setalert` keeps at most one alert registration per channel and guild |
| Commands.RemoveAlertUnique | src/services/helpers/discord-commands.js:186-215 | `/removealert` keeps registrations unique |
| Commands.SetChannelRegisters | src/services/helpers/discord-commands.js:29-67 | after `/setchannel <type>` the channel has exactly one registration for the type; the answer is `true` exactly when it was new and the reply succeeded |
| Commands.RemoveChannelUnregisters | src/services/helpers/discord-commands.js:88-111 | after `/removechannel <type>` the channel has no registration for the type |
| Commands.UnregistrationCovers | src/services/helpers/discord-commands.js:88-109 | the delete's filters, in their other order, catch every row the registration query finds |
| Commands.ClearEmpties | src/services/helpers/discord-commands.js:128-133 | `/clearall` empties the table, and `/clearguild` leaves no row of the guild |
| Commands.ClearNeedsAdmin | src/services/helpers/discord-commands.js:120-126 | anyone but the administrator changes nothing and gets `false` |
| Commands.AlertRoundTrip | src/services/helpers/discord-commands.js:142-215 | `/setalert` then `/removealert` in the same channel registers exactly one alert channel, then none |
| Commands.TypedCommandParses | src/services/helpers/discord-commands.js:17-23 | `command type` starts with the command and has `type` as its type |
| LegacyCommands.SetChannelId | src/commands.js:8-21 | only the exact `/setchannel` from a person inserts `{channelId, guildId}` |
| LegacyCommands.RemoveChannelId | src/commands.js:23-36 | only the exact `/removechannel` from a person deletes the channel's rows in its guild |
| LegacyCommands.ChannelRowMatches | src/database.js:34-46 | an inserted row matches `where({channelId, guildId})` for exactly its own channel and guild |
| LegacyCommands.SetChannelAdds | src/database.js:34-41 | with no duplicate check, each `/setchannel` adds one more row for the channel |
| LegacyCommands.RemoveChannelRemoves | src/database.js:43-46 | `/removechannel` deletes every row of the channel in its guild, and only those |
| LegacyHub.RarityName | src/index.js:13-19 | rarities 0 to 4 have names; any other rarity prints as `undefined` |
| EarlyBot.FoundTextMention | src/index.js:54-63 | an announcement opens with `@everyone` exactly when the card is Wei, ignoring case |
| EarlyBot.AnnounceOnChannel | src/index.js:48-65 | the duplicate check, then the send and the record |
| EarlyBot.AnnounceMerchant | src/index.js:40-67 | a notable merchant announced on each listed channel |
| EarlyBot.HandleMerchantFound | src/index.js:34-70 | each merchant of the group, in order |
| EarlyBot.NotifyInitialMerchants | src/index.js:89-100 | the hub's active groups, each handled as a MERCHANT_FOUND event, when there are channels and groups |
| EarlyBot.HandleVotesChanged | src/index.js:72-82 | the vote update on each listed channel |
| EarlyBot.FoundOneSettles | src/index.js:40-65 | a merchant on a channel is left alone exactly when it is skipped or recorded, and is settled afterwards |
| EarlyBot.SettledGrows | src/index.js:49-52 | a settled merchant stays settled as rows are added |
| EarlyBot.SettledSnoc | src/index.js:47-67 | settling the last channel after the others leaves all of them settled |
| EarlyBot.FoundOnListSettles | src/index.js:47-67 | after announcing a merchant, it is settled on every listed channel |
| EarlyBot.FoundGroupSettles | src/index.js:34-70 | after a group is announced, each merchant is settled on each listed channel |
| EarlyBot.FoundOnListIdle | src/index.js:47-67 | announcing a settled merchant changes nothing |
| EarlyBot.FoundGroupIdle | src/index.js:34-70 | announcing a settled group changes nothing |
| EarlyBot.FoundGroupStable | src/index.js:34-70 | announcing the same group twice equals announcing it once |
| EarlyBot.FoundGroupsSettles | src/index.js:95-99 | after the hub's groups are announced, each merchant of each group is settled on each listed channel |
| EarlyBot.FoundGroupsIdle | src/index.js:95-99 | announcing groups whose merchants are all settled changes nothing |
| EarlyBot.InitialStable | src/index.js:89-100 | announcing the initial merchants twice with the same answer equals announcing them once |
| EarlyBot.FoundOneUnique | src/index.js:49-65 | announcing keeps at most one record per merchant and channel |
| EarlyBot.FoundOnListUnique | src/index.js:47-67 | the same, over a channel list |
| EarlyBot.FoundGroupUnique | src/index.js:34-70 | the same, over a group |
| EarlyBot.FoundGroupsUnique | src/index.js:95-99 | the same, over the hub's list of groups |
| EarlyBot.InitialUnique | src/index.js:89-100 | the initial announcements keep at most one record per merchant and channel |
| EarlyBot.HandleHasActiveMerchantsAsWritten | src/index.js:84-87 | as written: the records are deleted only when the hub's answer is missing |
| EarlyBot.HandleHasActiveMerchants | src/index.js:84-87 | as intended: the records are deleted when the hub reports no active merchants |
| EarlyBot.ClearedSpec | src/index.js:84-87 | with no active merchants every record is gone; otherwise the table is unchanged |
| EarlyBot.EmptyReplyKeepsRecords | src/index.js:84-87 | an empty list of groups keeps every record as written, and deletes them all as intended |
| EarlyBot.EarlyBot.RegisterChannels | src/index.js:23-32 | the channel list becomes the registered channels in the cache |
| EarlyBot.EarlyBot.ReadyAnnounce | src/index.js:89-109 | registers when the list is empty, then announces the hub's initial merchants to the list |
| EarlyBot.EarlyBot.ClientReady | src/index.js:89-114 | as written: registers when the list is empty and announces the initial merchants; binds the handlers to the current list only when there are no channels or the hub answered with a list, and otherwise leaves them unbound |
| EarlyBot.EarlyBot.ClientReadyGuarded | src/index.js:89-114 | as intended: the same, except that a missing answer is skipped by the guard and the handlers are bound; only a failed hub call leaves them unbound |
| EarlyBot.MissingAnswerUnbinds | src/index.js:93-95 | with channels registered and no answer, the handlers stay unbound as written and are bound as intended |
| EarlyBot.EarlyBot.OnMessage | src/index.js:130-142 | runs both commands, re-registers after a successful one, and announces the initial merchants to a newly set channel |
| EarlyBot.EarlyBot.OnMerchantFound | src/index.js:34 | as written: announces to the list bound when the client became ready |
| EarlyBot.EarlyBot.OnMerchantFoundCurrent | src/index.js:34 | as intended: announces to the current channel list |
| EarlyBot.EarlyBot.OnVotesChanged | src/index.js:72 | as written: updates the channels of the list bound when the client became ready |
| EarlyBot.EarlyBot.OnVotesChangedCurrent | src/index.js:72 | as intended: updates the channels of the current list |
| EarlyBot.StaleListening | src/index.js:102-114 | a channel registered after start-up is never announced to by the bound handler, and would be by the current list |
| FirstBot.FirstBot.ClientReady | index.js:69-75 | resolves the configured channel ids against the cache |
| FirstBot.FirstBot.OnMerchantFound | index.js:22-52 | posts the first merchant of the group to each channel, if notable, and appends each new message to the merchant's list |
| FirstBot.FirstBot.OnVotesChanged | index.js:54-62 | rewrites the vote count of each listed message of the merchant |
| FirstBot.FirstBot.OnHasActiveMerchantsAsWritten | index.js:64-67 | as written: the map is cleared only when the hub's answer is missing |
| FirstBot.FirstBot.OnHasActiveMerchants | index.js:64-67 | as intended: the map is cleared when the hub reports no active merchants |
| FirstBot.PostAllSpec | index.js:32-51 | posting adds one message per cached channel, and appends exactly those ids to the merchant's list alone |
| FirstBot.PostAllTracked | index.js:32-51 | every listed id names an existing message, before and after posting; old messages are kept |
| FirstBot.FoundTracked | index.js:22-52 | the map keeps naming existing messages after a merchant is found |
| FirstBot.FoundRepeats | index.js:22-52 | with no duplicate check, a repeated MERCHANT_FOUND posts every message a second time |
| FirstBot.EditAllSpec | index.js:61 | the edits rewrite exactly the listed messages and move none |
| FirstBot.EditAllLastWins | index.js:54-62 | two vote updates leave the messages as the second alone would |
| FirstBot.VotesChangedTracked | index.js:54-62 | a vote update keeps the map naming existing messages and moves no message |
| FirstBot.ForgetSpec | index.js:64-67 | as intended, every merchant's list is forgotten when no merchant is active, and kept otherwise |
| FirstBot.EmptyReplyKeepsMap | index.js:64-67 | an empty list of groups keeps the map as written and clears it as intended |

## Left out

- Concurrency is not modelled. The source runs per-channel and per-merchant work under `Promise.all` or an unawaited `forEach`, and the model runs it in list order. Two announcements of the same merchant racing past the duplicate check are therefore not captured. For the same reason, a channel registered twice cannot cause duplicate posts in the model.
- Failures of send, edit and insert are not modelled, except where the source's control flow depends on them. A failed reply makes a command answer `false` (`replyOk`). A failed fetch stops an island channel's cleanup before its delete (`IslandAlerts.CleanupOnChannel`). A failed hub call for the initial merchants is the `rejected` flag of `EarlyBot.EarlyBot.ClientReady`. In the merchant sweep, a message whose fetch fails is skipped; the next line says how the source differs.
- Merchants.SweepChannels: a registered channel missing from the cache, or a message whose fetch fails, is skipped, and the other channels are swept in order before the delete. In the source the throw rejects the `Promise.all`, but the other channels' sweeps are not cancelled: they run on concurrently and race with the delete of the merchant rows, which the model does not capture.
- Logging, `NOTIFY_ALERT` delivery (`notifyAlert`), MERCHANTS_READY, the connection-error handlers, the hub connection and its keep-alive are I/O and are not modelled. The tracker keeps its alerts in a list instead.
- Cron scheduling, intervals and timers are not modelled. `OnTick` is called with the clock and the calendar read as parameters.
- Date arithmetic is not modelled. `moment-timezone` and `new Date(...)` are reduced to a `Clock` value carrying the local midnight, the milliseconds since it, the weekday, the date and the month.
- CSV parsing of the calendar is not modelled: `Tracker.IslandTracker.OnTick` receives the parsed lines, or None when the read failed.
- Text.ToLower: folds only ASCII `A`-`Z`. JavaScript's `toLowerCase` folds every Unicode letter and can change the length (`İ` becomes two characters), so a whitelist entry with non-ASCII capitals may match in the source and not in the model.
- Thresholds that parse as `NaN` (an unset environment variable) are not modelled; thresholds are integers.
- Merchants.Announcement is simplified. It does not upper-case the server name, omits the `RARITIES` labels and the `Item` line, and sends no attachment. The parts the rest of the model reads (the expiry marker, the `Votos:` line and the role mention) are kept.
- The value knex returns from an insert is modelled as the new row's `id` (`Store.Table.Insert`).
- The first bot (index.js) reads `message.content` from the object `send` returned, so it does not see earlier edits. The model reads the current text.
- The early bot's `guildId` match for a newly set channel (src/index.js:139) is simplified to the channel id alone.
- The `in` operator (src/handlers/islands.js:43) is part of the `Store` filter language although the typedef at src/database/database.js:9 does not list it, because the island handler uses it.

## Findings

| source | as written | input that shows it | evidently intended | confidence | as-written member | corrected member |
|---|---|---|---|---|---|---|
| src/services/helpers/discord-commands.js:21 | `message.split(' ')[1]`: a Discord message object has no `split`, so the call throws, the catch answers `false`, and nothing is registered | the message `/setchannel merchants` from a person | `message.content.split(' ')[1]`, registering the channel for `merchants` | high (not executed) | Commands.SplitTypeError | Commands.SetChannelRegisters |
| src/index.js:84-87 | `if (hasActiveMerchants) return;` tests the hub's answer, which is the list of active groups; an empty list is truthy, so the records are never deleted | the hub answers `[]` while the table holds records | delete every record when the list is empty | high (not executed) | EarlyBot.EmptyReplyKeepsRecords | EarlyBot.ClearedSpec |
| index.js:64-67 | the same truthiness test keeps the map of sent messages when the hub answers `[]` | the hub answers `[]` while the map is not empty | clear the map when the list is empty | high (not executed) | FirstBot.EmptyReplyKeepsMap | FirstBot.ForgetSpec |
| src/index.js:34, 72, 111-112 | the handlers are bound with `handleMerchantFound()`, whose default `channelsList = channels` is read once, at subscription; `registerChannels` later assigns a new array to `channels`, which the handlers never see | start with no channels, then `/setchannel` in channel C; the next notable merchant is not announced in C | announce to the current channel list | medium (not executed) | EarlyBot.StaleListening | EarlyBot.EarlyBot.OnMerchantFoundCurrent |
| src/index.js:93-95 | `console.log('Initial merchants count', activeMerchants.length)` reads `length` before the guard `activeMerchants && activeMerchants.length` on the next line, so a missing answer throws, `handleClientReady` rejects, and the hub handlers at lines 111-113 are never bound | channels are registered and the hub answers the active-groups call with `null` | the guard skips the announcements and the handlers are bound | medium (not executed) | EarlyBot.MissingAnswerUnbinds | EarlyBot.EarlyBot.ClientReadyGuarded |
