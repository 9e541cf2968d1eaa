# Guild-bot in Dafny

A model of the decision logic of Guild-bot, a Discord bot that runs
Hypixel SkyBlock guild events. Its centre is the slayer event of the Go bot
(`src/guildData/guildEvent.go`). Each participant's slayer counters are
snapshotted when the event starts, again when it is refreshed, and again
when it ends. A weighted score is computed per snapshot, and the leaderboard
ranks participants by how much their score grew between their first and
their last snapshot.

Around that core the model covers:

- the older TypeScript scorer, which counts the growth in boss attempts per tier;
- the earlier time-window event;
- the join button and the start and registration commands, of the Go bot and of the TypeScript bot;
- the TypeScript member registry;
- the Hypixel profile lookups;
- the string chunker;
- paged embeds and their Previous/Next buttons;
- the autocompletion filters;
- the JSON decoder of REST guild events.

Every command or handler is a pure transition. The bot's maps, the
interaction and the answers of the outside world go in. The maps left
behind, the single reply and the database writes, in their order, come out.

Conventions:

- Scores are exact `real`s; the decimal weights are exact rationals.
- Instants are `int` nanoseconds since the Unix epoch.
- Strings are `seq<char>`, and `strings.ToLower` is ASCII lower-casing.
- Go map iteration order is an explicit `order` parameter. Its requires clause says it enumerates the keys.
- A Go panic, or a TypeScript exception, is an explicit outcome: `Panic`, `Panicked`, `Threw`, `None`, or an `Err`.
- HTTP replies, generated ids, the clock and database answers are parameters or oracle fields (`Remote`, `Lookups`, `HttpReply`).

Modules, one per file:

- `SlayerScore`: boss names and `calculatePoints`.
- `GuildEvents`: the slayer event and its state effects.
- `TsScoring`: `calcSlayerEvent` and its leaderboard text.
- `LegacyEvents`: the time-window event.
- `Commands`: the Go join, start and register commands.
- `TsRegistry`: `Bot.ts` and `/register`.
- `HypixelApi`: `fetchApi` and the profile lookups.
- `Sections`: `ChunkString`.
- `Pagination` and `PaginationButtons`: paged embeds and their buttons.
- `Autocomplete`: the autocompletion filters.
- `EventModel`: the REST guild event and its decoder.
- Shared helpers: `Wrappers`, `Text`, `Collections`, `Sorting`, `GoTime` and `Discord`.

## Model

| member | source | states |
|---|---|---|
| `SlayerScore.ParseBossTypeString` | src/guildData/guildEvent.go:99-111 | a successful parse yields one of the six bosses; a failed one yields the zero boss (Zombie) with `false`, as a missed Go map lookup does |
| `SlayerScore.BossNameRoundTrip` | src/guildData/guildEvent.go:80-111 | the name `String` gives each of the six bosses parses back to that boss with `true` |
| `SlayerScore.ParseInverse` | src/guildData/guildEvent.go:80-111 | a successful parse names the boss whose `String` is the lower-cased input |
| `SlayerScore.ParseIgnoresCase` | src/guildData/guildEvent.go:109 | parsing a string and parsing its lower-cased form give the same answer |
| `SlayerScore.UnknownBossNameDoesNotParse` | src/guildData/guildEvent.go:94-95 | the decimal rendering of any other boss value never parses |
| `SlayerScore.Divisor` | src/guildData/guildEvent.go:269-294 | every kill divisor, including the default of 1 for an unknown boss, is at least 1, so the division is defined |
| `SlayerScore.XpMultiplier` | src/guildData/guildEvent.go:269-294 | every experience multiplier, including the default of 1, is at least 1 |
| `SlayerScore.CalculatePoints` | src/guildData/guildEvent.go:265-311 | a snapshot with no boss data scores 0; non-negative kill and experience counters give a non-negative score |
| `SlayerScore.CalculatePointsInOrder` | src/guildData/guildEvent.go:265-311 | the loop gives the same total whichever order Go visits the boss map in |
| `SlayerScore.PointsIgnoreAttemptsAndIds` | src/guildData/guildEvent.go:296-305 | two snapshots with the same bosses and the same kill totals and experience score the same; attempts, ids, fetch date and the tier split are ignored |
| `SlayerScore.AddBossAddsItsTerms` | src/guildData/guildEvent.go:295-309 | adding a boss to a snapshot adds exactly 100 × (kills / (divisor × 5) + experience × multiplier / 1 000 000) |
| `SlayerScore.UnknownBossCountsWithUnitWeights` | src/guildData/guildEvent.go:292-294 | a boss value outside the six still counts, with divisor 1 and multiplier 1 |
| `SlayerScore.ZombieWeights` | src/guildData/guildEvent.go:289-291 | the Zombie weights: 46 250 kills and 625 000 experience score exactly 200 |
| `GuildEvents.EventTypeString` | src/guildData/guildEvent.go:56-67 | kinds 0, 1 and 2 are named "slayer", "diana" and "dungeons", and only they; any other kind renders in decimal, starting with a digit or '-' |
| `GuildEvents.EventTypeStringInjective` | src/guildData/guildEvent.go:56-67 | distinct kinds render as distinct texts, so a start choice names its event's kind unambiguously |
| `GuildEvents.NewGuildEvent` | src/guildData/guildEvent.go:471-516 | every argument lands in its field, participants start empty, and kind 0/1/2 gives a slayer (with empty data), Diana or Dungeons event; any other kind gives the bare event |
| `GuildEvents.AddUser` | src/guildData/guildEvent.go:195-199 | the user is stored under its snowflake, overwriting any earlier entry; every other participant and every other field is unchanged |
| `GuildEvents.AddUserKeepsUsersKeyed` | src/guildData/guildEvent.go:195-199 | adding users keeps every participant stored under its own snowflake |
| `GuildEvents.ShouldFetchData` | src/guildData/guildEvent.go:201-214 | true exactly when more than three hours have passed since the last fetch; a last fetch in the future, or exactly three hours, gives false |
| `GuildEvents.Convert` | src/guildData/guildEvent.go:518-546 | only keys that parse as a boss survive, each with its ten counters and experience copied verbatim under a fresh id; with `order` enumerating the keys, every parsable key is present |
| `GuildEvents.TakeSnapshot` | src/guildData/guildEvent.go:336-358 | a profile error and a slayer-data error are wrapped with their context; otherwise the snapshot holds the converted boss data, which, when Go's `range` visits every key of the reply's boss map, is exactly the bosses some key names; it is stamped with the participant's clock reading (or the zero time when refreshing, where a failed id is an error) |
| `GuildEvents.SnapshotHoldsEveryBoss` | src/guildData/guildEvent.go:336-358 | with `range` visiting every key, each participant's snapshot of a round holds exactly the bosses named by some key of the boss map the API returned for that participant |
| `GuildEvents.Round` | src/guildData/guildEvent.go:335-359 | succeeds exactly when every participant's fetch succeeds; it then appends exactly one snapshot per participant and touches no other key, and on the first error it stops with the snapshots taken so far |
| `GuildEvents.Start` | src/guildData/guildEvent.go:333-363 | a slayer event gets one snapshot per participant and sets both `IsActive` and `hasEnded`; a fetch error keeps the flags and the partial snapshots; any other event panics |
| `GuildEvents.End` | src/guildData/guildEvent.go:365-394 | a slayer event gets one final snapshot per participant and clears `IsActive`; any other event ends without effect; it never panics |
| `GuildEvents.FetchData` | src/guildData/guildEvent.go:431-457 | a slayer event appends one zero-dated snapshot per participant under the user's own snowflake, changing no flag and not `LastFetch`, and aborts on the first error; any other event fetches nothing |
| `GuildEvents.SnapshotStamps` | src/guildData/guildEvent.go:353-355 | each snapshot of `Start`/`End` is stamped with the clock reading taken for its own participant and those of `FetchData` with the zero time, and a refresh snapshot exists only when its id was generated |
| `GuildEvents.Delta` | src/guildData/guildEvent.go:406-410 | a participant's points are the newest snapshot's score minus the oldest's, so one snapshot, or unchanged boss data, gives 0 |
| `GuildEvents.RankIds` | src/guildData/guildEvent.go:403-418 | the ids are a permutation of the participants, ordered by non-increasing points |
| `GuildEvents.SortByPoints` | src/guildData/guildEvent.go:396-429 | two equal-length sequences: the ids permute the participants, `points[i]` is the delta of `ids[i]`, and points never increase; a participant with no snapshot panics |
| `TsScoring.TableIsUniform` | src/utils/utilsFunction.ts:51-100 | every row of `slayerPoints` weighs tier t by t + 1 and experience by 1 |
| `TsScoring.ScoreBosses` | src/utils/utilsFunction.ts:34-43 | succeeds exactly when every boss key of the new data is in the stored profile and in the table, and then equals the sum over bosses and tiers of (t + 1) × attempts growth; a missing counter counts 0 |
| `TsScoring.UnchangedAttemptsScoreZero` | src/utils/utilsFunction.ts:38-42 | identical attempt counters score 0 |
| `TsScoring.KillsAndXpIgnored` | src/utils/utilsFunction.ts:38-42 | kills and experience never affect the score |
| `TsScoring.DecreaseScoresNegative` | src/utils/utilsFunction.ts:38-42 | the growth is not clamped: one attempt fewer than stored scores -1 |
| `TsScoring.UserScore` | src/utils/utilsFunction.ts:29-43 | a rejected fetch, a missing member or an unscorable key throws; otherwise the participant's score is the reference score |
| `TsScoring.Scores` | src/utils/utilsFunction.ts:28-45 | the scores of all participants in order, or the first exception |
| `TsScoring.MapSet` | src/utils/utilsFunction.ts:44 | `Map.set` keeps a present key's position and replaces its value, and appends a new key at the end |
| `TsScoring.BuildMapKeys` | src/utils/utilsFunction.ts:27-45 | the map has one entry per distinct user id |
| `TsScoring.BuildMapValues` | src/utils/utilsFunction.ts:44 | each entry holds the points of the last occurrence of its id, so a later duplicate overwrites |
| `TsScoring.BuildMapOrder` | src/utils/utilsFunction.ts:44 | the entries are in the order their ids first appear |
| `TsScoring.CalcSlayerEvent` | src/utils/utilsFunction.ts:26-48 | succeeds exactly when every participant scores; the result has one entry per distinct id, holding the points of its last occurrence, in non-increasing order of points |
| `TsScoring.SortedKeepsEntries` | src/utils/utilsFunction.ts:47 | re-sorting the entries keeps exactly the entries, so the keys stay distinct |
| `TsScoring.TiesKeepInsertionOrder` | src/utils/utilsFunction.ts:47 | entries with equal points keep their insertion order, as the stable array sort does |
| `TsScoring.LineHasNoBreak` | src/utils/utilsFunction.ts:12 | a leaderboard line holds no line break when the id holds none |
| `TsScoring.LeaderboardLines` | src/utils/utilsFunction.ts:8-14 | the leaderboard text splits into one line per entry, in order, numbered 1, 2, ... |
| `LegacyEvents.HoursDuration` | src/guildEvent/guildEvent.go:97 | the hours-to-duration product is a 64-bit value, and equals hours × 1h when that fits |
| `LegacyEvents.NewGuildEvent` | src/guildEvent/guildEvent.go:95-122 | id 1, the kind and description given, starting at the clock reading and ending the duration later; the three known kinds pick their type and any other gives the base event |
| `LegacyEvents.GetDuration` | src/guildEvent/guildEvent.go:51-53 | the duration is a 64-bit value |
| `LegacyEvents.DurationOfNewEvent` | src/guildEvent/guildEvent.go:51-53 | a constructed event lasts its duration in hours |
| `LegacyEvents.ActiveWindowOfNewEvent` | src/guildEvent/guildEvent.go:55-58 | a constructed event is active exactly strictly between its start and end; both endpoints are excluded |
| `LegacyEvents.NonPositiveDurationNeverActive` | src/guildEvent/guildEvent.go:55-58 | an event built with no positive duration is never active |
| `LegacyEvents.HooksAreInert` | src/guildEvent/guildEvent.go:60-73 | `Start`, `End` and `AddUser` return no error and change nothing |
| `Commands.JoinEvent` | src/commands/buttons.go:13-49 | only a "joinEvent" prefix acts, and with no second part it panics; a successful join adds exactly the clicker's linked account to the named event, which it was not in before; the user map never changes and nothing is written |
| `Commands.AddParticipant` | src/commands/buttons.go:30-33 | the participant is added to that one event, and every other event and field is unchanged |
| `Commands.JoinReadsSecondPart` | src/commands/buttons.go:14-17 | the event id is the text between the first and the second '_' |
| `Commands.JoinRefusals` | src/commands/buttons.go:19-29 | an unknown event, or a clicker with no linked account, gets its private error and nothing changes |
| `Commands.JoinTwice` | src/commands/buttons.go:30-36 | a first click adds the member; a second click is refused as "already" and changes nothing |
| `Commands.OptionEventId` | src/commands/startGuildEvent.go:24-29 | an event id is read exactly when there is a first option and it is a string |
| `Commands.StartCommand` | src/commands/startGuildEvent.go:15-89 | without an id, a known event and a participant, it refuses with no change; otherwise it runs `Start`, whose effects stay in the map: the command writes exactly when `Start` succeeded, then `SaveEventData` before `UpdateEvent` with both flags set, and a failed `Start` gets "Failed to start event: " and its error, even on an event started before |
| `Commands.StartKnown` | src/commands/startGuildEvent.go:45-51 | after the gates, the event becomes what `Start` left; there are writes exactly when `Start` succeeded, a save then an update with the started embed, and a failed one gets the error reply with its message; no other event changes |
| `Commands.StartEvent` | src/guildData/guildEvent.go:333-363 | what the command relies on about `Start`: the base event panics; success sets both flags and failure leaves them |
| `Commands.StartRefusals` | src/commands/startGuildEvent.go:24-42 | the three refusals before `Start`, in order, with their messages |
| `Commands.StartSlayerSucceeds` | src/commands/startGuildEvent.go:45-51 | starting a slayer event whose fetches all succeed appends one snapshot per participant, sets both flags, and saves before it updates |
| `Commands.StartableChoices` | src/commands/startGuildEvent.go:93-101 | exactly the events that are not active or not ended are offered, as "Event <id>: <kind>" |
| `Commands.StartAutocomplete` | src/commands/startGuildEvent.go:91-106 | the offered choices are a prefix of the startable ones, of length min(25, count) |
| `Commands.AutocompleteOffersStartable` | src/commands/startGuildEvent.go:93-106 | with at most 25 startable events, an event is offered exactly when it is startable, in any map order |
| `Commands.UuidErrorText` | src/commands/registerAccount.go:37-45 | the status-400 error gives "(Not possible)" and the status-404 error gives "(No exiting account with that name)" |
| `Commands.RegisterAccount` | src/commands/registerAccount.go:14-93 | a linked member changes nothing; a missing option panics; otherwise the map changes only at the member's key, and only when both lookups succeed and the Hypixel name matches ignoring case, with a single `SaveUser` |
| `Commands.RegisterExplainsLookupStatus` | src/commands/registerAccount.go:34-54 | a Mojang status of 400, 404 or anything else gets its own reply, and nothing changes |
| `Commands.StatusErrorDistinguishes` | src/utils/hypixelapi.go:197-199 | the error text of any other status differs from those of 400 and 404, so the fallback reply is reached |
| `Commands.RegisterLinksOnMatch` | src/commands/registerAccount.go:63-79 | the link is made exactly on a case-insensitive name match, and it stays in memory even when the save fails |
| `Commands.RegisterSilentOnNameLookupError` | src/commands/registerAccount.go:57-61 | a failing Hypixel lookup ends the command with no reply and no change |
| `Commands.RegisterAlreadyLinked` | src/commands/registerAccount.go:15-28 | an already-linked member is told the stored Minecraft name, and nothing changes |
| `TsRegistry.GetGuildMember` | src/Bot.ts:59-65 | a member is found exactly when `hasGuildMember` holds |
| `TsRegistry.AddGuildMember` | src/Bot.ts:37-57 | a present key throws "already registed" and a rejected pool connection throws its error, both changing nothing; otherwise only the key is added, after which `hasGuildMember` holds and `getGuildMember` returns the value |
| `TsRegistry.AddTwiceRefused` | src/Bot.ts:37-40 | a second add of the same key is refused |
| `TsRegistry.Register` | src/commands/register.ts:17-52 | the command ends in one reply, or a rejected lookup; a green reply means an unregistered user whose linked name matches exactly, and the member is added under the user's id unless the pool connection was rejected; a red one changes nothing |
| `TsRegistry.GreenDespiteFailedConnect` | src/commands/register.ts:30-45 | a rejected pool connection leaves the registry unchanged, yet the command still replies green "You are now registered!" |
| `TsRegistry.MissingLinkReportedFirst` | src/commands/register.ts:24-29 | a missing Hypixel link is reported before the already-registered check |
| `TsRegistry.RegistersOnExactMatch` | src/commands/register.ts:30-49 | an unregistered user gets the green reply exactly when the linked name equals the user name, case-sensitively, and is added when the pool connects; otherwise they get the mismatch message and no add |
| `TsRegistry.RegisteredMemberUnchanged` | src/commands/register.ts:27-29 | a registered user is told so and the registry is unchanged |
| `HypixelApi.FetchApi` | src/utils/hypixelapi.go:189-215 | a value comes back exactly for a 200 reply whose body decodes; any other status gives exactly "error: Unable to fetch data. Status code: <n>" |
| `HypixelApi.StatusErrorTexts` | src/utils/hypixelapi.go:197-199 | the texts for 400 and 404 are the ones `registerAccount` compares against |
| `HypixelApi.SelectedProfileId` | src/utils/hypixelapi.go:160-168 | the id of the first selected profile, or "" when none is selected |
| `HypixelApi.FetchActivePlayerProfile` | src/utils/hypixelapi.go:143-158 | succeeds exactly when the fetch succeeds and the selected id is non-empty, and then returns that id |
| `HypixelApi.FetchPlayerSlayerData` | src/utils/hypixelapi.go:119-131 | succeeds exactly when the UUID is a member of the profile, and then returns that member's slayer data |
| `HypixelApi.CheckUserName` | src/utils/hypixelapi.go:133-141 | succeeds with the linked Discord name exactly when the fetch succeeds |
| `Sections.CeilDiv` | internal/utils/pagination.go:27 | the least number of blocks of size d that cover n |
| `Sections.ChunkString` | internal/utils/section.go:11-21 | the chunks concatenate back to the input; each is non-empty and at most `maxLen` long; all but the last are exactly `maxLen` long; there are ceil(len/maxLen) of them |
| `Sections.ChunkingUnique` | internal/utils/section.go:11-21 | those properties admit only one chunking, so they determine the result |
| `Pagination.PageAmount` | internal/utils/pagination.go:26-28 | the least number of pages of `PageSize` fields that hold every field, and 0 exactly when there are no fields |
| `Pagination.Components` | internal/utils/pagination.go:39-61 | "Previous" then "Next", with ids "page_prev_"+id and "page_next_"+id, disabled exactly when there is no page before or after |
| `Pagination.ButtonIdRoundTrip` | internal/discord/buttons.go:15-21 | splitting a button's id recovers "page", the direction and the whole session id, even when that id contains '_' |
| `Pagination.PageSlice` | internal/utils/pagination.go:67-80 | the page shows `Fields[index × size .. (index + 1) × size]`, clipped to the fields; a negative index panics, and a size of 0 or less shows nothing |
| `Pagination.PageBounded` | internal/utils/pagination.go:67-80 | a page never holds more than `PageSize` fields |
| `Pagination.PagesCoverFields` | internal/utils/pagination.go:26-28 | the pages 0 .. `GetPageAmount` - 1, one after the other, show every field exactly once, in order |
| `Pagination.FooterTotal` | internal/utils/pagination.go:87 | the footer's total is the page amount when pages hold 5 fields, and it never depends on the page size |
| `Pagination.FooterDisagreesWithPageAmount` | internal/utils/pagination.go:87 | with six fields in pages of two there are three pages, yet the footer reads "Page: 0/2" |
| `Pagination.MakeEmbed` | internal/utils/pagination.go:64-92 | the embed carries the current page's fields, at most `PageSize` of them, and panics exactly for a negative index with a positive size |
| `Pagination.InitialResponse` | internal/utils/pagination.go:94-121 | the first reply shows the embed and buttons computed with at least one page |
| `Pagination.FirstPageButtons` | internal/utils/pagination.go:100-107 | on the first page "Previous" is disabled, and "Next" is disabled exactly when all fields fit on one page, including when there are none |
| `PaginationButtons.NextIndex` | internal/discord/buttons.go:49-53 | "prev" steps back only from above 0, "next" steps forward only below the last page, and any other direction stays |
| `PaginationButtons.HandlePaginationButton` | internal/discord/buttons.go:11-70 | the sessions keep their ids; only the session the author pressed on can change, and only in its page index; the updated message has two buttons |
| `PaginationButtons.PressKeepsIndexInRange` | internal/discord/buttons.go:49-57 | an index on a page of its session stays on one after any press, and rebuilding the embed never panics |
| `PaginationButtons.PressRenderedButton` | internal/discord/buttons.go:15-53 | pressing a rendered button moves the author's session one page, unless the button was disabled; anyone else is refused privately |
| `PaginationButtons.ForeignIdIgnored` | internal/discord/buttons.go:15-19 | an id with no '_' gets no reply and changes nothing |
| `PaginationButtons.UnknownSessionReported` | internal/discord/buttons.go:24-34 | an id naming no session gets the public "not found or expired" reply and changes nothing |
| `Autocomplete.MatchesIgnoresCase` | internal/handlers/autocompletions/guild_event.go:37 | the match ignores ASCII case on either side, and the empty text matches every name |
| `Autocomplete.FilterChoices` | internal/handlers/autocompletions/guild_event.go:36-43 | a choice is produced exactly for an item whose name matches |
| `Autocomplete.FilterAppend` | internal/handlers/autocompletions/guild_event.go:36-43 | filtering keeps the input order |
| `Autocomplete.Suggest` | internal/handlers/autocompletions/guild_event.go:36-53 | empty text offers every item in order; other text offers exactly the matching items |
| `Autocomplete.GuildEventAutocomplete` | internal/handlers/autocompletions/guild_event.go:11-56 | any other command, or no options, gets no answer; a fetch error answers with no choices; each choice shows and sends an event id; empty text lists every event |
| `Autocomplete.EventOfferedIffMatches` | internal/handlers/autocompletions/guild_event.go:36-43 | for non-empty text, an event is offered exactly when its id contains the text, ignoring case |
| `Autocomplete.DisplayName` | internal/handlers/autocompletions/user.go:35-39 | the shown name is the looked-up name, or the user id when the lookup fails |
| `Autocomplete.UserAutocomplete` | internal/handlers/autocompletions/user.go:11-65 | any other command, or no options, gets no answer; a fetch error answers with no choices; each choice shows a display name and sends the user's id; empty text lists every user |
| `Autocomplete.EmptyTextListsEveryUser` | internal/handlers/autocompletions/user.go:49-62 | empty text lists every user in order, under the id when the name lookup fails |
| `Autocomplete.FailedLookupMatchesOnId` | internal/handlers/autocompletions/user.go:35-46 | a user whose name lookup fails is offered when their id matches the text |
| `EventModel.UnmarshalJSON` | internal/model/guild_event.go:43-108 | a parse error leaves the target alone; otherwise the basic fields are copied; absent or null event data clears it whatever the type; "diana" and "dungeons" decode their row kind; any other type is an "unknown event type" error |
| `EventModel.DecodedRowsInOrder` | internal/model/guild_event.go:77-101 | decoded Diana or Dungeons data holds one element per decoded row, in order |
| `EventModel.DecodeOverwrites` | internal/model/guild_event.go:61-101 | a successful decode depends on the target only through `IsInLine`, so decoding twice gives the same result as decoding once |
| `EventModel.SetInLine` | internal/model/guild_event.go:148-150 | only the inline flag changes |
| `EventModel.InlineSurvivesDecode` | internal/model/guild_event.go:43-108 | `GetSectionInline` returns the flag `SetInLine` set, and decoding never changes it |

## Left out

- Networking, JSON and the Discord gateway. HTTP requests, `json.Unmarshal` and the Discord session are replaced by their results as parameters (`HttpReply`, `RawGuildEvent`, oracle fields).
- Reply rendering. Embed colours, timestamps, the `GetLeaderboard` and `GetSectionValue` texts and the started embed's fields are display only. Only the texts that a decision depends on are modelled.
- Persistence. Database calls are ordered `Write` effects (`SaveEventData`, `UpdateEvent`, `SaveUser`); a save's failure is an input. The loaders and the DB singleton are concurrency and are left out.
- Timers and tickers are left out. They are concurrency.
- IEEE-754 floating point. Scores and `math.Ceil` use exact arithmetic. The `%v` float formatting of the pagination footer is rendered as an integer, so its exponent form for very large totals is not modelled.
- `strings.ToLower` is modelled as ASCII lower-casing only; Unicode case folding is not.
- Id generation (`gonanoid`, `uuid`) is an input that may fail.
- The expiry of paginated sessions belongs to `PaginatedSessions`, which is not part of this model. A session is either stored or not.
- The embed timestamp and the session's `CreatedAt` are clock readings that no decision reads, so they are left out.
- Call sites that do not compile are left out: the 5-argument `NewGuildEvent` call in `createGuildEvent.go` and the `fetch_*` command handlers.
- The Go commands are modelled over a bot whose events are the slayer-event values of `src/guildData/guildEvent.go`, keyed by their string id. As written, `GuildBot.Events` is a `map[int]` of the older event interface (`src/guildData/GuildBot.go:14-17`), which `buttons.go` and `startGuildEvent.go` index with a string and ask for `GetUsers` and `HasEnded`; and the handler table passes a `*db.GuildBot`, which has no `Events` field (`src/db/GuildBot.go:21-23`). Those handlers do not compile as written, so the model takes the types they evidently expect.
- The network-bound `fetch_*` handlers, the type-only files and the trivial map wrappers are left out.
- `Pagination.PageAmount`: requires a positive page size. `GetPageAmount` divides as floats, so a size of 0 gives +Inf or NaN before the integer conversion. Every session the bot creates uses a page size of 5.
- `Pagination.InitialResponse`: requires a positive page size for the same reason. With a size of 0, `SendInitialPaginationResponse` would clamp the undefined page count to 1; that path is not modelled.
- `PaginationButtons.HandlePaginationButton`: requires every stored session to have a positive page size, for the same reason.
- `Sections.ChunkString`: requires `maxLen > 0`. With 0 the Go loop never ends on a non-empty string, and with a negative value it slices out of range.
- `GuildEvents.SortByPoints`: Go's `sort.Slice` is not stable. The model fixes one of the orders it may produce: a stable insertion sort by descending points.
- `GuildEvents.FetchData`: the refresh takes no clock reading, because its snapshots carry the zero time. The properties about where snapshots go are stated under the condition that every participant is stored under its own snowflake.
- `Autocomplete.UserAutocomplete`: the name lookup is one deterministic function, used for both the filter pass and the fallback pass. A nil choice list and an empty one are the same.
- `Autocomplete.GuildEventAutocomplete`: `StringValue` on a non-string first option panics in discordgo. The model takes every option's value as text.
- `TsRegistry.Register`: the un-awaited `addGuildMember` is taken to complete before the reply. When its pool connection is rejected, the rejection is never handled; what the Node.js process then does with the unhandled rejection is not modelled.
- `HypixelApi.CheckUserName`: the Hypixel reply is reduced to its linked Discord name.
- `Commands.StartCommand`: the embed's end date reads the clock and is display only, so it is not modelled.
