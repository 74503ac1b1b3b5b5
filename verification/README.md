# roll: a verified model of the Twitch chat bot's core

roll is a Twitch chat bot written in Go. It reads chat messages. A message that starts
with "!" is run as a command at the sender's user level: 100 for the configured admin and
0 for everyone else. The bot answers on its channel and talks to the Twitch REST API. Its
features are modules, created by name from a global table of factories. Each module keeps
its records in its own namespace of a key/value store, and most modules serve those
records over JSON-RPC to admin callers.

This project models the bot's core in Dafny and proves properties of the model:

- `Bot`: the module factories, the module table, user levels, the admin check for web
  requests, and the "!" prefix. It also covers template functions and the start-up
  sequence (web server, RPC services, IRC, module start).
- `Commands`: the command registry the bot dispatches through, reduced to what the bot
  relies on. A line is split at white space. The first field names the command. A caller
  below the command's level is refused.
- `Storage`: one store namespace. Records are kept in ascending ID order. A record saved
  with ID 0 gets the next auto-increment ID. Reads and writes may fail.
- `Twitch`: the IRC client, modelled as the list of lines said. The REST API is modelled
  as fixed answers that may fail, plus a log of game changes.
- `Rpc`: the `New`/`Update`/`Get` pattern every service shares. Updates need an admin
  caller. The reply is -1 on a failed save and the record's ID on success.
- `Marathon` and `MarathonCommands`: the marathon state machine over an array of games
  (next, reset game, reset marathon), the status and time rendering, and the chat commands.
  The older revision is modelled too.
- `GameCommands`: "!game" and "!setgame", in both revisions.
- `Alerts`: the minute tick that says due alerts and reschedules them.
- `Giveaways`: listing giveaways and registering a follower at most once, in both revisions.
- `SimpleCommands`: stored (command, response) pairs registered as chat commands, with the
  RPC service that keeps the registry in step with the store.
- `Assets`: the generated in-memory file system. It covers directory and compressed-file
  cursors, sizes and path lookup.
- `Text`, `Web` and `Wrappers`: integer formatting, joining and splitting words, the
  HTTP-to-HTTPS redirect target, and Option/Result values.

The outside world is passed in as parameters:

- the current time (`now`, or the tick time `t`);
- whether the TLS and HTTP listeners open;
- how the IRC connection attempt ends;
- whether store reads and writes succeed;
- the Twitch API's answers.

## Model

| member | source | states |
|---|---|---|
| Text.NatDecimal | modules/marathon/marathon.go:151 | the decimal text of a natural number is a non-empty digit string, one character long exactly below 10 |
| Text.NatDecimalRoundTrip | modules/marathon/marathon.go:151 | reading the `%d` text of a natural number back gives the number |
| Text.Pad2TwoDigits | modules/marathon/marathon.go:151 | `%02d` of 0..99 is exactly two digits that read back as the number |
| Text.FieldsOfJoin | bot.go:194-196 | splitting words joined by single spaces at white space gives the words back |
| Text.FieldsOfWord | bot.go:194-196 | a word followed by white space or nothing is split off as one field |
| Storage.UpsertAscending | modules/giveaway/rpc.go:27 | a save keeps the namespace in ascending ID order |
| Storage.FindSaved | modules/giveaway/rpc.go:27 | after a save, looking up the saved ID gives the saved record |
| Storage.FindOther | modules/giveaway/rpc.go:27 | a save leaves every other ID's record unchanged |
| Storage.UpsertExisting | modules/alert/alert.go:78 | saving under an ID already stored replaces that record in place |
| Storage.UpsertFresh | modules/giveaway/rpc.go:27 | saving under an ID above every stored ID appends the record |
| Storage.RemoveAscending | modules/simplecmd/rpc.go:60 | a delete keeps the namespace in ascending ID order |
| Storage.FindAfterRemove | modules/simplecmd/rpc.go:60 | after a delete the ID is gone and every other ID's record is unchanged |
| Storage.Store.Save | modules/giveaway/rpc.go:27 | ID 0 takes the counter, which then advances; another ID is saved under itself; a failed write changes nothing |
| Storage.Store.One | modules/giveaway/rpc.go:38 | lookup by ID; None when the read fails or the ID is absent |
| Storage.Store.All | modules/alert/alert.go:67 | every record in ID order, or None when the read fails |
| Storage.Store.Delete | modules/simplecmd/rpc.go:60 | removes the ID; fails, changing nothing, when the write fails or the ID is absent |
| Twitch.Lines | modules/giveaway/giveaway.go:60-67 | one chat line per text, in order, on the given channel |
| Twitch.LinesAppend | modules/giveaway/giveaway.go:60-67 | the lines of concatenated texts are the concatenated lines |
| Twitch.Api.SetChannelGame | modules/game/game.go:55-58 | the game change is logged exactly when the API accepts it |
| Commands.Exec | bot.go:194-196 | runs the command the first field names with the remaining fields exactly when the level reaches the command's level; otherwise it is a refusal that names the two levels |
| Commands.ExecStringWords | bot.go:194-196 | a line of words joined by spaces runs the first word's command with the other words when the level suffices, and is refused with the level error otherwise |
| Commands.CmdEngine.AddCommand | bot.go:139-143 | a new name is registered; a taken name keeps its command and the call fails |
| Commands.CmdEngine.RemoveCommand | modules/simplecmd/simplecmd.go:59-61 | removes exactly that name |
| Bot.AdminRequestNeedsBothHeaders | bot.go:211-219 | a web request is admin only with both the configured Client-ID and "OAuth " + token; neither header alone suffices |
| Bot.OneBangStripped | bot.go:181-201 | only the one leading "!" is removed: "!!" + words dispatches a first field that still starts with "!", so it is an unknown command unless a command carries that "!" in its name |
| Bot.PlainTextIgnored | bot.go:181-201 | a text that does not start with "!" dispatches nothing |
| Bot.CommandLine | bot.go:181-209 | "!" + words runs a command of level 1..100 exactly for the configured admin user (user level 100) and refuses everyone else (user level 0) with the level error "user level 0 not >= R." |
| Bot.FactoryRegistry.Register | bot.go:73-79 | a type name is registered once; a second registration fails and keeps the first factory |
| Bot.Bot.AddModuleByName | bot.go:118-136 | fails with the matching message for an unknown type, a taken instance name or a failing factory; otherwise adds exactly that instance |
| Bot.Bot.AddModule | bot.go:114-116 | adds a module under its type name, as `AddModuleByName` does |
| Bot.Bot.AddCommand | bot.go:139-143 | registers the command with the bot's registry; a taken name is refused |
| Bot.Bot.AddTemplateFunc | web.go:79-85 | a function name is registered once; a second registration fails with "<name> template func already registered" and keeps the first |
| Bot.Bot.StartWebserver | web.go:127-174 | adds "url", serves RPC for exactly the modules that provide it, and fails exactly when a needed listener fails |
| Bot.Bot.Connect | bot.go:146-179 | on every path the web server has added the "url" template function and serves RPC for exactly the modules that provide it; every module is started exactly when the web server and the IRC connection succeed, otherwise it returns the matching error and starts none |
| Bot.ModuleScenario | module_test.go:33-81 | the test's sequence of registrations and additions leaves exactly one module |
| Web.RedirectTargetSplits | web.go:109-121 | the target is "https://" + host + path, then "?" + query exactly when the query is non-empty; splitting at the first "?" recovers path and query |
| Web.RedirectTarget | web.go:109-121 | the target starts with "https://" and the redirect host (the redirect base when configured, else the HTTPS address), then the path; something follows the path exactly when the query is non-empty |
| Web.Url | web.go:123-125 | `urlFunc` as written: "http://", the HTTPS address, then "/" and the URI (as written; corrected: SecureUrl) |
| Web.RedirectOfTestRequest | web_test.go:108-132 | "/test?foo" redirects to the same path and query on the HTTPS address |
| Web.UrlNamesTlsAddressOverHttp | web.go:123-125 | as written, a template URL names the HTTPS (TLS) address under the plain "http" scheme: it differs from the secure URL of the same address and path, and only in the scheme |
| Web.SecureUrl | web.go:123-125 | the corrected template URL: "https://", the HTTPS address, then "/" and the URI |
| Web.SecureUrlIsRedirectTarget | web.go:109-125 | the corrected template URL is exactly where the redirector sends a request for the same path when no redirect base is configured |
| Marathon.FirstStartable | modules/marathon/marathon.go:263-274 | the first game with no status or not started, or the length when there is none |
| Marathon.AdvanceAt | modules/marathon/marathon.go:258-282 | a step finishes running games before the first startable game, starts that game, and leaves it and everything after it otherwise untouched; finished games never change |
| Marathon.AdvanceAtIndex | modules/marathon/marathon.go:258-282 | the same classification for one position of the listing |
| Marathon.Advance | modules/marathon/marathon.go:258-282 | the step on the games as values; it neither adds nor drops games, and AdvanceAt says what happens at each position |
| Marathon.CurrentGame | modules/marathon/marathon.go:249-256 | the first running game, or None when no game runs; cmd_marathon.go:193-200 behaves the same |
| Marathon.NextGame | modules/marathon/marathon.go:258-282 | an empty marathon is an error and changes nothing; otherwise the array becomes the stepped games; cmd_marathon.go:202-226 behaves the same |
| Marathon.AdvanceCurrent | modules/marathon/marathon.go:258-282 | after a step, the running game is the one just started, if any |
| Marathon.AdvanceShaped | modules/marathon/marathon.go:258-282 | a step keeps "finished, then at most one running, then not started" |
| Marathon.RunningAfterNotStartedStaysRunning | modules/marathon/marathon.go:263-274 | a running game after the first startable game is not finished by the step |
| Marathon.Reset | modules/marathon/marathon.go:284-294 | a reset game is not started, without timestamps, and keeps its other fields |
| Marathon.ResetGame | modules/marathon/marathon.go:284-294 | every running game is reset; all other games are untouched; cmd_marathon.go:228-238 behaves the same |
| Marathon.ResetMarathon | modules/marathon/marathon.go:296-304 | every game is reset; cmd_marathon.go:240-248 behaves the same |
| Marathon.ResetRunningFacts | modules/marathon/marathon.go:284-294 | after resetting the game nothing runs, other games are unchanged, and the marathon's shape is kept |
| Marathon.ResetAllFacts | modules/marathon/marathon.go:296-304 | after resetting the marathon nothing runs, the first game is the next to start, and a second reset changes nothing |
| Marathon.RenderStatusOfGame | modules/marathon/marathon.go:121-135 | "not started", "running", "finished" and "???" correspond exactly to the game's status |
| Marathon.RenderStatus | modules/marathon/marathon.go:121-135 | always one of "not started", "running", "finished", "???", and "???" exactly for a status that is none of the three known ones |
| Marathon.RenderTime | modules/marathon/marathon.go:137-152 | "?:??:??" exactly for a game that has not started; otherwise the clock of the elapsed time, which ClockRoundTrip reads back |
| Marathon.Quot | modules/marathon/marathon.go:146-150 | Go's division, truncating toward zero: for a non-negative dividend the largest multiple not above it, for a negative one the smallest multiple not below it |
| Marathon.Rem | modules/marathon/marathon.go:146-150 | Go's remainder: dividend = quotient * divisor + remainder, with the remainder in [0, b) for a non-negative dividend and in (-b, 0] for a negative one |
| Marathon.DivUnique | modules/marathon/marathon.go:146-150 | quotient and remainder are determined by any pair that fits |
| Marathon.ClockRoundTrip | modules/marathon/marathon.go:137-152 | a non-negative duration renders as H:MM:SS whose fields read back as its whole seconds |
| Marathon.ClockFields | modules/marathon/marathon.go:137-152 | for a non-negative duration the truncating hour, minute and second fields are the ordinary quotients and remainders |
| Marathon.SecondsOfFields | modules/marathon/marathon.go:137-152 | minutes and seconds lie below 60 and hours, minutes and seconds add up to the whole seconds of the duration |
| Marathon.RenderTimeExample | modules/marathon/marathon.go:137-152 | a game that ran 1h 1m 5s renders as "1:01:05" |
| Marathon.ClockNegative | modules/marathon/marathon.go:137-152 | a negative duration of 90 s renders as "0:-1:-30", signs carried by truncation |
| MarathonCommands.NewMarathonModule | modules/marathon/marathon.go:52-74 | the subcommand engine holds next, resetgame and resetmarathon at level 10; a clash on "status" or "time" fails the module |
| MarathonCommands.StatusLine | modules/marathon/marathon.go:158-172 | names the running game, or says the marathon is not running |
| MarathonCommands.ShowMarathon | modules/marathon/marathon.go:158-172 | says the status line; a failed read is returned and nothing is said; cmd_marathon.go:85-99 behaves the same |
| MarathonCommands.NextAnnouncements | modules/marathon/marathon.go:218-247 | "next" announces the running game as complete and the first startable game as started, and switches the stream to the latter |
| MarathonCommands.StepMarathon | modules/marathon/marathon.go:218-233 | reads, steps and writes back the marathon; a failed read or write is returned with the store unchanged |
| MarathonCommands.AnnounceNext | modules/marathon/marathon.go:235-245 | says the completion and start lines and changes the stream's game; a failed change is ignored |
| MarathonCommands.NextCommand | modules/marathon/marathon.go:218-247 | the whole "next" effect on store, chat and API; errors come before any announcement |
| MarathonCommands.ResetCommand | modules/marathon/marathon.go:182-216 | resets the running game or the marathon, writes it back and announces it; failures change nothing |
| MarathonCommands.RouteFacts | modules/marathon/marathon.go:174-180 | without arguments the marathon is shown; a subcommand runs exactly when named and the level is at least 10 |
| MarathonCommands.MarathonCommand | modules/marathon/marathon.go:174-180 | shows, refuses or runs the routed subcommand with its full effect |
| MarathonCommands.LegacyNextCommand | cmd_marathon.go:158-191 | refuses a non-command context without changes; otherwise "next" switches the game through the older setgame handler |
| MarathonCommands.LegacyAnnounceNext | cmd_marathon.go:179-189 | announces completion and start, and runs setgame with the started game |
| MarathonCommands.LegacyResetCommand | cmd_marathon.go:114-156 | refuses a non-command context without changes; otherwise acts as the reset command |
| MarathonCommands.LegacyMarathonCommand | cmd_marathon.go:101-112 | refuses a non-command context without changes; otherwise routes as the newer command |
| MarathonCommands.MarathonWalkthrough | modules/marathon/marathon.go:258-304 | two "next" steps start game 0, then finish it and start game 1; the resets revert game 1 only, then every game |
| MarathonCommands.FirstNext | modules/marathon/marathon.go:258-282 | over games that have not started, the first "next" starts game 0 and announces only that start |
| MarathonCommands.SecondNext | modules/marathon/marathon.go:258-282 | the second "next" announces game 0 complete and game 1 started |
| MarathonCommands.ResetsAfterTwo | modules/marathon/marathon.go:284-304 | after those two steps "resetgame" reverts only game 1 and "resetmarathon" reverts every game |
| Rpc.Update | modules/giveaway/rpc.go:23-35 | a non-admin caller is refused with the reply untouched; a failed save replies -1; a save replies the record's ID, which is fresh when the ID was 0; cmd_giveaway.go:31-43, modules/alert/alert.go:102-114, cmd_alert.go:104-116, modules/marathon/marathon.go:107-119, cmd_marathon.go:67-79 behave the same |
| Rpc.New | modules/giveaway/rpc.go:18-21 | a non-admin caller is refused with the reply untouched; otherwise the ID is zeroed, so a successful save takes the counter value as its reply and a failed one replies -1; cmd_giveaway.go:26-29, modules/alert/alert.go:97-100, cmd_alert.go:99-102, modules/marathon/marathon.go:92-105 and cmd_marathon.go:52-65 behave the same, the admin check coming first in the marathon services |
| Rpc.Get | modules/giveaway/rpc.go:37-40 | a read-only lookup by ID for any caller, which fails when the read fails or the ID is absent; modules/marathon/marathon.go:154-156, modules/alert/alert.go:116-118 behave the same |
| GameCommands.ResponsesCarryTheGame | modules/game/game.go:31-37 | "The game is " + g + "." and "Game set to " + g + "." carry g, and the two responses never coincide; cmd_game.go:9-15 behaves the same |
| GameCommands.NewGameModule | modules/game/game.go:14-21 | registers "game" at level 0 and "setgame" at level 10 |
| GameCommands.GameCommand | modules/game/game.go:39-47 | says the channel's game; an API failure is returned and nothing is said |
| GameCommands.SetGameCommand | modules/game/game.go:49-64 | sets the game to the arguments joined by spaces and confirms it; an API failure is returned and nothing is said |
| GameCommands.LegacyGameCommand | cmd_game.go:17-32 | refuses a non-command context; otherwise acts as `gameCommand` |
| GameCommands.LegacySetGameCommand | cmd_game.go:34-55 | refuses a non-command context; otherwise acts as `setGameCommand` |
| GameCommands.LevelErrorText | cmd_game_test.go:51-71 | the level refusal reads "user level 0 not >= 10." |
| GameCommands.SetGameExchange | cmd_game_test.go:51-71 | "!setgame Mega Man 1" is refused for "rush" and sets "Mega Man 1" for the admin "rock" |
| GameCommands.SetGameRefused | cmd_game_test.go:51-71 | "!setgame Mega Man 1" from anyone but the admin is refused at level 0 against level 10 |
| GameCommands.SetGameRuns | cmd_game_test.go:51-71 | "!setgame Mega Man 1" from the admin runs setgame with the words "Mega", "Man", "1" |
| GameCommands.SetGameConfirmation | cmd_game_test.go:51-71 | the confirmation reads "Game set to Mega Man 1." |
| Alerts.Tick | modules/alert/alert.go:65-81 | says every due alert in order and reschedules it one period after the tick; a failed listing does nothing; a failed save is ignored; cmd_alert.go:63-79 behaves the same |
| Alerts.FireAll | modules/alert/alert.go:73-80 | the loop over the listing says the messages of the due alerts in listing order and leaves the namespace holding every entry ticked, or as it was when saves fail |
| Alerts.Fire | modules/alert/alert.go:74-79 | one alert: a due one is said once and saved rescheduled under its own ID, one not due is neither said nor saved |
| Alerts.TickSettles | modules/alert/alert.go:73-79 | with non-negative periods no alert moves back, none is due afterwards, and a second tick at the same time says and changes nothing |
| Alerts.NegativePeriodRefires | modules/alert/alert.go:73-79 | a negative period leaves the alert due, so the next tick fires it again |
| Giveaways.DescLines | modules/giveaway/giveaway.go:60-67 | header, one "  tag - desc" line per giveaway in order, then the footer |
| Giveaways.GiveawayDesc | modules/giveaway/giveaway.go:53-70 | says the description lines; a failed read is returned and nothing is said; cmd_giveaway.go:51-68 behaves the same |
| Giveaways.TagIndex | modules/giveaway/giveaway.go:100-106 | the first giveaway with the tag, or the length when there is none |
| Giveaways.IsFollower | modules/giveaway/giveaway.go:81-87 | true exactly when the user's ID is among the followers |
| Giveaways.FindGiveaway | modules/giveaway/giveaway.go:100-106 | the position of the first giveaway with the tag |
| Giveaways.IsRegistered | modules/giveaway/giveaway.go:115-121 | true exactly when the user name is already a participant |
| Giveaways.Register | modules/giveaway/giveaway.go:94-131 | unknown tag, already registered, or appended, saved and confirmed; a failed read or save is returned and nothing is said |
| Giveaways.GiveawayCommand | modules/giveaway/giveaway.go:72-132 | no arguments lists (a failed read is returned, nothing said); a failed follower lookup is returned with nothing said and nothing saved; a non-follower is told and nothing is saved; a follower is registered |
| Giveaways.LegacyGiveawayCommand | cmd_giveaway.go:70-137 | refuses a non-command context without changes; for a command context, every branch of the newer command: no arguments lists, a failed follower lookup is returned with nothing said, a non-follower is told and nothing is saved, and a follower is registered |
| Giveaways.NewGiveawayModule | modules/giveaway/giveaway.go:29-39 | registers "giveaway" at level 0 with help "Giveaway command" |
| Giveaways.RegistrationIsOnce | modules/giveaway/giveaway.go:115-128 | registration keeps every participant list free of duplicates, and the same request again finds the user registered |
| SimpleCommands.Activate | modules/simplecmd/simplecmd.go:53-57 | the record's name is registered at level 0 with help "Simple Command", bound to its ID; a taken name keeps its command |
| SimpleCommands.ActivationsKeys | modules/simplecmd/simplecmd.go:32-36 | start-up registers exactly the stored names and keeps every command registered before |
| SimpleCommands.ActivationsBind | modules/simplecmd/simplecmd.go:32-36 | each new name is bound to the first stored record with that name |
| SimpleCommands.ActivationsAsWritten | modules/simplecmd/simplecmd.go:34-35 | the registration as written binds every new name to the last record's ID |
| SimpleCommands.CapturedLoopVariable | modules/simplecmd/simplecmd.go:34-35 | with records 1 ("a") and 2 ("b"), "!a" as written reads record 2; bound to its own record it reads record 1 |
| SimpleCommands.ActivateCommand | modules/simplecmd/simplecmd.go:53-57 | the registry becomes `Activate` of the old registry |
| SimpleCommands.DeactivateCommand | modules/simplecmd/simplecmd.go:59-61 | removes the registry entry with the record's name |
| SimpleCommands.NewSimpleCommandModule | modules/simplecmd/simplecmd.go:25-39 | registers every stored record in order; a failed listing registers nothing (corrected binding; as written: ActivationsAsWritten) |
| SimpleCommands.SimpleCommandRun | modules/simplecmd/simplecmd.go:63-71 | says the response of the record with the ID; a failed lookup is returned and nothing is said |
| SimpleCommands.StartupCommandAnswers | modules/simplecmd/simplecmd.go:25-71 | a command registered at start-up runs at level 0 and reads back the record it was registered for (corrected binding; as written every start-up command reads the last record: ActivationsAsWritten, CapturedLoopVariable) |
| SimpleCommands.Update | modules/simplecmd/rpc.go:27-46 | saves as the shared `Update` does; only a successful save of a record with ID 0 registers its command, under the new ID |
| SimpleCommands.New | modules/simplecmd/rpc.go:22-25 | a successful `New` always registers the command under the fresh ID; a failure changes nothing |
| SimpleCommands.Get | modules/simplecmd/rpc.go:48-50 | a lookup by ID with no admin check |
| SimpleCommands.All | modules/simplecmd/rpc.go:68-70 | every record with no admin check; a failed read is returned |
| SimpleCommands.Del | modules/simplecmd/rpc.go:52-66 | no admin check; a missing record is an error and changes nothing; otherwise the command is unregistered first, then the record deleted; ret is the ID only on success |
| Assets.SizeIsContentLength | data/assets_vfsdata.go:119-217 | a file's size is its content's length (the recorded uncompressed size for a compressed file, the content length for a plain file, 0 for a directory) |
| Assets.Open | data/assets_vfsdata.go:68-99 | a cleaned path that is in the map opens its file; any other path is a not-exist error for "open" |
| Assets.ReaddirStep | data/assets_vfsdata.go:237-247 | EOF exactly when nothing remains and count > 0; otherwise the next count entries, clamped to what remains |
| Assets.ChunksCover | data/assets_vfsdata.go:237-247 | repeated reads of a positive count until EOF yield every remaining entry once, in order |
| Assets.Dir.Seek | data/assets_vfsdata.go:229-235 | only (0, SeekStart) succeeds and rewinds; anything else is an error and keeps the position |
| Assets.Dir.Readdir | data/assets_vfsdata.go:237-247 | returns the next chunk; the position never passes the end |
| Assets.CompressedFile.Seek | data/assets_vfsdata.go:155-167 | sets the seek position relative to the start, itself or the size, and returns it; the reader is untouched |
| Assets.CompressedFile.Read | data/assets_vfsdata.go:133-154 | returns the bytes at the seek position and moves the position past them; a position past the end gives EOF (corrected fast-forward) |
| Assets.AsWrittenWhileSynced | data/assets_vfsdata.go:133-154 | while the reader's positions agree, the code as written reads the bytes at the seek position |
| Assets.StaleReaderAfterOverlongSeek | data/assets_vfsdata.go:141-148 | seek past the end, read, seek back to 0: the code as written then reads nothing and reports EOF |
| Assets.ReadAsWritten | data/assets_vfsdata.go:133-154 | the code as written: at most `len` bytes, taken from the data just before the gzip reader's new position, with EOF only when no bytes come back |

## Left out

- Concurrency and timing are not modelled: goroutines, the alert worker's one-minute ticker, and the 3-second timeout in `Connect`. The tick time and the IRC outcome are parameters.
- The current time is a parameter. Every timestamp a command sets in one call uses the same `now`.
- The command engine library (`github.com/konkers/cmd`) is not part of this model. Only its white-space splitting and its level refusal ("user level L not >= R.") are modelled. Its other error texts are abstract, and it is assumed to refuse a duplicate command name.
- The storm store, the Twitch REST API and the IRC client are not modelled as real systems. The store is a sorted list of (ID, record) pairs with an auto-increment counter. Failures are modelled by two flags. Storm's error texts are replaced by one storage error.
- Integers are unbounded. Go's 64-bit `int`, `int64` and `time.Duration` overflow is not modelled.
- JSON encoding of durations and times (web.go:27-56) is not modelled.
- `path.Clean` is not modelled: `Open` takes the already-cleaned path.
- Gzip decompression is not modelled. A compressed file is the byte sequence its stream yields. Resetting the reader on the generated bytes never fails.
- Assets.CompressedFile.Read: the report is EOF only on a read that finds no bytes. Whether the gzip reader already reports EOF together with the last bytes is not modelled.
- The plain file handle (`bytes.Reader`), `Stat`, `Mode`, `ModTime` and `Close` are not modelled. `Open` returns the file's description, and the `Dir` and `CompressedFile` constructors build the opened handles.
- `AlertService.Trigger` is not modelled. It hands the record to the store by value, so it cannot update anything.
- A factory's effects on the bot while it runs are not part of `AddModuleByName`. They are modelled with each module (`NewGameModule`, `NewGiveawayModule`, `NewMarathonModule`, `NewSimpleCommandModule`).
- The template function table starts empty: `NewBot` (bot.go:82-98) never creates it. Template execution is not modelled.
- The files auth.go, wiki.go, vfs.go, config.go, main.go, cmd/roll/main.go, data/gen.go and data/data.go are not part of this model.
- HTTP header names are compared exactly. Go's canonicalisation of header keys is not modelled.
- Go's nil-pointer panics on missing optional fields are not modelled, and neither is the panic on an invalid `whence`. `CompressedFile.Seek` requires a valid `whence` instead.
- `cmd_alert.go`, `cmd_giveaway.go` and `cmd_marathon.go` repeat the newer files' logic. Each shared operation is modelled once and cited for both revisions. The context type check and the older "next" are modelled separately.
- SimpleCommands.NewSimpleCommandModule: implements the intended binding, each start-up command bound to its own record's ID. The code as written binds every start-up command to the last record's ID (`ActivationsAsWritten`, shown in the findings).
- SimpleCommands.StartupCommandAnswers: states the intended binding, not the code as written, for the same reason.
- Bot.Bot.StartWebserver: the three errors the web server can return (loading the certificate pair, the TLS listener, the HTTP listener) are one abstract `ListenError`. Certificate loading is folded into the TLS outcome `tlsOk`. The TLS server that already serves when the HTTP listener then fails is not modelled.
- Bot.Bot.Connect: it returns the web server's abstract `ListenError` in the same way.
- Twitch.Api: every error of the Twitch REST client is the one abstract `ApiError`; the client's own error texts are not modelled.
- Web.Url: models `urlFunc` as written, with the plain "http" scheme (see the findings). The bot records only that "url" is registered; the templates that call it are not modelled.
- Rpc.New: does not claim that the new ID differs from every stored ID. Storm's counter ignores saves under explicit IDs, so the counter may repeat an ID that is already in use.

## Findings

| source | as written | input that shows it | evidently intended | confidence | as-written member | corrected member |
|---|---|---|---|---|---|---|
| modules/simplecmd/simplecmd.go:34-35 | each start-up handler captures a pointer to the shared range variable, so every handler reads the last record's ID (Go before 1.22) | records 1 ("a", "A") and 2 ("b", "B"): "!a" answers "B" | each command answers with its own record's response | high; not executed | SimpleCommands.CapturedLoopVariable | SimpleCommands.ActivationsBind |
| data/assets_vfsdata.go:141-148 | a fast-forward past the end returns before `grPos` is updated, while the gzip reader is left at the end | a 3-byte file: Seek(200, start), Read, Seek(0, start), Read of 3 bytes returns 0 bytes and EOF | the second read returns the file's 3 bytes | medium; not executed | Assets.StaleReaderAfterOverlongSeek | Assets.CompressedFile.Read |
| web.go:123-125 | `urlFunc` writes the URL of the HTTPS address, where only the TLS listener serves (web.go:155-158), with the "http" scheme | HTTPS address localhost:10443, uri "rpc": the template URL is http://localhost:10443/rpc, a plain-HTTP request to a TLS listener | https://localhost:10443/rpc, the scheme the OAuth redirect URL uses for the same address (auth.go:90) | medium; not executed | Web.UrlNamesTlsAddressOverHttp | Web.SecureUrl |
