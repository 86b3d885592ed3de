# dst-nucleus: a verified model

dst-nucleus supervises the two shards of a game server, Master and Caves. This project models its core in Dafny and
proves what that core is for. `dafny verify dfyconfig.toml` checks all of it. Names follow the English mirror that the
program itself keeps in `translator.go` (`解析Setup` is `ParseSetup`, `读取行` is `ReadLines`, and so on).

## What is modelled

**Mod lists** (`Decimal`, `LineText`, `LuaText`, `LuaGrammar`, `SetupScanner`, `SetupGrammar`, `OverrideScanner`,
`ModTable`, `ModLedger`). Two byte-cursor scanners read IDs out of Lua text, and a renderer appends the missing ones to
the file that one of them reads. The scanners are methods over cursor, list and dedup set, proved against recursive
functions; the theorems are about those functions. Each scanner undoes a printer of the files it reads, whose markers
are spelled out: calls in either quotation mark and bare mod names between comments, strings and other code
(`SetupGrammar.SetupScanned`), and tables of mods with their flags (`ModTable.TableScanned`). Hot-patching is a fixpoint,
but not for every setup file. A file that ends inside a comment or a string swallows the first appended declaration, and
a patched file above the 1 MiB snapshot limit is not read at all; `ModLedger.HotPatchFixpoint` says that these are exactly
the cases in which the next read appends again, `SecondListExact` when that read still returns the same list, and
`UnfinishedCommentRepeats` gives a failing file. The scanner takes any flag value that starts with f or F for false;
`ModTable.TableMeaning` says exactly when that is what the table means, and `FlagMisread` gives tables for which it is
not.

**Build ID search** (`VersionWindow`, `VersionExact`). A 32 KiB window with a 128-byte carry-over is compared with a
search of the whole file, for every way of chopping the file into reads: each delivers something, and the end of the file
comes with an empty one. They do not always agree. A value can be longer than the look-ahead, and a marker that starts on
the closing quotation mark of another one is stepped over when a window starts with that other one.
`VersionExact.AgreementExact` is the exact condition under which every chopping takes the value that the whole file shows
first. In the last 128 bytes all choppings end in the same window, and there it is the parity of a chain of such markers
that decides. `DistantValueLost` and `SharedQuoteMissed` are files that fail, and `ManifestRead` is about the file as it is
written: its build ID is found however it is read.

**Log broadcast** (`LogHub`, `LogDelivery`, `LogOrder`, `LogBroadcast`). Producers, any number of hubs that share one pool (the program
runs two), and any number of subscribers are one state machine whose events are their atomic steps. The stored reference
counter is compared with the number of holders, counted from the state; deliveries are compared with the sequence the hub
broadcast, and that with the lines the producers handed over. The subscription and unsubscription requests travel on two channels. `LogOrder.OrderIsExact` says what their
order is worth: dequeuing an unsubscription first is harmless exactly when its subscription is not still waiting, and
`ClosedSubscriberPanics` is a complete run from the initial state to a send on a closed channel. Producers take blocks only
while a subscriber of their hub is counted.

**Supervision** (`PidWord`, `Supervisor`, `SupervisorSafety`, `SupervisorHistory`, `SupervisorWait`,
`SupervisorSession`). The main loop, the shard runners with their deferred calls, the kill routine,
the waiting goroutines, the action bus, the cancel contexts and the CAS loops on the packed PID word are one state
machine. Process start, death, timers and API calls are environment events, and every interleaving is covered. Beside
the safety theorems, `WaitIsBounded` and `WaitNeverStuck` show that the main loop's wait for its runners ends.
`SupervisorHistory` reads a run by its events alone: the order in which the main loop and every runner take their steps,
what must have happened before each, what the action that was taken leads to, and why a process is killed.

**Telemetry** (`GameState`, `Telemetry`, `Parasite`, `ShownWorld`). The script inside the game is a set of methods over what it reads
from the world; the decoder is a class that updates the game state. Their composition shows the clamped world, behind
any harmless text the game prints in front of its lines; `ShownWorld` says what that is in the terms of the game: 0 for a
boss that is there, the days begun until it is due, and the numbers of seasons and phases. Bytes are numbers from 0 to 255. The decoder masks and shifts
bit vectors; what it gets is stated in remainders and quotients by powers of two, and 32-bit sums wrap explicitly.

**Caves-to-Master bridge** (`Bridge`, `FullReport`). The printed report, the cursor loop that parses any list of pairs, and
the fields the pairs set. A report that names every field leaves exactly the state it was written from.

**Status ring** (`PageReader`, `StatusPage`, `StatusRing`). The rendering is built by in-place appends into one block of
memory cut into 32 slots of 1024 bytes; the block, the slot lengths and the wrapping 32-bit counter are refined to a ring
of texts. A reader that knows only the names finds every field of the page.

**Console** (`Console`, `ConsoleRouting`). A 4096-byte array is filled, framed and compacted in place; commands are slices
with a length and a capacity. An append writes in place while there is room, so it is the string conversions, which forget
the capacity, that keep queued commands out of the buffer; `StraightAppend` shows what happens without them. The exact
condition for correct framing is that every complete line fits the buffer with its newline, and `ListenToLines` says what
the two queues hold after any lines were typed.

**Streaming forms of simple functions** (`ConfigCompare`, `EpochSensor`, `ModQuery`). The newline-insensitive comparison,
the sensor that reacts to a change of the other machine's epoch, and the request builder, which is right exactly when the
request fits its buffer: always up to 1488 mods, never from 2979 on (`ModQuery.RequestSize`). `Wrappers` holds the option
type.

Text is a `string` whose characters stand for bytes. Numbers have the source's width where it matters: IDs are 64-bit and
wrap while they are parsed, state fields are 32-bit, the PID word and its halves are bit vectors.

## Where code and documentation differ

The code is followed.

- `api.md:93-99` says that a boss timer of 127 can also mean an overflow. The script saturates at 126, so 127 means
  unknown and nothing else (`Parasite.Days`).
- `api.md:73` says that the day counter caps at 2097151. The script clamps the elapsed cycles to that number and the
  decoder adds one, so the counter caps at 2097152.
- `api.md:85` and `sys_params.go:112` number the nightmare phases from none to dawn as 0 to 4. The script sends calm, warn,
  wild and dawn as 0 to 3, and 4 for anything else.

## Model

| member | source | states |
|---|---|---|
| Decimal.PrintParse | update.go:884 | the number a printed decimal denotes is the number printed, for every natural number |
| Decimal.MostSignificantFirst | update.go:884 | a printed number ends with the digit worth least |
| Decimal.WrappedPrint | update.go:1125-1131 | a printed 64-bit ID parses back to itself, although the parser accumulates modulo 2^64 |
| Decimal.BytesToUint64 | update.go:1125-1131 | the loop that wraps at every digit returns the numeral's value modulo 2^64 |
| LuaText.StringEndPrefix | update.go:657-672 | appended text does not move the end of a closed string, and an open string goes on exactly where it was |
| SetupScanner.RenderRoundTrip | update.go:642-705 | scanning the rendered declarations of any list of 64-bit IDs gives that list back |
| SetupScanner.ScanRendered | update.go:881-886 | rendered declarations at the end of any text are all found, in order, by a scan that starts at the first of them |
| SetupScanner.NoStraddle | update.go:674-681 | no marker starts inside a text and ends inside what is appended to it: a lookahead across the seam sees what it saw before |
| SetupScanner.TurnSeam | update.go:646-704 | a turn of the scanner that ends in code takes the same cursor step and reports the same IDs after an append |
| SetupScanner.ScanSeam | update.go:642-705 | a text that ends in code keeps its IDs, and appended declarations are scanned from their own start |
| SetupScanner.StringSwallows | update.go:657-672 | a double-quoted string left open swallows every appended declaration, because each quote that should open an ID closes a string |
| SetupScanner.CommentSwallows | update.go:649-655 | a comment left open swallows the first appended declaration and no other |
| SetupScanner.FirstDeclarationLost | update.go:642-705 | for every text that ends in a comment or a string: which appended IDs are lost, the first one always |
| SetupGrammar.SetupScanned | update.go:642-705 | scanning the printed form of any setup file, calls in either quotation mark and bare mod names among comments, strings and other code, reports exactly its declarations in order, and ends in code |
| SetupGrammar.RenderIsPrinted | update.go:881-886 | what the renderer appends is the printed form of one call and a newline for each mod |
| OverrideScanner.ScanExtends | update.go:755-763 | on every text, well-formed or not, what was reported stays reported and ID 0 never is |
| ModTable.KeyRead | update.go:770-795 | a printed bracketed key with padding and quotes reads back as its ID |
| ModTable.ScanFlag | update.go:797-836 | a bare enabled field makes the scanner disable its mod exactly when its value starts with f or F |
| ModTable.ScanBody | update.go:732-836 | whatever else a mod's own table holds, nested tables, bracketed keys, strings, comments and names containing the word enabled, changes nothing |
| ModTable.TableScanned | update.go:708-840 | scanning the printed form of any mod table, entries with other keys included, gives exactly the IDs whose flag does not start like false, in order |
| ModTable.TableMeaning | update.go:828-836 | these are the mods the table does not disable if and only if no flag merely starts with f or F without being false |
| ModTable.FlagMisread | update.go:828-836 | every value that starts with f or F without being false makes the scanner drop a mod that its table does not disable |
| ModTable.OtherName | update.go:770-795 | a bracketed name in quotation marks that does not begin with the marker is no mod key, and so does not open a mod |
| ModTable.OtherWord | update.go:770-795 | neither is a bracketed number or any other bare word |
| ModTable.NoKeyWithin | update.go:770-795 | a bracketed key that is no mod key by itself is none in any text around it |
| ModLedger.ExtendMeaning | update.go:690-693 | the collected list has each ID once, exactly the IDs that were met, in the order of first occurrences |
| ModLedger.ModScan.ParseSetup | update.go:642-705 | the cursor loop extends list, dedup set and own set by what the scanner function reports |
| ModLedger.ModScan.ParseTurn | update.go:646-704 | one turn of that loop: cursor, list and both sets |
| ModLedger.ModScan.ParseModOverrides | update.go:708-840 | the cursor loop extends list and dedup set by the mods the override scanner enables, and leaves the own set alone |
| ModLedger.ReadKey | update.go:770-795 | the lookahead behind a bracket returns the key and the position behind it, or none |
| ModLedger.ReadFlag | update.go:797-836 | the lookahead at an e returns where the flag's value starts, with both keyword boundaries checked |
| ModLedger.ModFiles.ReadLines | update.go:853-900 | returns the deduplicated list over all three files and appends exactly the declarations that the setup file lacks |
| ModLedger.RenderMissing | update.go:879-887 | the appended text is the rendering of the listed IDs that are not the file's own |
| ModLedger.PrintedFilesListed | update.go:862-877 | from any printed setup file and mod tables the list is the declared mods and then the mods of both tables the scanner keeps, deduplicated; with flags that are spelled out these are the enabled ones |
| ModLedger.PrintedFilePatchedOnce | update.go:853-900 | a printed setup file is patched once: whatever the override files say, a second read appends nothing |
| ModLedger.ListedSplit | update.go:862-887 | the list is the declared mods followed by the missing ones, which are new, distinct and all enabled in an override file |
| ModLedger.SecondReadAgrees | update.go:853-900 | if the file ends in code and the patched file fits the snapshot limit, a second read returns the identical list and appends nothing |
| ModLedger.HotPatchFixpoint | update.go:853-900 | a second read appends nothing if and only if nothing was missing, or the file ends in code and the patched file fits the limit |
| ModLedger.SecondListExact | update.go:853-900 | a second read returns the identical list if and only if nothing was missing, or the file does not end in a comment or lacked one mod, or, once it is refused, its mods come first in the override files anyway |
| ModLedger.UnfinishedCommentRepeats | update.go:649-655 | with a setup file that is only an unfinished comment and one enabled mod, every read finds that mod missing again |
| VersionWindow.ParseVersion | update.go:391-410 | the cursor loops read exactly the quoted number behind leading blanks |
| VersionWindow.ParseCut | update.go:391-410 | cutting the text either leaves the parsed value unchanged or loses it, depending only on how far the value reaches |
| VersionExact.QuotedNumberRead | update.go:391-410 | a number in quotation marks behind spaces and tabs is read as it is written |
| VersionExact.OnlyQuotedNumbers | update.go:391-410 | and nothing else is read as a number |
| VersionWindow.Search | update.go:344-361 | the inner loop finds what the window shows first among the hits it may look at |
| VersionWindow.KeepTail | update.go:367-370 | the last 128 bytes of the window move to its front, source and target overlapping or not |
| VersionWindow.ReadLocalVer | update.go:335-373 | the loop over a window updated in place returns the windowed search of the file, for the given reads |
| VersionWindow.WindowedAgrees | update.go:320-374 | if the first value fits the look-ahead and its marker does not start on the closing quotation mark of another, every chopping finds what a search of the whole file finds first |
| VersionExact.LookaheadExact | update.go:352-360 | where the first marker does not start on the closing quotation mark of another, all choppings take its value if and only if that fits the look-ahead |
| VersionExact.OverlapMissed | update.go:346-370 | where it does, and more than 128 bytes follow from its start, reads that step over it are constructed |
| VersionExact.NearEndExact | update.go:346-370 | in the last 128 bytes every chopping takes the first value if and only if the chain of such markers that the last window shows before it is even |
| VersionExact.AgreementExact | update.go:320-374 | all choppings take the value that a search of the whole file finds first if and only if it fits the look-ahead and no window steps over its marker |
| VersionExact.WindowedIsFound | update.go:343-361 | the version the search returns is the whole value at the place where it took it, never a part of one |
| VersionExact.ValuesExact | update.go:320-374 | under that condition all choppings return the version a search of the whole file returns, and only then unless a later hit repeats it |
| VersionExact.ManifestRead | update.go:320-374 | in a file that names `"TargetBuildID"` for the first time, with its number near the name or near the end, every way of reading finds that number |
| VersionExact.DistantValueLost | update.go:352-360 | a value behind 200 blanks is found when the file is read in one go and lost by other reads |
| VersionExact.SharedQuoteMissed | update.go:346-357 | in a 32-byte file no way of reading finds the only value |
| LogHub.CounterIsHolders | api.go:816-894 | every step of every producer, hub and handler keeps each block pooled, owned or shared, with an exact counter while it is shared |
| LogHub.CounterIsExact | api.go:816-894 | in every run a shared block's counter is its exact number of holders, a block is pooled at most once and only while nobody holds it, and at most one Get is without its Put |
| LogHub.ReturnsAreExclusive | api.go:1163-1174 | a block goes back to the pool only while it is not there and nobody else holds it |
| LogHub.DataIsStable | game.go:681-693 | a block's bytes are overwritten only while nobody can read them |
| LogHub.NothingLeaks | api.go:859-869 | with nothing in flight and every handler done, every Get was matched by a Put |
| LogDelivery.DeliveredInOrder | api.go:851-893 | what a subscriber wrote is an in-order subsequence of what was broadcast since it subscribed, and what its channel did not take was dropped while it held 256 blocks |
| LogDelivery.DrainedForGood | api.go:862-868 | over any run a closed channel stays closed and only ever loses its oldest blocks to the handler that drains it |
| LogDelivery.NothingLeftBehind | api.go:859-869 | in every run, once all handlers have drained their channels and left and nothing is on its way to a hub, every Get was matched by a Put |
| LogBroadcast.LinesInOrder | game.go:681-693 | in every run a hub has broadcast the lines it was handed, each once and in order, except those that wait in its pipe |
| LogBroadcast.RefusedOnlyWhenFull | game.go:688-692 | in every run a line is refused precisely by a pipe that holds 1024 |
| LogBroadcast.NoLineForNobody | game.go:681 | in every run a producer takes a block only while somebody who connected to its hub has not started to leave |
| LogBroadcast.HubGoesOn | api.go:1156-1180 | in every run a hub that works on a block has a next step, and an idle one can take the next line |
| LogBroadcast.OthersGoOn | api.go:859-893 | so have a producer with a filled block and a handler that holds a block or has to drain one |
| LogOrder.NoHubPanics | api.go:1156-1171 | in every run in which each subscription is dequeued before its unsubscription, no hub ever sends on a closed channel |
| LogOrder.OrderIsExact | api.go:1156-1171 | in every state reached in that order, dequeuing an unsubscription keeps the order if and only if no continuation in order makes its hub panic |
| LogOrder.ClosedSubscriberPanics | api.go:1156-1171 | a complete run of eleven steps from the initial state, with a producer that passed its gate while the subscriber was there, to a send on a closed channel |
| PidWord.WithHigh | game.go:104-120 | the word the Master's loops compute has the new high half and the loaded low half |
| PidWord.WithLow | game.go:201-216 | the word the Caves' loops compute has the new low half and the loaded high half |
| Supervisor.InvHolds | main.go:123-217 | the supervisor's invariant holds in every state of every run |
| SupervisorSafety.AtMostOneAlive | game.go:66-159 | at most one process of each shard is up, all of the current generation, and none while the game binary is overwritten |
| SupervisorSafety.NothingLeftAfterWait | main.go:194-199 | whenever the main loop is past its wait, all runs are finished with dead processes, the PID word is zero and both epochs are zero |
| SupervisorSafety.HalfIsLastWrite | game.go:104-120 | under every interleaving of the load, compute and swap loops, each half of the word is the value its shard's last successful swap stored |
| SupervisorSafety.CrashWakesMain | game.go:147-158 | after a crash exit the bus holds an action until the main loop takes one, and a finished runner's generation is cancelled |
| SupervisorSafety.NoStaleCrash | main.go:159-195 | a crash sent by a runner is only ever the trigger of that runner's own generation |
| SupervisorHistory.RunnersInOrder | game.go:66-159 | in every run the steps of each runner come in the order of the program and its deferred calls, and a finished runner has taken them all |
| SupervisorHistory.KilledForCause | game.go:738-785 | a process is killed only, and always, right after it was found not ready, its command was refused, or its grace ran out |
| SupervisorHistory.MainInOrder | main.go:123-217 | so do the steps of the main loop, with the action it took deciding what follows the wait |
| SupervisorHistory.ActionIsCarriedOut | main.go:159-217 | behind the wait the main loop overwrites the binary if and only if the action it took, by the events alone, was a game update, and ends if and only if it was a system halt |
| SupervisorHistory.OnlyGameUpdates | main.go:198-201 | it is never found overwriting the binary after any other action |
| SupervisorHistory.EverythingCaused | game.go:147-158 | a runner is cancelled only after a cancellation of its generation, sees an exit or a death only after it happened, and the main loop takes only what was sent |
| SupervisorHistory.PublishedIsReported | game.go:94-110 | each half of the word is zero or the PID this generation's start reported, and each epoch is the one set last |
| SupervisorHistory.MainGoesOn | main.go:123-217 | the main loop always has a next step, unless it waits for its runners or has ended |
| SupervisorWait.WaitIsBounded | main.go:195 | from every state of the invariant in which the main loop waits, runners and processes take at most 84 more steps, failed swaps included |
| SupervisorSession.BothShardsUp | main.go:139-195 | a run exists in which the main loop comes to wait for both shards while both are up, so the theorems about these states are not empty |
| SupervisorWait.WaitNeverStuck | main.go:195 | as long as the wait cannot be passed, some runner or its process can take a step |
| Telemetry.HeaderMeaning | api_status.go:166-195 | in every line the reader can deliver the accumulator stays below 2^31, the error bit marks exactly the malformed headers, and packets 0, 1 and 2 are those that start with 0x80, 0x81 and 0x82 |
| Telemetry.DayCount | api_status.go:204-206 | the three masked and shifted bytes, put together with or, are the sum of their seven-bit groups |
| Telemetry.TemperatureBits | api_status.go:218-221 | masks, shift and sign factor give the magnitude's two groups with the sign bit's sign |
| Telemetry.ErrorBitMask | api_status.go:184-187 | setting bit 31 with or is the conditional addition the packet number is stated with |
| Telemetry.SetErrorBit | api_status.go:184-187 | the decoder's word, put together from the number's bytes, gives that number with its error bit |
| Telemetry.OnlyThreePackets | api_status.go:198-288 | a packet that changes anything starts with one of these bytes and carries enough data |
| Telemetry.ShardsDoNotInterfere | api_status.go:246-285 | Master and Caves packets write disjoint timers: in either order they leave the same state, and the environment is untouched |
| Telemetry.Decoder.ParseRawPacket | api_status.go:166-289 | the decoding loop and stores make of the state what the packet means, and a report is sent exactly for a full caves packet without a Master |
| Telemetry.Decoder.StoreEnv | api_status.go:204-245 | ten data bytes set all environment fields and no timer |
| Telemetry.Decoder.StoreMasterTimers | api_status.go:251-269 | a Master packet sets its nine timers and neither of the other two |
| Telemetry.ReceivedBehindText | game.go:649-655 | a packet behind text without its mark and without a command echo is decoded whole |
| Telemetry.EchoIgnored | game.go:649-651 | a line that echoes the script's own command changes nothing, whatever else it holds |
| Parasite.GetDays | parasite.lua:19-25 | seconds become the byte of the days that are shown; no number becomes 127 |
| ShownWorld.DaysMean | parasite.lua:19-25 | the days shown for some seconds are the days begun: more than one less, not more than so many, none when the time is over, and 126 exactly beyond 125 days |
| ShownWorld.MinutesMean | parasite.lua:27-32 | the minutes shown are the full minutes, and 126 exactly from 126 on |
| Parasite.GetTimer | parasite.lua:34-44 | the sentinel for a missing timer component is a value no other answer can take |
| Parasite.CycleBytes | parasite.lua:46-90 | the three bytes decode to the clamped day counter plus one |
| Parasite.TemperatureBytes | parasite.lua:93-103 | the two bytes decode to the rounded temperature clamped to 8191 either way |
| Parasite.SeasonByte | parasite.lua:63-87 | the byte decodes to season and moon phase |
| Parasite.WeatherByte | parasite.lua:105-131 | the byte decodes to day phase, rain, snow and nightmare phase |
| Parasite.EnvPayload | parasite.lua:46-144 | for every world the packet decodes to the clamped world, whatever the state was, and all its bytes are at least 0x80 |
| Parasite.BeeQueenByte | parasite.lua:220-245 | the first of five growth timers that answers anything decides the bee queen's byte |
| Parasite.WorldTimerBytes | parasite.lua:155-325 | the bytes of the five bosses timed by the world, and exactly when the script fails |
| Parasite.EntityTimerBytes | parasite.lua:184-338 | the bytes of the five bosses timed by entities or debug text |
| Parasite.BossPayload | parasite.lua:340-345 | for every world the packet decodes to the timers this kind of world reports and leaves the others alone |
| Parasite.Activate | parasite.lua:347-351 | what one activation prints holds no line break, and receiving it behind any harmless text shows the clamped world |
| ShownWorld.TimedBosses | parasite.lua:173-325 | Bearger, Klaus and the fruit fly: 0 while one is there, else the days the world's timer has left, else 127, or 0 with a farm and no timers |
| ShownWorld.DeerclopsShown | parasite.lua:158-171 | Deerclops, while his spawner is not dormant; 0 while he attacks |
| ShownWorld.NestedBosses | parasite.lua:184-219 | the moose by her nest and the dragonfly by its spawner |
| ShownWorld.BeeQueenShown | parasite.lua:220-245 | the bee queen by the first of five growth timers that answers |
| ShownWorld.ToldBosses | parasite.lua:300-338 | Malbatross by its spawner's text, and Antlion in minutes |
| ShownWorld.CaveBosses | parasite.lua:264-298 | the toadstool and the fuelweaver, in the caves |
| ShownWorld.OthersKept | parasite.lua:340-351 | each kind of world leaves alone what the other tells, and a script that fails leaves everything |
| ShownWorld.FailsWithoutTimers | parasite.lua:159-171 | the script fails exactly when Deerclops is awaited in a world without timers |
| ShownWorld.EnvNames | parasite.lua:59-131 | season, day phase and nightmare phase are shown by their places in the lists of their names, and the three flags as they are |
| ShownWorld.EnvNumbers | parasite.lua:46-135 | players, days, remaining days, temperature and moon phase are the world's numbers, rounded down and within their bounds |
| Bridge.UintRoundTrip | api.go:969-980 | a printed 32-bit number parses back to itself |
| Bridge.IntRoundTrip | api.go:982-993 | so does a signed one |
| Bridge.JoinedPairs | api.go:733-756 | parsing any joined list of non-empty keys without an equals sign and non-empty values without separators gives the list back |
| Bridge.NextPair | api.go:738-756 | one round of the cursor loop takes one pair, skips one with an empty half, or ends the list |
| Bridge.Receiver.StoreField | api.go:759-809 | a pair sets the field it names and no other, and an unknown key sets nothing |
| Bridge.Receiver.UpdateState | api.go:733-810 | every field ends with the value of the last pair that names it, the others keep theirs; an empty or too large body changes nothing |
| FullReport.ReportSetsAll | api.go:758-809 | a report that names every field leaves exactly the state it was written from, whatever the state was |
| FullReport.SeparatedPairs | api.go:733-756 | pairs between ampersands, semicolons or newlines are read back in order, except those with an empty half |
| FullReport.ReportTextSetsAll | api.go:733-809 | the same for the text of a full report with any of these separators |
| FullReport.FlagWords | api.go:771-777 | what is read as true and as false |
| FullReport.BadNumbers | api.go:969-993 | what is no number, or too large, is read as the sentinel of an unknown state |
| Bridge.PostCavesTelemetry | api_status.go:295-309 | the printed report, parsed, sets the two timers to the numbers sent and leaves every other field alone |
| StatusPage.Render | api_status.go:38-141 | the rendering fits its 1024-byte slot for all field values |
| StatusPage.PageReads | api_status.go:46-141 | reading any of the thirty names in the page, up to the next comma or brace, gives that field's value |
| PageReader.FieldRead | api_status.go:46-141 | a reader that looks for a name stops at it or passes it over, whatever text stands in front |
| StatusRing.AfterRefreshes | api_status.go:38-45 | what each slot holds after up to 32 refreshes, the counter's wrap-around included |
| StatusRing.SnapshotIsStable | api_status.go:143-144 | a reader sees exactly the snapshot it was pointed to through the next 31 refreshes, and the 32nd replaces it |
| StatusRing.NewestIsCurrent | api_status.go:143-146 | after any refreshes readers are pointed to the newest rendering |
| StatusRing.Slots.Append | api_status.go:27-35 | an append stays in its slot: the slot grows by the text and no other slot changes |
| StatusRing.Slots.FlushServerState | api_status.go:38-146 | the refresh in memory is the refresh of the ring of texts, and where readers are pointed to afterwards every field can be read back |
| Console.LinesConcat | main.go:244-283 | the lines of a text are those of any prefix and then those of what the prefix left behind |
| Console.LongTailBlocks | main.go:244-249 | a full buffer without a newline is harmless if and only if no complete line was longer than the buffer allows |
| Console.QueueKeepsEarlier | game.go:46-51 | queued commands stay in place and unchanged, however many follow |
| Console.ConvertedIsFull | unsafe.go:7-19 | a slice that went through the string conversions holds the same bytes in the same place and has no room left |
| Console.Append | game.go:41 | an append overwrites the one byte behind the slice while there is room, and otherwise copies everything to a new array |
| Console.StraightAppend | game.go:41 | an append straight to a line of the buffer writes into the buffer, and the queued command changes with it |
| Console.Console.EmitRawCmd | game.go:37-62 | a command is queued with its newline, or dropped by a full queue, and what is queued never shares memory with the buffer |
| Console.CommandBytes | game.go:40-44 | the append of the newline to a string finds no room and copies, and text that has one, or is empty, is passed on as it is |
| Console.Console.Dispatch | main.go:254-273 | one line is sent where it belongs, without its carriage return and prefix, and the special line nowhere |
| Console.Console.Frame | main.go:249-283 | all complete lines of the buffer are sent in order and the rest is moved to its start |
| Console.LongestLine | main.go:235-249 | a line fits with its newline up to 4095 bytes, and one of 4096 does not |
| Console.ListenConsole | main.go:235-284 | however the input is chopped, the commands sent are those of its complete lines if and only if each fits the buffer with its newline |
| ConsoleRouting.AllRouted | main.go:254-273 | of any typed lines, with or without carriage returns, the Master gets the plain ones and the caves what stands behind `caves:`; without a Master the caves get every line; the special line goes nowhere |
| ConsoleRouting.ListenToLines | main.go:235-284 | however they arrive, the two queues then hold exactly these texts, each with one newline, in order, up to a hundred |
| ConfigCompare.IsFactoryDefault | config.go:117-146 | true exactly when both texts are equal after deleting all CR and LF |
| ConfigCompare.LineEndsDoNotMatter | config.go:117-146 | rewriting line ends from LF to CRLF never changes the verdict |
| ConfigCompare.SameWhateverTheLineEnds | config.go:117-146 | files laid out with any line ends, or none, count as the same if and only if they are the same without them |
| EpochSensor.EpochRoundTrip | api.go:230-234 | the line the heartbeat writes carries its epoch to the sensor, for every 64-bit epoch |
| EpochSensor.StreamSamples | game.go:317-333 | the samples of a stream are its epochs, whatever empty lines and comments stand between them and whatever blanks around them |
| EpochSensor.LossInventsNothing | game.go:325-334 | losing samples never makes a sequence show a change |
| EpochSensor.OneGenerationIsQuiet | game.go:334-367 | no subsequence of one generation's samples fires |
| EpochSensor.RestartIsNoticed | game.go:334-367 | a restart fires, whatever samples are lost, if and only if one of the old epoch and any later one, zero or the new epoch, arrive |
| EpochSensor.LossySplit | game.go:325-334 | what is left of a stream is what is left of its part before any point, and then of its part behind it |
| EpochSensor.Sense | game.go:334-364 | one line moves the latch or fires, in step with the samples read so far |
| EpochSensor.RemoteEpochSensor | game.go:258-370 | across all connections the sensor fires exactly when a non-zero epoch is followed by a different value, zero included |
| ModQuery.RequestReads | update.go:983-998 | read as a form, the request gives the count and every ID under its index, in order and nothing else |
| ModQuery.PairsAre | update.go:983-998 | these pairs are the count under itemcount and the k-th ID under publishedfileids[k] |
| ModQuery.Builder.AppendEntry | update.go:988-998 | one mod is appended whole, or the entry outgrows the buffer |
| ModQuery.FetchRemoteModEpochs | update.go:973-1000 | the request that gets out is the right one, and it gets out if and only if it fits the 65536-byte buffer |
| ModQuery.RequestSize | update.go:970-998 | any 1488 mods or fewer fit it, and any 2979 or more do not |

## Left out

- HTTP routing, headers, file endpoints, SteamCMD, UI, system calls and assembly: foreign calls; where their results matter they are parameters or environment events.
- ModLedger.ModFiles.ReadLines: the append always succeeds, where the source may fail to open or only partly write the setup file, and each file is read as one consistent content.
- The retry of file snapshots and of the build ID search when a file changes underneath.
- SetupGrammar.SetupScanned: block comments, long strings, a declaration with blanks inside its parentheses, and a string directly behind a declaration; the scanner is total on them, and does not see such a declaration.
- ModTable.TableScanned: tables with block comments, long strings, a second enabled field in a mod's own table, a key there that is enabled in brackets or is computed or escaped, a computed flag value, or a mod key without a table; the scanner is total on them and does not interpret them.
- ModLedger.PrintedFilesListed: does not cover several update files beyond the three the program configures.
- VersionExact.ValuesExact: is exact only where no later hit repeats the first value, because a repeated value can be found by luck although the first hit was missed; AgreementExact, about places, has no such exception.
- VersionWindow.ReadLocalVer: a read that fails in the middle of the file is not modelled; the program takes it for the end of the file.
- LogHub.CounterIsHolders: counts in unbounded integers; the source's counter has 32 bits and at most one holder per subscriber and send.
- Fairness of the log hub's select and progress of the handlers: only safety is stated.
- SupervisorSafety.NoStaleCrash: speaks of crashes sent by runners; an epoch sensor of an old generation can still send one.
- How the main loop decides to boot, to update or to leave, and its wait for background updates: each is a free choice in the model.
- Liveness of /api/stop racing with boot: the bus is drained after the cancel handle is published.
- The ready flag after cleanup, which a late output line can set again; the model reads it as an arbitrary value.
- SupervisorWait.WaitNeverStuck: relies on the operating system to end a killed process, which the model has as an event that can happen.
- Telemetry.Decoder.ParseRawPacket: the receive buffer and the sending of the report are not part of the model.
- Parasite.Activate: assumes that the world has a component table, that clocks and temperatures are finite numbers, and that a day has positive length.
- Lines above 256 KiB: the reader drops them before decoding, and the model starts behind it.
- Bridge.Receiver.UpdateState: takes the whole body; a body whose reading breaks off is parsed as far as it came.
- Exclusivity of the receive-buffer pool and of the report carrier pool: both can be given the same object twice.
- StatusRing.Slots.FlushServerState: one refresh at a time; a reader is not interleaved with the appends of the refresh that overwrites its slot.
- The receivers that take commands out of the console's queues: the queues only fill.
- EpochSensor.RemoteEpochSensor: takes the delivered lines; the loop in the source never advances its scanner, and TrimSpace is modelled for ASCII blanks only.
- The races between HTTP mirrors and the parsing of the answer in the mod query.
- CPU probing, default templates, the reflective configuration reader, the language table and the translator.
