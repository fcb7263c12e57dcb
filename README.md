# Poker tournament clock, modelled in Dafny

A model of the state engine of the poker-clock server and of two pure helpers of its web client.

The server holds one tournament record: players, chips, exchange rate, blind schedule, timer and prize percentages. It changes that record in four ways:

- `calculatePrizes` recomputes the derived totals and prizes;
- a one-second tick counts the clock down and rolls over to the next blind level;
- five admin commands (start, pause, reset, next level, previous level);
- `PUT /api/tournament` merges a partial record into the stored one.

Each change broadcasts either the whole record (`tournamentStateUpdate`) or only the timer (`timerUpdate`).
In the client, the configuration panel edits the blind structure, and the clock turns seconds into `MM:SS`.

Modules:

- `Levels` (levels.dfy): the `BlindLevel` entity and the seed schedule.
- `Tournament` (tournament.dfy): the record, its timer and prize configuration, and the two broadcast shapes.
- `Prizes` (prizes.dfy): `calculatePrizes` as a function, with its properties.
- `Engine` (engine.dfy): the tick and the five commands as pure steps. A step returns the new record, the broadcasts it emitted in order, and whether the handler threw.
- `Merge` (merge.dfy): the `PUT` merge.
- `Server` (server.dfy): the class `TournamentServer`. It holds the record in `state` and every broadcast in `log`. Each handler updates the record field by field, as the source does, and is proved equal to its step.
- `Structure` (structure.dfy): the editing operations of the configuration panel, as functions on sequences of levels.
- `Clock` (clock.dfy): `formatTime`. The admin page inlines the same expression at src/pages/Admin.tsx lines 161-162.

Reading a level that does not exist: in JavaScript, `blinds[i]` outside the array is `undefined`, and reading `.duration` from it throws a TypeError. The tick and the next-, previous- and reset-level handlers can hit this only after a `PUT` has moved the index out of range or emptied the schedule. The model returns this case as `threw`. The record then keeps the assignments made before the failing line, and nothing is broadcast.

Three points about the code's behaviour:

- Prizes are recomputed only at start-up and in `PUT`. The commands change only the timer, so the derived fields stay correct (`Engine.TimerChangeKeepsConsistent`).
- The clock stops on the tick that finds `timeLeft == 0` on the last level.
- Next level on the last level broadcasts nothing.

## Model

| member | source | states |
|---|---|---|
| Levels.LevelAt | ElGarito/poker-clock/server/index.ts:187 | array indexing: the level at an existing index, and `undefined` exactly outside the array |
| Levels.DefaultBlinds | ElGarito/poker-clock/server/index.ts:20-35 | the seed schedule: 14 levels numbered 1..14, each 15 minutes, big blind twice the small one, an ante from level 5 on, small blinds non-decreasing |
| Prizes.StackMedio | ElGarito/poker-clock/server/index.ts:46 | with players, the average stack is the floor of total chips over players (an integer s with s*j <= total < (s+1)*j); without players it is 0 |
| Prizes.CalculatePrizes | ElGarito/poker-clock/server/index.ts:38-73 | the chip total is players' chips plus the dealer bonus; each euro prize is its percentage of players' chips over valorFicha; each chip prize is that times valorFicha; all other fields pass through |
| Prizes.CalculatePrizesIgnoresDerived | ElGarito/poker-clock/server/index.ts:39-57 | the result depends only on the inputs, never on the stored derived fields |
| Prizes.CalculatePrizesIdempotent | ElGarito/poker-clock/server/index.ts:59-72 | applying it twice equals applying it once, so its result is consistent |
| Prizes.PrizeFichasArePercentOfPlayerChips | ElGarito/poker-clock/server/index.ts:55-57 | each chip prize is exactly its percentage of the players' chips, whatever the exchange rate |
| Prizes.PrizePoolInEuros | ElGarito/poker-clock/server/index.ts:48-53 | the three euro prizes sum to players' chips over valorFicha times the summed percentages over 100 |
| Prizes.BonusDealerDoesNotChangePrizes | ElGarito/poker-clock/server/index.ts:48-57 | changing the dealer bonus changes the chip total but none of the six prize fields |
| Engine.TickStep | ElGarito/poker-clock/server/index.ts:107-130 | a tick changes only the timer, emits nothing when it throws, and throws exactly when a running clock at zero moves to an index below 0 |
| Engine.LevelSeconds | ElGarito/poker-clock/server/index.ts:116 | a refilled countdown is the level's duration in whole minutes, counted in seconds; a positive duration gives at least 60 seconds |
| Engine.TickWhileIdle | ElGarito/poker-clock/server/index.ts:108 | a stopped clock: the tick changes nothing and emits nothing |
| Engine.TickWhileCounting | ElGarito/poker-clock/server/index.ts:109-110 | running with time left: timeLeft drops by exactly 1, the level stays, one timer-only broadcast |
| Engine.TickAtZeroAdvances | ElGarito/poker-clock/server/index.ts:111-128 | at zero with a level left (from index -1 up to the last but one): the index moves up one, timeLeft becomes the new level's duration*60, then a full-state and a timer-only broadcast |
| Engine.TickAtZeroOnLastLevel | ElGarito/poker-clock/server/index.ts:119-128 | at zero on the last level: the clock stops, the index stays, then a full-state and a timer-only broadcast |
| Engine.Run | ElGarito/poker-clock/server/index.ts:107-130 | any number of consecutive ticks changes only the timer |
| Engine.Countdown | ElGarito/poker-clock/server/index.ts:109-110 | n <= timeLeft ticks of a running clock take n seconds off; each emits one timer-only event, carrying the right time |
| Engine.AdvanceOnTickAfterCountdown | ElGarito/poker-clock/server/index.ts:108-128 | from timeLeft = N while running, N ticks reach 0 on the same level, and tick N+1 rolls over (or stops on the last level) with both broadcasts |
| Engine.IdleRun | ElGarito/poker-clock/server/index.ts:108 | a stopped clock stays stopped and silent for any number of ticks |
| Engine.StartStep | ElGarito/poker-clock/server/index.ts:175-179 | start sets isRunning, stores the given time as lastTimestamp, changes nothing else, emits one full state |
| Engine.PauseStep | ElGarito/poker-clock/server/index.ts:181-184 | pause clears isRunning, changes nothing else, emits one full state |
| Engine.PauseIdempotent | ElGarito/poker-clock/server/index.ts:181-184 | pausing twice equals pausing once, and pausing a stopped clock leaves the record as it was |
| Engine.ResetStep | ElGarito/poker-clock/server/index.ts:186-191 | reset changes only the timer; it throws, leaving everything as it was, exactly on an empty schedule |
| Engine.ResetRefillsLevel | ElGarito/poker-clock/server/index.ts:186-191 | reset sets timeLeft to the current level's duration*60 (level 0 when the index is out of range), stops the clock, keeps the index, emits one full state |
| Engine.NextLevelStep | ElGarito/poker-clock/server/index.ts:193-201 | next level changes only the timer and throws exactly when the index is below -1 |
| Engine.PrevLevelStep | ElGarito/poker-clock/server/index.ts:203-211 | previous level changes only the timer and throws exactly when the index is more than one past the end |
| Engine.NextLevelAtEnd | ElGarito/poker-clock/server/index.ts:194 | at (or past) the last index, next level is a no-op that emits nothing |
| Engine.PrevLevelAtStart | ElGarito/poker-clock/server/index.ts:204 | at (or below) index 0, previous level is a no-op that emits nothing |
| Engine.NextLevelMoves | ElGarito/poker-clock/server/index.ts:194-200 | otherwise (from index -1 up to the last but one) the index moves up exactly one and lands in range, timeLeft is refilled, the clock stops, one full state is emitted |
| Engine.PrevLevelMoves | ElGarito/poker-clock/server/index.ts:204-210 | otherwise (from index 1 up to one past the end) the index moves down exactly one and lands in range, timeLeft is refilled, the clock stops, one full state is emitted |
| Engine.TimerChangeKeepsConsistent | ElGarito/poker-clock/server/index.ts:174-211 | a change confined to the timer keeps the derived chip and prize fields correct |
| Engine.StepsPreserveInvariants | ElGarito/poker-clock/server/index.ts:107-211 | with the index in range, neither the tick nor any command throws, and each keeps the index in range and the derived fields correct |
| Engine.TimeLeftStaysNonNegative | ElGarito/poker-clock/server/index.ts:107-211 | from a non-negative countdown over durations >= 0, the tick and each of the five commands leave timeLeft >= 0 and the schedule unchanged |
| Engine.RunKeepsTimeLeftNonNegative | ElGarito/poker-clock/server/index.ts:107-130 | under the same condition, any number of ticks in a row leaves timeLeft >= 0 |
| Merge.PutStep | ElGarito/poker-clock/server/index.ts:137-159 | after a merge the derived fields are exactly those recomputed from the merged inputs; one full state is emitted |
| Merge.MergeTimer | ElGarito/poker-clock/server/index.ts:147-149 | each timer key takes the supplied value when the body has it and keeps the stored value otherwise |
| Merge.MergePrizes | ElGarito/poker-clock/server/index.ts:142-144 | each of the nine prize keys takes the supplied value when present and keeps the stored one otherwise |
| Merge.MergeState | ElGarito/poker-clock/server/index.ts:140-149 | each top-level key takes the supplied value when present; a supplied timer or premios object is merged key by key over the stored one, an absent one is kept whole |
| Merge.MergeEmptyPatch | ElGarito/poker-clock/server/index.ts:140-149 | a body with no keys leaves the record as it was |
| Merge.MergeIdempotent | ElGarito/poker-clock/server/index.ts:140-149 | spreading the same body twice gives the same record as spreading it once |
| Merge.PutIdempotent | ElGarito/poker-clock/server/index.ts:137-156 | sending the same PUT body twice stores the same record as sending it once |
| Merge.PutReplacesTopLevel | ElGarito/poker-clock/server/index.ts:140 | top-level inputs present in the body replace the stored ones; absent ones are kept |
| Merge.PutMergesTimer | ElGarito/poker-clock/server/index.ts:147-149 | timer keys in the body replace the stored ones one by one; absent keys, or an absent timer, keep their values |
| Merge.PutMergesPercentages | ElGarito/poker-clock/server/index.ts:142-144 | prize percentages are merged key by key in the same way |
| Merge.PutIgnoresSuppliedDerived | ElGarito/poker-clock/server/index.ts:151-152 | stale totals, average or prizes in the body never survive: bodies agreeing on the inputs store the same record |
| Merge.PutCanLeaveIndexOutOfRange | ElGarito/poker-clock/server/index.ts:140 | no range check: a shorter schedule can leave the timer index past its end |
| Merge.PutCanStoreNegativeTime | ElGarito/poker-clock/server/index.ts:147-149 | no check on the timer either: a body with timer.timeLeft = -5 stores a countdown of -5 |
| Merge.PrevLevelAfterShrinkThrows | ElGarito/poker-clock/server/index.ts:203-207 | after such a merge, previous level throws when index - 1 is still past the end, while next level is a silent no-op |
| Server.SeedState | ElGarito/poker-clock/server/index.ts:76-101 | the record as written, before the first calculation, has its index in range and a non-zero exchange rate |
| Server.InitialState | ElGarito/poker-clock/server/index.ts:104 | the start-up record is consistent, has its index in range, nine players with 30000 chips at 1000 chips per euro, the seed schedule, and the clock stopped on level 1 with 900 seconds |
| Server.InitialStateFacts | ElGarito/poker-clock/server/index.ts:75-104 | the start-up record holds 30000 chips in total, an average stack of 3333, prizes of 15/9/6 euros and 15000/9000/6000 chips |
| Server.PutFichasJugadoresExample | ElGarito/poker-clock/server/index.ts:137-156 | setting players' chips to 300000 recomputes the first prize to 150 euros at once, keeps the dealer bonus, and broadcasts it |
| Server.NextLevelOnLastSeedLevel | ElGarito/poker-clock/server/index.ts:193-201 | next level on the 14th seed level leaves the record unchanged and emits nothing |
| Server.TournamentServer.constructor | ElGarito/poker-clock/server/index.ts:76-104 | the stored record is the seed record after calculatePrizes; nothing has been broadcast |
| Server.TournamentServer.Broadcast | ElGarito/poker-clock/server/index.ts:156 | an emit appends the event to the log and leaves the record alone |
| Server.TournamentServer.Tick | ElGarito/poker-clock/server/index.ts:107-130 | the in-place tick produces exactly TickStep's record, broadcasts and throw, and keeps a consistent record consistent |
| Server.TournamentServer.Put | ElGarito/poker-clock/server/index.ts:137-159 | the handler stores and broadcasts exactly PutStep's record, which is always consistent |
| Server.TournamentServer.StartTimer | ElGarito/poker-clock/server/index.ts:175-179 | the handler equals StartStep for the given time and keeps a consistent record consistent |
| Server.TournamentServer.PauseTimer | ElGarito/poker-clock/server/index.ts:181-184 | the handler equals PauseStep and keeps a consistent record consistent |
| Server.TournamentServer.ResetTimer | ElGarito/poker-clock/server/index.ts:186-191 | the handler equals ResetStep, including the throw, and keeps a consistent record consistent |
| Server.TournamentServer.NextLevel | ElGarito/poker-clock/server/index.ts:193-201 | the handler equals NextLevelStep, including the throw, and keeps a consistent record consistent |
| Server.TournamentServer.PrevLevel | ElGarito/poker-clock/server/index.ts:203-211 | the handler equals PrevLevelStep, including the throw, and keeps a consistent record consistent |
| Server.PlayFirstLevel | ElGarito/poker-clock/server/index.ts:107-211 | start, 900 ticks, the roll-over tick, pause, previous and next: the server ends stopped on level 2 with 900 seconds, consistent, after 906 broadcasts ending in a full state |
| Structure.Reindex | ElGarito/poker-clock/src/components/ConfigPanel.tsx:39-41 | renumbering keeps the length and every field but id, and numbers the levels 1, 2, 3, ... |
| Structure.ReindexNumbered | ElGarito/poker-clock/src/components/ConfigPanel.tsx:39-41 | renumbering an already numbered structure changes nothing |
| Structure.NewLevel | ElGarito/poker-clock/src/components/ConfigPanel.tsx:44-51 | the appended level doubles the last level's blinds and keeps its duration, or is 25/50 for 15 minutes on an empty structure; its ante is 0 and it is no break and has no label |
| Structure.AddLevel | ElGarito/poker-clock/src/components/ConfigPanel.tsx:43-53 | one level longer, earlier levels unchanged but for ids; the new level doubles the last blinds, keeps its duration, has ante 0; on an empty list 25/50 for 15 minutes |
| Structure.DropAt | ElGarito/poker-clock/src/components/ConfigPanel.tsx:56 | the filter drops one element, and one occurrence of it from the multiset, exactly when the index is in range; otherwise the length and multiset are kept |
| Structure.DropAtIsRemoval | ElGarito/poker-clock/src/components/ConfigPanel.tsx:56 | the index filter removes exactly element i when it exists and nothing otherwise |
| Structure.RemoveLevel | ElGarito/poker-clock/src/components/ConfigPanel.tsx:55-58 | for i in range, the structure without element i, one shorter, in order, renumbered; otherwise only renumbered |
| Structure.MoveLevel | ElGarito/poker-clock/src/components/ConfigPanel.tsx:60-70 | moving keeps the length and the multiset of levels (ignoring ids) |
| Structure.SwapStrip | ElGarito/poker-clock/src/components/ConfigPanel.tsx:67 | swapping two positions keeps the multiset of levels |
| Structure.MoveLevelAtEnds | ElGarito/poker-clock/src/components/ConfigPanel.tsx:61-62 | up at index 0, or down at the last index, leaves the structure exactly as it was |
| Structure.MoveLevelSwaps | ElGarito/poker-clock/src/components/ConfigPanel.tsx:64-69 | otherwise level i and its neighbour trade places, the others stay, and ids are renumbered |
| Structure.MoveUpThenDown | ElGarito/poker-clock/src/components/ConfigPanel.tsx:60-70 | moving up from i and then down from i-1 restores the original order, renumbered |
| Structure.SetField | ElGarito/poker-clock/src/components/ConfigPanel.tsx:35 | the edited field reads the new value; every other field, the id, the break flag and the label are kept |
| Structure.SetFieldUnchanged | ElGarito/poker-clock/src/components/ConfigPanel.tsx:35 | writing back the value a field already holds changes nothing |
| Structure.SetFieldTwice | ElGarito/poker-clock/src/components/ConfigPanel.tsx:35 | a field written twice keeps only the second value |
| Structure.ChangeLevel | ElGarito/poker-clock/src/components/ConfigPanel.tsx:33-37 | only field f of level i becomes v; its other fields, its id and all other levels are unchanged |
| Structure.ValidLevel | ElGarito/poker-clock/src/components/ConfigPanel.tsx:74-79 | the per-level save condition; a level that passes lasts at least one minute |
| Structure.ValidLevelByField | ElGarito/poker-clock/src/components/ConfigPanel.tsx:74-79 | a level passes exactly when every panel-edited field that is present is at least 0, and the duration at least 1 |
| Structure.Every | ElGarito/poker-clock/src/components/ConfigPanel.tsx:74-79 | the left-to-right check holds exactly when every level is valid |
| Structure.HandleSave | ElGarito/poker-clock/src/components/ConfigPanel.tsx:72-88 | the structure is handed to onSave, unchanged, if and only if every level has non-negative blinds, an absent or non-negative ante and a positive duration; otherwise nothing is saved |
| Structure.DefaultBlindsSavable | ElGarito/poker-clock/src/components/ConfigPanel.tsx:72-79 | the seed schedule passes the save check |
| Structure.EditsKeepValid | ElGarito/poker-clock/src/components/ConfigPanel.tsx:43-70 | adding, removing and moving levels keep a savable structure savable |
| Clock.Digits | ElGarito/poker-clock/src/components/Clock.tsx:13 | a number's decimal digits: digit characters only, a single one exactly below 10 |
| Clock.DigitsSpell | ElGarito/poker-clock/src/components/Clock.tsx:13 | the digits spell the number back, with no leading zero |
| Clock.NumberToString | ElGarito/poker-clock/src/components/Clock.tsx:13 | toString of an integer: a leading '-' exactly for negatives, digit characters everywhere else |
| Clock.NumberToStringSpells | ElGarito/poker-clock/src/components/Clock.tsx:13 | what follows the sign spells the magnitude of the number |
| Clock.PadStart2 | ElGarito/poker-clock/src/components/Clock.tsx:13 | strings of two or more characters are left alone; shorter ones are left-padded with '0' to two characters |
| Clock.JsRemainder | ElGarito/poker-clock/src/components/Clock.tsx:12 | JavaScript's %: a = b * (truncated a / b) + r, with abs(r) < b and r carrying the sign of a |
| Clock.Split | ElGarito/poker-clock/src/components/Clock.tsx:11-12 | minutes is the floor of t/60; for t >= 0 the seconds are in [0, 60) and minutes*60 + seconds == t; for t < 0 they follow JavaScript's signed remainder |
| Clock.TwoDigits | ElGarito/poker-clock/src/components/Clock.tsx:13 | a number below 100 is shown as exactly two digits |
| Clock.FormatTime | ElGarito/poker-clock/src/components/Clock.tsx:10-14 | for t >= 0 the display has at least five characters: digits, then ':' three from the end, then two digits |
| Clock.FormatTimeReadsBack | ElGarito/poker-clock/src/components/Clock.tsx:10-14 | for every t >= 0, reading the display back as minutes * 60 + seconds gives t |
| Clock.FormatShortTimes | ElGarito/poker-clock/src/components/Clock.tsx:10-14 | below 6000 seconds the display is the two minute digits, ':', and the two second digits |
| Clock.FormatTimeRoundTrip | ElGarito/poker-clock/src/components/Clock.tsx:10-14 | below 6000 seconds the display has five characters and reads back to t under both readers |
| Clock.ParseClockRoundTrip | ElGarito/poker-clock/src/components/Clock.tsx:10-14 | every MM:SS display with seconds below 60 is the format of the time it parses to |
| Clock.ParseClockIsReadClock | ElGarito/poker-clock/src/components/Clock.tsx:10-14 | the MM:SS reader is the general reader narrowed to five characters |
| Clock.FormatLongTimes | ElGarito/poker-clock/src/components/Clock.tsx:13 | from 6000 seconds on the display is exactly the unpadded decimal digits of the minutes, ':', and the two digits of the seconds; it has six or more characters |
| Clock.FormatNegativeTime | ElGarito/poker-clock/src/components/Clock.tsx:11-13 | a negative time is shown with signed parts, e.g. -1 as "-1:-1" |

## Left out

- The Express routes, socket.io setup, CORS and `server.listen` (server/index.ts lines 8-18, 133-135, 170-172 and 213-221) are network plumbing. A broadcast is an entry in `log`. The `GET` response and the snapshot sent to a connecting client are plain reads of `state`.
- Login (server/index.ts lines 161-168, src/pages/Login.tsx) is a fixed-string comparison over HTTP, so it is not modelled.
- `setInterval` timing, drift and missed ticks are not modelled. `Tick` runs when called, and `Date.now()` is the `now` parameter.
- What Node does after a handler throws (the process may terminate) is not modelled. The model only reports `threw` and the partly updated record.
- Server.TournamentServer.Tick and the other handlers: only one handler runs at a time, as on the single-threaded event loop. Concurrency is not modelled.
- Prizes.CalculatePrizes: requires valorFicha != 0. With 0 the source makes `Infinity`/`NaN`; the model uses exact reals instead of IEEE doubles.
- Merge.PutStep: requires the merged valorFicha to be non-zero, for the same reason (likewise `Server.TournamentServer.Put`).
- Formatting with `toFixed` and `toLocaleString` in the display components is not modelled.
- Numbers from a request body are modelled as typed fields: blind amounts, durations, `timeLeft`, the index, timestamps and `jugadores` are integers, and money fields are reals. Non-numeric values, `null` and unknown keys in a `PUT` body are not modelled. This includes the optional `porcentajeSeguimiento` key of server/types.ts, which nothing reads.
- Structure.ChangeLevel: requires an index in range. The panel calls it only for rows it renders. The panel edits only the four numeric fields, and ChangeLevel models exactly those.
- Structure.MoveLevel: requires an index in range, for the same reason (only rendered rows have move buttons).
- Clock formatting of non-integer seconds is not modelled.
- React plumbing is left out: resetting the panel when it opens, `onClose`, `onResetDefaults`, the alert text and rendering.
- The other UI components, the Python launcher and src/data/defaultStructure.ts (a copy of the seed schedule) are left out.
