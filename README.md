# rc-scoreboard in Dafny

This project models the logic of rc-scoreboard, a web scoreboard for recreational basketball. It is
built around the game context of the app. That context is a state machine: it holds the clock,
the two scores and basket records, the quick-match counter and the shared live-game row. It
mirrors those into the database and onto other devices. Around that state machine sit the
data-shaping helpers of the pages:

- the history page (CSV export, date normaliser, result filters and statistics, team filter);
- the tournament page (the create-match dialog and its durations);
- the check-in page (ordering and de-duplicating the day's matches, ordering the user's entries,
  the live-game filter, the check-in guards);
- the user administration page (per-user statistics, pending invites, list filters, the role
  switch guard, the activate and deactivate update);
- the settings page (`save()`);
- the CSV import script (its quote-aware CSV reader and the per-row import rules).

The files and modules are:

- `text.dfy` (`Text`) holds the JavaScript string built-ins the code relies on:
  - `trim`;
  - `toLowerCase` on Latin letters;
  - `includes`, `join` and `split`;
  - `Number` on decimal digits and integer rendering;
  - the `<` order on strings.
- `game.dfy` (`Game`) is the game context as a value:
  - `Board` holds every state hook and ref of the provider;
  - a write log records the database writes, live-row pushes and alerts the provider issues;
  - there is one transition function per intent, with lemmas stating what each does.
- `game_provider.dfy` (`GameProvider`) is the same provider as a class, `Scoreboard`:
  - its fields are the state hooks and refs;
  - its methods are the intents, made of one-field setters;
  - each method is proved to move the object's state exactly as the matching `Game` transition.
- `csv_import.dfy` (`CsvImport`) is `scripts/import_csv.js`:
  - the character loop of `parseCsv` as a method, proved against a scanning function;
  - the header lookup and `normalizeMode`;
  - the import loop as a method, proved against a fold.
- `history.dfy` (`History`), `tournament.dfy` (`Tournament`), `checkin.dfy` (`CheckIn`),
  `manage_users.dfy` (`ManageUsers`) and `settings.dfy` (`SettingsPage`) model one page each.
  Loops become methods proved against reference functions. Component state that is updated in
  place becomes a class: the create-match dialog, the check-in page and the user list page.

Calls to the hosted database, the clock and the confirmation prompt are modelled as follows:
- Their answers are method parameters: the next quick number `nextNo`, the id `newId` of a
  created match, the row read by a poll, and `confirmed`.
- The writes are entries of the write log (`Game.Effect`).
- Numbers are unbounded integers, so nothing wraps. `Number(...)` of a text is read only when
  the text is empty or an optionally signed run of decimal digits; any other text is NaN in the
  model, including fractions, exponents and hexadecimal that JavaScript reads as numbers (see
  "## Left out").

## Model

| member | source | states |
|---|---|---|
| Game.Initial | src/contexts/GameContext.jsx:20-49 | the provider mounts in quick mode, stopped, with both scores and basket records at 0 and the clock at the quick duration |
| Game.ClampScore | src/contexts/GameContext.jsx:431 | a new score is `max(0, prev + delta)`: never below the sum and either the sum or 0 |
| Game.RecordBasketSpec | src/contexts/GameContext.jsx:439-450 | +1/+2/+3 record one basket of that value; -1 withdraws a three if any, else a two, else a one (none below 0); any other delta changes nothing |
| Game.UndoBasket | src/contexts/GameContext.jsx:440-448 | a -1 right after a basket withdraws that basket when no larger basket is on record |
| Game.AddPointIgnored | src/contexts/GameContext.jsx:422-425 | scoring changes nothing unless the clock runs or final adjustment is on, and nothing while a remote reset is pending |
| Game.AddPointScores | src/contexts/GameContext.jsx:426-475 | otherwise the side's score becomes `max(0, score + delta)`, its basket record follows, the other side is untouched and the live score is written |
| Game.ScoreDrift | src/contexts/GameContext.jsx:431-448 | score and basket record can disagree: a three then a -1 leaves 2 points with no basket on record |
| Game.PlaySpec | src/contexts/GameContext.jsx:379-401 | `play` is refused exactly at 0 in final adjustment; otherwise the clock runs, adjustment and the remote-reset flag clear and a running row is pushed |
| Game.PauseSpec | src/contexts/GameContext.jsx:403-420 | `pause` is ignored while a remote reset is pending; otherwise it stops the clock and pushes a paused row |
| Game.ClockUpdates | src/contexts/GameContext.jsx:78-82 | the live-clock writes of k ticks from D are exactly D, D-1, ..., D-k+1 |
| Game.Countdown | src/contexts/GameContext.jsx:69-84 | before the clock reaches 1 each tick takes off exactly one second and writes the new time |
| Game.CountdownStops | src/contexts/GameContext.jsx:70-77 | from D >= 1 the clock runs for D ticks and then stands stopped at 0, never below |
| Game.BeepWindow | src/contexts/GameContext.jsx:179 | counting down from D, the warning is on at tick k < D exactly when sound is on and 1 <= D-k <= alertSeconds |
| Game.ResetTimerSpec | src/contexts/GameContext.jsx:652-670 | resetting stops the clock, ends adjustment, restores the period duration and leaves scores and baskets alone |
| Game.AfterClearGameState | src/contexts/GameContext.jsx:773-778 | clearing stops the clock at the period duration and zeroes scores and baskets, writing nothing |
| Game.ResultOf | src/contexts/GameContext.jsx:584-613 | a result row carries the board's scores and, for each basket value, the sum of both teams' baskets of that value (so the totals add up to both teams' basket points) |
| Game.PrepareNextQuickSpec | src/contexts/GameContext.jsx:557-580 | the next quick slot is stopped at the quick duration with empty scores, the new number, no match, and one pushed row |
| Game.FinishQuickAtZero | src/contexts/GameContext.jsx:510-533 | a quick match ended at 0-0 is deleted only when one is attached, never saved, and the board rolls to the next slot |
| Game.DiscardQuickWritesSpec | src/contexts/GameContext.jsx:512-530 | the 0-0 writes delete the attached match and nothing else of the match table |
| Game.FinishQuickSaves | src/contexts/GameContext.jsx:534-550 | a quick match with a point is marked (or created) done, then given the board's result, never deleted |
| Game.FinishTournamentAtZero | src/contexts/GameContext.jsx:689-716 | a tournament match ended at 0-0 is deleted, never marked done nor given a result; silent means no alert |
| Game.FinishTournamentSaves | src/contexts/GameContext.jsx:718-755 | a tournament match with a point is marked done, then given a result with the per-value basket totals; never deleted |
| Game.DurationAt | src/contexts/GameContext.jsx:632 | `durations[i] || fallback`: the entry when present and non-zero, else the fallback |
| Game.AdvanceSpec | src/contexts/GameContext.jsx:620-650 | no current match: nothing; last quarter: silent finish; else next quarter at its duration (or the quick one), scores kept |
| Game.DeclineTimerEnd | src/contexts/GameContext.jsx:478-508 | declining the timer-end prompt leaves 0 in final adjustment, where `play` is refused and scoring works |
| Game.TimerEndSavesBoard | src/contexts/GameContext.jsx:478-508 | confirming the end of a match with a point saves the board's own scores and deletes nothing |
| Game.StaleTimerEnd | src/contexts/GameContext.jsx:67-91 | as written, the handler reads the board of the render that started the clock, so a last quarter started at 0-0 is deleted even with points scored |
| Game.SaveCurrentSpec | src/contexts/GameContext.jsx:758-771 | leaving saves nothing at 0-0, a quick match with its result then rolls over, a tournament match finishes silently |
| Game.OrElse | src/contexts/GameContext.jsx:354-355 | `s || fallback`: s when non-empty, never empty with a non-empty fallback |
| Game.StartQuickSpec | src/contexts/GameContext.jsx:332-347 | a quick start gives a stopped empty board at the quick duration with the quick names and asks for a match only when none is attached |
| Game.StartTournamentSpec | src/contexts/GameContext.jsx:349-377 | a tournament start puts the match at quarter 1 with its first duration (or the quick one), empty scores, and pushes a paused row |
| Game.AfterQuickMatchFound | src/contexts/GameContext.jsx:286-290 | a found pending quick match is attached, taking its number when it has one; nothing else changes |
| Game.NoPushWhileResetPending | src/contexts/GameContext.jsx:50-91 | while a remote reset is pending no intent makes a `pushLiveGame` write, and scoring and pausing change nothing; the clock tick still writes the remaining time through `updateLiveGame` |
| Game.RemoteResetSpec | src/contexts/GameContext.jsx:259-278 | a remote reset is ignored while one is in progress; otherwise the board becomes an empty quick board number 1 at the quick duration |
| Game.AfterResetCooldown | src/contexts/GameContext.jsx:275-277 | the cool-down only clears the resetting flag |
| Game.ResetHoldsUntilPlay | src/contexts/GameContext.jsx:380-385 | after a remote reset scoring and pausing are ignored until `play`, which clears the flag and pushes |
| Game.SnapshotSpec | src/contexts/GameContext.jsx:780-795 | a row carrying `reset_at` is not applied; any other replaces mode, names, scores, quarter and clock with the documented fallbacks, the clock falling back to the quick duration of the calling render |
| Game.AfterPollLive | src/contexts/GameContext.jsx:93-114 | a polled row is applied only when none was accepted yet or it is strictly newer, and then its stamp is kept; it is applied with the quick duration of the first render |
| Game.PollLiveMountDuration | src/contexts/GameContext.jsx:93-114 | a polled row with no time left sets both clock fields to the first render's quick duration, which differs from the current setting once that was changed |
| Game.PollLiveOnce | src/contexts/GameContext.jsx:99-103 | polling the same stamped row again changes nothing |
| Game.ResetRowNotShown | src/contexts/GameContext.jsx:782 | a polled row carrying `reset_at` never changes what the board shows |
| Game.AfterPollReset | src/contexts/GameContext.jsx:139-146 | a reset is applied only when stamped and strictly newer than the last one |
| Game.PollResetOnce | src/contexts/GameContext.jsx:142-146 | seeing the same reset twice resets the board at most once |
| GameProvider.Scoreboard.constructor | src/contexts/GameContext.jsx:20-49 | the new object's state is `Game.Initial`, and the quick duration the live poll keeps is that of the initial settings |
| GameProvider.Scoreboard.SetSettings | src/contexts/GameContext.jsx:20 | `setSettings` replaces the settings and nothing else |
| GameProvider.Scoreboard.PushLiveGame | src/contexts/GameContext.jsx:50-53 | the push is logged unless a remote reset is pending |
| GameProvider.Scoreboard.EnsureQuick | src/contexts/GameContext.jsx:280-285 | the match lookup is asked for only without a pending reset and without an attached match |
| GameProvider.Scoreboard.ResetCounters | src/contexts/GameContext.jsx:236-241 | only scores and basket records change, to 0 |
| GameProvider.Scoreboard.Play | src/contexts/GameContext.jsx:379-401 | the new state is `Game.AfterPlay` of the old |
| GameProvider.Scoreboard.Pause | src/contexts/GameContext.jsx:403-420 | the new state is `Game.AfterPause` of the old |
| GameProvider.Scoreboard.AddPoint | src/contexts/GameContext.jsx:422-476 | the new state is `Game.AfterAddPoint` of the old |
| GameProvider.Scoreboard.Tick | src/contexts/GameContext.jsx:69-84 | one interval firing moves the state as `Game.AfterTick` |
| GameProvider.Scoreboard.RunClock | src/contexts/GameContext.jsx:67-91 | n firings move the state as `Game.RunTicks` |
| GameProvider.Scoreboard.ResetTimer | src/contexts/GameContext.jsx:652-670 | the new state is `Game.AfterResetTimer` of the old |
| GameProvider.Scoreboard.ClearGameState | src/contexts/GameContext.jsx:773-778 | the new state is `Game.AfterClearGameState` of the old |
| GameProvider.Scoreboard.EndLiveGame | src/contexts/GameContext.jsx:672-687 | only an ended row is pushed |
| GameProvider.Scoreboard.PrepareNextQuick | src/contexts/GameContext.jsx:557-580 | the new state is `Game.AfterPrepareNextQuick` of the old |
| GameProvider.Scoreboard.SaveQuickMatch | src/contexts/GameContext.jsx:582-618 | the new state is `Game.AfterSaveQuick` of the old |
| GameProvider.Scoreboard.DiscardQuick | src/contexts/GameContext.jsx:512-530 | only the 0-0 deletions and the ended row are logged |
| GameProvider.Scoreboard.FinishQuick | src/contexts/GameContext.jsx:510-555 | the new state is `Game.AfterFinishQuick` of the old |
| GameProvider.Scoreboard.FinishTournamentMatch | src/contexts/GameContext.jsx:689-756 | the new state is `Game.AfterFinishTournament` of the old |
| GameProvider.Scoreboard.DiscardTournament | src/contexts/GameContext.jsx:693-716 | at 0-0 only the deletion, the ended row and the optional alert are logged |
| GameProvider.Scoreboard.SaveTournament | src/contexts/GameContext.jsx:718-755 | with a point only the done mark, the result, the ended row and the optional alert are logged |
| GameProvider.Scoreboard.AdvanceQuarterOrFinish | src/contexts/GameContext.jsx:620-650 | the new state is `Game.AfterAdvance` of the old |
| GameProvider.Scoreboard.HandleTimerEnd | src/contexts/GameContext.jsx:478-508 | the new state is `Game.AfterTimerEnd` of the old, read when the handler runs |
| GameProvider.Scoreboard.SaveCurrentIfNeeded | src/contexts/GameContext.jsx:758-771 | the new state is `Game.AfterSaveCurrent` of the old |
| GameProvider.Scoreboard.StartQuick | src/contexts/GameContext.jsx:332-347 | the new state is `Game.AfterStartQuick` of the old |
| GameProvider.Scoreboard.StartTournamentMatch | src/contexts/GameContext.jsx:349-377 | the new state is `Game.AfterStartTournament` of the old |
| GameProvider.Scoreboard.QuickMatchFound | src/contexts/GameContext.jsx:286-290 | the new state is `Game.AfterQuickMatchFound` of the old |
| GameProvider.Scoreboard.Heartbeat | src/contexts/GameContext.jsx:116-135 | the running heartbeat pushes the board's row, unless a reset is pending |
| GameProvider.Scoreboard.QuickSync | src/contexts/GameContext.jsx:159-176 | a quick game with an attached match pushes its row, unless a reset is pending |
| GameProvider.Scoreboard.ApplyRemoteReset | src/contexts/GameContext.jsx:259-278 | the new state is `Game.AfterRemoteReset` of the old |
| GameProvider.Scoreboard.ResetCooldown | src/contexts/GameContext.jsx:275-277 | only the resetting flag clears |
| GameProvider.Scoreboard.ShowLiveTeams | src/contexts/GameContext.jsx:783-788 | mode, quarter, names and scores are taken from the row with their fallbacks, nothing else changes |
| GameProvider.Scoreboard.ShowLiveClock | src/contexts/GameContext.jsx:789-795 | both clock fields take the row's time (or the given quick duration), the match and number follow the row, adjustment ends, running follows the status |
| GameProvider.Scoreboard.AlertUnlessSilent | src/contexts/GameContext.jsx:749-751 | the alert is logged exactly when not silent, nothing else changes |
| GameProvider.Scoreboard.ApplyLiveSnapshot | src/contexts/GameContext.jsx:780-795 | the new state is `Game.AfterSnapshot` of the old |
| GameProvider.Scoreboard.PollLive | src/contexts/GameContext.jsx:93-114 | the new state is `Game.AfterPollLive` of the old, with the quick duration kept since the object was built |
| GameProvider.Scoreboard.PollReset | src/contexts/GameContext.jsx:139-146 | the new state is `Game.AfterPollReset` of the old |
| Text.Trim | scripts/import_csv.js:40 | `trim()` leaves no white space at either end, never lengthens the text, and keeps a trimmed string as it is |
| Text.TrimRemovesSpace | scripts/import_csv.js:40 | `trim()` gives the infix of the text that neither starts nor ends with white space, removing white space and nothing else from either end |
| Text.TrimIdempotent | scripts/import_csv.js:40 | trimming twice is trimming once |
| Text.ToLower | scripts/import_csv.js:67 | same length; every upper-case letter becomes its lower-case letter and every other character is kept |
| Text.ToLowerIdempotent | scripts/import_csv.js:67 | lower-casing twice is lower-casing once |
| Text.LessTransitive | src/pages/ManageUsersPage.jsx:121 | the string order compared there is transitive |
| Text.LessTotal | src/pages/ManageUsersPage.jsx:121 | of two different strings one comes first |
| CsvImport.ParseCsv | scripts/import_csv.js:19-64 | the character loop returns the rows of the scanning function, and they are well formed |
| CsvImport.Advance | scripts/import_csv.js:25-56 | one pass consumes two characters exactly for a doubled quote inside quotes, and one character otherwise |
| CsvImport.ScanDoubled | scripts/import_csv.js:30-32 | inside quotes a doubled quote is one literal quote |
| CsvImport.ScanToggle | scripts/import_csv.js:33-35 | any other quote only toggles quoting and is not kept |
| CsvImport.ScanChar | scripts/import_csv.js:55 | an ordinary character, or a comma or line break inside quotes, is kept in the field |
| CsvImport.ScanComma | scripts/import_csv.js:39-43 | a comma outside quotes ends the field, trimmed |
| CsvImport.ScanBreak | scripts/import_csv.js:45-52 | a line break outside quotes ends the row only when something is pending |
| CsvImport.ParseWellFormed | scripts/import_csv.js:40-61 | no emitted row is empty and every field is trimmed |
| CsvImport.ParseBlank | scripts/import_csv.js:45-52 | blank input gives no rows |
| CsvImport.ParsePlainLines | scripts/import_csv.js:39-61 | lines without quotes give one row each, with one field more than the line has commas, the last line kept without a final break |
| CsvImport.ParseEncodedTable | scripts/import_csv.js:29-61 | a table written with every field quoted reads back as the same table trimmed, commas and breaks inside fields included |
| CsvImport.NormalizeMode | scripts/import_csv.js:66-70 | quick exactly when the lower-cased text contains "quick", "rápida" or "rapida" |
| CsvImport.FindHeader | scripts/import_csv.js:77-79 | the first index from `from` whose trimmed header is the name, or -1 |
| CsvImport.LastHeader | scripts/import_csv.js:85-86 | the last index holding exactly the name, or -1 |
| CsvImport.ImportOne | scripts/import_csv.js:97-163 | one pass of the loop body is `ImportRow` on the loop's variables |
| CsvImport.ImportRows | scripts/import_csv.js:94-164 | the loop creates matches with pairwise distinct keys, each with the quarter layout of its mode |
| CsvImport.ImportRowSkips | scripts/import_csv.js:98-113 | rows with an empty date or team name, or an already seen key, change nothing; others add their key and one match |
| CsvImport.ImportRowAdds | scripts/import_csv.js:111-140 | a row that is not skipped adds its key and one valid match carrying that key |
| CsvImport.ImportDedupes | scripts/import_csv.js:97-140 | at most one match per key, every kept row represented by its key's match, quick 1x420 and tournament 4x600 |
| CsvImport.ImportTeams | scripts/import_csv.js:115-127 | no team is inserted whose lower-cased name the map already has, and each match uses the mapped teams |
| CsvImport.ImportFile | scripts/import_csv.js:73-97 | the first row is the header and the others are imported; a file without rows makes the script fail |
| History.CsvFields | src/pages/HistoryPage.jsx:17-28 | nine cells: the match's four text columns; then, with a result, cells that read back as the first result's two scores and three basket counts (0 for a null column); without a result, five zeros |
| History.CsvLines | src/pages/HistoryPage.jsx:13-29 | rows.length + 1 lines, the header first, then one line per row in order |
| History.ToCsv | src/pages/HistoryPage.jsx:12-31 | the loop's text is the lines joined with line breaks |
| History.HeaderLinePlain | src/pages/HistoryPage.jsx:13-14 | the header line has no line break |
| History.LinesPlain | src/pages/HistoryPage.jsx:14-29 | no line of the export has a line break when no text column has one |
| History.ExportLines | src/pages/HistoryPage.jsx:12-31 | splitting the export at line breaks gives back exactly its header line and row lines |
| History.LineReadsBack | src/pages/HistoryPage.jsx:18-28 | splitting a line at commas gives its nine cells, and the score and basket cells read back as the first result's numbers (0 when missing) |
| History.YearFirst | src/pages/HistoryPage.jsx:39-42 | a day-first date rewritten year first is an ISO date with the groups moved |
| History.NormalizeDate | src/pages/HistoryPage.jsx:33-45 | empty stays empty, an ISO date stays, a trimmed day-first date is rewritten year first, anything else is trimmed |
| History.NormalizeDateIdempotent | src/pages/HistoryPage.jsx:33-45 | normalising twice is normalising once |
| History.NormalizeDayFirst | src/pages/HistoryPage.jsx:39-43 | an ISO date written day first with either separator normalises back to itself |
| History.LoadEntries | src/pages/HistoryPage.jsx:184-188 | the loop builds the entries map of `EntriesOf` |
| History.EntriesOfKeys | src/pages/HistoryPage.jsx:186 | the map's keys are exactly the non-empty match ids of the entries |
| History.EntriesOfLast | src/pages/HistoryPage.jsx:186 | each id maps to the side of the last entry carrying it |
| History.FilteredRows | src/pages/HistoryPage.jsx:229-232 | every row unless "mine" is on with a user; then exactly the rows with an entry |
| History.FilteredRowsAppend | src/pages/HistoryPage.jsx:229-232 | either way the filter distributes over concatenation, so the kept rows are a subsequence in the sorted order |
| History.Mine | src/pages/HistoryPage.jsx:231 | the rows whose id has an entry, no more, and all of them when all have one |
| History.MineAppend | src/pages/HistoryPage.jsx:231 | filtering a concatenation is concatenating the filtered parts: the order of the rows is kept |
| History.DoneMatches | src/pages/HistoryPage.jsx:234-245 | the summaries of exactly the rows that are done and have a result |
| History.DoneMatchesAppend | src/pages/HistoryPage.jsx:234-245 | the summaries of a concatenation are the concatenated summaries: they come in the order of the rows |
| History.UserStats | src/pages/HistoryPage.jsx:247-261 | null exactly without "mine" and a user; else wins, total and percentage of the reference functions |
| History.WinsAtMostTotal | src/pages/HistoryPage.jsx:253-257 | every win is counted in the total |
| History.DrawIsNoWin | src/pages/HistoryPage.jsx:255-257 | a drawn result adds to the total and never to the wins |
| History.PctBounds | src/pages/HistoryPage.jsx:259 | the percentage is within 0..100, 0 without wins, 100 when every result was won |
| History.TeamOptions | src/pages/HistoryPage.jsx:263-269 | no name twice, and exactly the registered teams' names and the rows' non-empty team names |
| History.Add | src/pages/HistoryPage.jsx:265-268 | adding to a set keeps it duplicate-free and adds exactly the new name |
| Tournament.Clamp | src/pages/TournamentPage.jsx:128-129 | `max(lo, min(hi, x))` lies in range and is x when x does |
| Tournament.ReadDuration | src/pages/TournamentPage.jsx:127-131 | NaN in, NaN out; else minutes clamped to 0..99 and seconds to 0..59, total in 0..5999 |
| Tournament.ReadDurationRoundTrip | src/pages/TournamentPage.jsx:127-131 | typing back either shown part of a duration in range gives the duration |
| Tournament.Resize | src/pages/TournamentPage.jsx:36-42 | the list gets `quarters` entries: the kept prefix, then copies of the first entry (or 600) |
| Tournament.ResizeStable | src/pages/TournamentPage.jsx:36-42 | resizing to the same length changes nothing, and resizing twice is resizing once |
| Tournament.SetDurationAt | src/pages/TournamentPage.jsx:119-125 | one entry replaced, every other equal |
| Tournament.FinalDurations | src/pages/TournamentPage.jsx:143-145 | same duration: `quarters` copies of the first entry (or the quick one); else the first `quarters` entries |
| Tournament.FinalAfterResize | src/pages/TournamentPage.jsx:36-42 | after the resize effect the separate durations are the whole resized list |
| Tournament.FindTeam | src/pages/TournamentPage.jsx:140-141 | a team of the list with that id, or none exactly when no team has it |
| Tournament.FindTeamFirst | src/pages/TournamentPage.jsx:140-141 | `find` answers the first team with the id: the one no earlier team's id matches |
| Tournament.CreateMatchGuards | src/pages/TournamentPage.jsx:133-164 | ignored exactly without both ids; refused exactly for equal ids, then exactly for a final duration <= 0; created exactly when the ids differ, every final duration is positive and both ids are in the list, with the first team of each id, the final durations, the first non-empty date and the tournament |
| Tournament.OpenedDialogCreates | src/pages/TournamentPage.jsx:102-164 | a freshly opened dialog on two different teams creates 4 quarters of 600 s |
| Tournament.CreateMatchDialog.constructor | src/pages/TournamentPage.jsx:23-28 | closed, no teams chosen, 4 quarters of 600 s |
| Tournament.CreateMatchDialog.OpenModal | src/pages/TournamentPage.jsx:102-113 | refused with fewer than two teams; else opens on the first two teams with 4 quarters of 600 s |
| Tournament.CreateMatchDialog.SetQuarters | src/pages/TournamentPage.jsx:36-42 | choosing a count resizes the durations |
| Tournament.CreateMatchDialog.ToggleSameDuration | src/pages/TournamentPage.jsx:301 | only the same-duration flag flips |
| Tournament.CreateMatchDialog.EditDuration | src/pages/TournamentPage.jsx:119-131 | only the edited entry changes, to the read duration |
| Tournament.CreateMatchDialog.HandleCreateMatch | src/pages/TournamentPage.jsx:133-170 | the outcome is `CreateMatch` of the dialog, which closes exactly when a match is created |
| CheckIn.CompareMatchesAntisymmetric | src/pages/CheckInPage.jsx:30-35 | the comparator is antisymmetric and orders two numbered matches by number |
| CheckIn.CompareMatchesCycle | src/pages/CheckInPage.jsx:30-35 | numbered and unnumbered matches together can form a cycle, so the comparator is not an order |
| CheckIn.InOrderNumbered | src/pages/CheckInPage.jsx:31 | in a list the comparator accepts, adjacent numbered matches have ascending numbers |
| CheckIn.KeysOfMembers | src/pages/CheckInPage.jsx:42-43 | the keys in the map are exactly the keys of the matches kept |
| CheckIn.DisplayMatches | src/pages/CheckInPage.jsx:39-46 | the loop keeps the matches of `Display` |
| CheckIn.DisplayDistinctKeys | src/pages/CheckInPage.jsx:39-46 | no two shown matches share a key |
| CheckIn.DisplayCoversKeys | src/pages/CheckInPage.jsx:39-46 | every key of the day is shown |
| CheckIn.DisplayIsFirsts | src/pages/CheckInPage.jsx:39-46 | the shown list is exactly the first match per key, in order |
| CheckIn.DisplayDistinctNumbers | src/pages/CheckInPage.jsx:39-46 | no two shown matches share a match number |
| CheckIn.OrderMapKeys | src/pages/CheckInPage.jsx:49 | every match id is in the map, at a 1-based position of a match with that id |
| CheckIn.OrderMapPositions | src/pages/CheckInPage.jsx:49 | with distinct ids each match's position is its 1-based index |
| CheckIn.Insert | src/pages/CheckInPage.jsx:51-58 | one step of the sort is a permutation adding the entry |
| CheckIn.OrderedEntries | src/pages/CheckInPage.jsx:51-59 | the sorted entries are a permutation of the entries |
| CheckIn.InsertByRank | src/pages/CheckInPage.jsx:53-57 | inserting into a list sorted by rank keeps it sorted |
| CheckIn.OrderedEntriesByRank | src/pages/CheckInPage.jsx:51-59 | the entries come out sorted by the position of their match |
| CheckIn.InsertOfRank | src/pages/CheckInPage.jsx:53-57 | inserting into a sorted list puts the entry after every entry of its rank and keeps the others' order |
| CheckIn.OrderedEntriesStable | src/pages/CheckInPage.jsx:51-59 | the sort is stable: the entries of each rank come out in their original order |
| CheckIn.ListedFirst | src/pages/CheckInPage.jsx:54-55 | an entry of a listed match comes before every entry whose match is not listed (rank 9999) |
| CheckIn.LiveFilter | src/pages/CheckInPage.jsx:76-79 | with a numbered live quick game, quick matches are kept only when numbered no later; else all are kept |
| CheckIn.Played | src/pages/CheckInPage.jsx:78 | the filter keeps exactly the matches passing the test |
| CheckIn.PlayedAppend | src/pages/CheckInPage.jsx:78 | the filter distributes over concatenation: the kept matches stay in their order |
| CheckIn.PlayedFirst | src/pages/CheckInPage.jsx:78-81 | the first match kept, which `loadMatches` chooses when none is chosen, is the first of the list that passes the test |
| CheckIn.LiveFilterAppend | src/pages/CheckInPage.jsx:76-79 | the whole filter distributes over concatenation: the offered matches keep their order |
| CheckIn.Submit | src/pages/CheckInPage.jsx:102-121 | refused without a user or a match; else the row has the match, the user, the profile name or email, the chosen side and the page's date |
| CheckIn.CheckInPage.LoadMatches | src/pages/CheckInPage.jsx:76-81 | keeps the filtered list and picks its first match when none is chosen |
| ManageUsers.StatsByUser | src/pages/ManageUsersPage.jsx:114-125 | the loop builds the map of `StatsOf` |
| ManageUsers.StatsOfUsers | src/pages/ManageUsersPage.jsx:116-122 | the map holds exactly the users with an entry, each with its entry count and latest date |
| ManageUsers.LatestIsMaximum | src/pages/ManageUsersPage.jsx:120-121 | the kept date is empty exactly without a dated entry, else one of the user's dates that no other exceeds |
| ManageUsers.StatsForUser | src/pages/ManageUsersPage.jsx:255 | a user's row shows the entry count and latest date, 0 and none when absent |
| ManageUsers.Registered | src/pages/ManageUsersPage.jsx:72 | the set of the profiles' lower-cased addresses |
| ManageUsers.PendingMembers | src/pages/ManageUsersPage.jsx:72-78 | an invite is kept exactly when no profile has its address, ignoring case |
| ManageUsers.PendingAppend | src/pages/ManageUsersPage.jsx:78 | the filter keeps the order of the invites |
| ManageUsers.PendingNoneRegistered | src/pages/ManageUsersPage.jsx:78 | with no registered address, every invite is kept |
| ManageUsers.StaleInviteShown | src/pages/ManageUsersPage.jsx:31-78 | as written, an invite of a registered address hidden by a full load shows again after an invite is sent |
| ManageUsers.Visible | src/pages/ManageUsersPage.jsx:251-253 | a user is listed exactly when active (or inactive ones are shown) and its role's box is ticked |
| ManageUsers.VisibleAll | src/pages/ManageUsersPage.jsx:251-253 | with every box ticked every user is listed in order |
| ManageUsers.VisibleAppend | src/pages/ManageUsersPage.jsx:251-253 | the filters distribute over concatenation: the listed users keep their order |
| ManageUsers.NextRole | src/pages/ManageUsersPage.jsx:286 | the switch asks for master exactly when the user is not one |
| ManageUsers.ToggleRequest | src/pages/ManageUsersPage.jsx:284-287 | a click asks for a change only when the switch is live and the user has an id, with the other role |
| ManageUsers.OwnRoleLocked | src/pages/ManageUsersPage.jsx:256 | a master's own row never asks for a role change, whatever the case of the address |
| ManageUsers.ActivePayload | src/pages/ManageUsersPage.jsx:132 | activation writes only the flag; deactivation also demotes to observer |
| ManageUsers.ActiveButton | src/pages/ManageUsersPage.jsx:126-132 | the button flips active and inactive; a deactivated user is no master and is listed only with both boxes; activation keeps the role |
| ManageUsers.InviteTarget | src/pages/ManageUsersPage.jsx:21-22 | nothing exactly when the trimmed address is empty; else the trimmed address lower-cased letter by letter |
| ManageUsers.InviteTargetIdempotent | src/pages/ManageUsersPage.jsx:21 | inviting the address an invite went to sends to the same address |
| ManageUsers.ResendRequest | src/pages/ManageUsersPage.jsx:40-44 | nothing without an address; else that address with its role, observer when missing |
| ManageUsers.ManageUsersPage.LoadUsers | src/pages/ManageUsersPage.jsx:85-108 | keeps the profiles and entries and the invites of unregistered addresses |
| ManageUsers.ManageUsersPage.ReloadInvites | src/pages/ManageUsersPage.jsx:70-83 | the reload filters against the profiles the page holds |
| SettingsPage.JsRem | src/pages/SettingsPage.jsx:9 | JavaScript's `%`: the remainder takes the dividend's sign, is smaller than the divisor, and the dividend minus it is a multiple of the divisor |
| SettingsPage.Duration | src/pages/SettingsPage.jsx:16 | NaN when either part is; else `max(0, m * 60 + s)`: at least both, and one of them |
| SettingsPage.Save | src/pages/SettingsPage.jsx:15-24 | the theme kept; duration `m * 60 + s` when positive, else 420; alert kept unless 0 or NaN, then 20; sound copied; each name kept unless empty, then "Com Colete" / "Sem Colete" |
| SettingsPage.SplitRejoin | src/pages/SettingsPage.jsx:8-16 | minutes and seconds put back together give a non-negative duration, and at most 0 for a negative one |
| SettingsPage.SaveOpened | src/pages/SettingsPage.jsx:8-24 | saving the unedited form changes only what `save()` normalises |
| SettingsPage.SaveStable | src/pages/SettingsPage.jsx:8-24 | normalised settings survive an unedited save, and saving twice is saving once |
| SettingsPage.SaveDefaults | src/pages/SettingsPage.jsx:15-24 | the default settings survive an unedited save |

## Left out

- Database, auth and network calls are not modelled: the gateway wrappers, the invite function and the row-level policies. Their answers are parameters, and their writes are entries of the write log.
- Failure paths are not modelled: a gateway error that ends in `setLastError` and an error alert. Every intent is modelled on its success path.
- React scheduling is not modelled: batched state updates, effect re-subscription, and the interleaving of awaited calls. Each intent runs atomically on the state it reads, with two exceptions where a handler reads an older render: the timer-end handler recorded under Findings (`Game.Captured`), and the live poll, which applies rows with the quick duration of the first render (`GameProvider.Scoreboard.PollLive`, `Game.AfterPollLive`).
- Timers are not modelled. The one-second interval is `Tick`/`RunClock`, the polls are `PollLive`/`PollReset` and the reset cool-down is `ResetCooldown`. The beep's audio output is left out; only its condition is modelled.
- `ensureQuickMatch` past its guards is not modelled. The model covers its two guards and the case where the pending match is found (`QuickMatchFound`). Renumbering the latest pending match and creating a new one are database work.
- The lookup behind the quick number is not modelled: the context keeps the number it answers (`nextNo`).
- `pushLiveGame(...).catch(...)` while a remote reset is pending is modelled as "no write". In the source, the suppressed call returns `undefined`, so the `.catch` throws. Inside `finishQuick` that error is caught and shown, and the roll-over to the next quick slot is skipped.
- Game.AfterFinishQuick, Game.AfterFinishTournament, Game.AfterSaveCurrent: success paths only, without the error alerts.
- `dateISO`, `settings` persistence, the confirm and alert dialogs' own state, `lastError` and `formatTime` are left out. They are storage or UI state that no modelled decision reads.
- The import script's environment checks, file read, console output and exit code are left out, as are database errors on insert. A failed match or result insert skips the row's count in the source. The model creates every row that passes the guards.
- History `sortedRows` is left out: it sorts by parsing timestamps with `Date`, and the model takes the sorted list as given. So is the `localeCompare('pt-BR')` sort at the end of `teamOptions`: `TeamOptions` states the set of names but not their order.
- History.UserStats: the percentage is `Math.round` on the exact ratio (`(200 * wins + total) / (2 * total)`), not floating-point.
- The check-in `orderedMatches` sort is left out. Its comparator is not transitive when numbered and unnumbered matches mix (`CheckIn.CompareMatchesCycle`), so no result order follows from the source. The model takes the ordered list as given (`DisplayMatches`, `OrderMap`).
- `currentMatch`, `loadEntries` and the team-side choice of the check-in page are left out. They are lookups and database reads.
- The insert-or-update semantics of the check-in upsert belong to the database, and are not modelled.
- `removeInvite`, the `set_user_role` call and the confirmation prompts of the user page are left out. They are database calls behind a prompt.
- The tournament page's team and match management is left out (`initTournament`, `loadAll`, team creation and deletion, match deletion). These are database calls.
- Tournament.CreateMatchDialog.EditDuration: the typed values must read as numbers. A NaN duration is not modelled.
- Tournament.SetDurationAt: the index must be within the list. JavaScript would extend the array.
- SettingsPage.Save: numeric fields are integers or NaN. Decimal input is not modelled.
- Text.NumberOf reads the empty text and optionally signed decimal digit runs. JavaScript's `Number` also reads fractions ("7.0", "5.5"), exponents ("1e1"), hexadecimal ("0x7"), "Infinity" and surrounding white space; the model reads all of these as NaN, because it has no non-integer numbers.
- CsvImport.RowKey: a score or basket cell in one of those notations puts "NaN" in the key and stores no number, where the script writes the number. So cells "7.0" and "7" give two imported matches where the script keeps one, and cells "7.5" and "8.5" share a key where the script imports both.
- Tournament.ReadDuration: a minutes or seconds input in one of those notations is NaN in the model, where the page computes the clamped total (330 s for "5.5" minutes).
- Game.AfterStartTournament: the team names fall back from `team_a_name` to "TIME 1" directly. The source's middle fallback `match.teamA` / `match.teamB` is not modelled: the modelled match row carries only `team_a_name` and `team_b_name`, and nothing in the repository writes a `teamA` or `teamB` field.
- Text.ToLower lower-cases the Basic Latin and Latin-1 letters only.
- Text.Less compares code points rather than UTF-16 code units. The two differ only beyond the Basic Multilingual Plane.

## Findings

| source | as written | input that shows it | evidently intended | confidence | as-written member | corrected member |
|---|---|---|---|---|---|---|
| src/contexts/GameContext.jsx:67-91 | the interval is created when `running` turns true and calls the `handleTimerEnd` of that render, which reads the scores of that render | last quarter of a tournament match started at 0-0, two points scored, timer runs out, end confirmed | the match is saved with the scores on the board | medium, not executed | Game.TimerEndAsWritten, Game.StaleTimerEnd | Game.AfterTimerEnd, Game.TimerEndSavesBoard |
| src/pages/ManageUsersPage.jsx:31-78 | after an invite is sent, resent or removed, `loadInvites()` runs with its default empty profile list and filters nothing | a profile "Ana@Club.org" and a leftover invite "ana@club.org": hidden after a full load, listed again after any invite is sent | invites are always filtered against the loaded profiles | medium, not executed | ManageUsers.ReloadInvitesAsWritten, ManageUsers.StaleInviteShown | ManageUsers.ManageUsersPage.ReloadInvites, ManageUsers.PendingMembers |
