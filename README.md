# Beer-pong match tracker: match state machine and shot statistics

This project models the core of a beer-pong match tracker written in Python
and Flask, and proves properties of that model.

A match row (`ActiveMatch`) holds, for each team:
- the cups still on the table (`tN_cup_state`);
- the cups hit but not yet taken away (`tN_pending_list`);
- a pending-damage counter and a cup target;
- the format the team is racked in, and whether it has already changed the opponent's format.

The row also holds:
- a status: `running`, `redemption_t1`, `redemption_t2` or `finished`;
- a mode: normal play or overtime;
- the redemption counters `redemption_shots_left` and `redemption_hits`;
- the winner.

The live count of a team is its cups minus its pending hits. It can be negative after an overkill.

The repository keeps three revisions of the same rules, and each is its own module:

| module | revision | file |
|---|---|---|
| `Routes` | canonical | `app/main/routes.py` |
| `Databases` and `Obsolete` | oldest | `databases.py` for the state machine; `app_OBSOLETE.py` for the shot, edit, delete and rematch routes |
| `App` | counter-based | `app.py` |

`LegacyRules` holds the parts that `app.py` and `app_OBSOLETE.py` write identically:
- the first-change-wins format lock;
- the undo and redo of a stored hit.

Each revision has specification functions over the value `MatchState.State`. Each imperative operation is a method on the class `MatchState.ActiveMatch`. Its contract is `m.Snap() == F(old(m.Snap()), …)`, with `F` the revision's function. Lemmas about the functions state the rules: transitions, guards, counters and resets.

`Catalog` is the static format catalogue `CUP_DEFINITIONS` together with `PlayerRecord.outcome` (`app/models.py`).

`Stats` covers the integer counters of `app/main/stats_calculations.py`:
- `is_true`;
- the streak scans;
- the clutch counters;
- the last-day shot partition, with its match and win counting;
- shots per match and their maxima;
- the multi-hit labels;
- the hit tallies per number of opposing cups.

Each loop is a method proved against recursive specification functions, with lemmas giving their meaning.

`Strings` holds the parts of Python's `str` that the core relies on:
- ordering and `max`;
- `split` and `join`;
- `strip`, `capitalize` and `isdigit`;
- `int()` and `str()`.

`CupLists` holds the list comprehensions over cup labels.

## Model

| member | source | states |
|---|---|---|
| Catalog.CatalogShape | app/models.py:19-26 | exactly six formats, of sizes 6, 4, 3, 2, 2 and 1; "Singolo Centrale" is `["Singolo"]`; any other name gives the empty list |
| Catalog.LabelsDistinct | app/models.py:20-25 | no label repeats within a format |
| Catalog.LabelsDisjoint | app/models.py:20-25 | two different formats share no label |
| Catalog.LabelNamesFormat | app/models.py:20-25 | every label of a format carries that format's own prefix |
| Catalog.CatalogLabelsAvoidO | app/models.py:20-25 | no catalogue label starts with "O", so it cannot collide with an `Overkill_` placeholder |
| Catalog.RecordOutcome | app/models.py:138-142 | Centro exactly when centro is "Sì" (whatever bordo holds); Bordo exactly when only bordo is "Sì"; Miss otherwise |
| CupLists.RemoveAll | app/main/routes.py:300 | the commit filter: a label survives exactly when it was a cup and is not pending; the list never grows |
| CupLists.RemoveAllCounts | app/main/routes.py:300 | every copy of a pending label goes; any other label keeps its number of copies |
| CupLists.RemoveAllConcat | app/main/routes.py:300 | the filter distributes over concatenation |
| CupLists.RemoveAllAbsent | app/main/routes.py:300 | removing labels that are absent changes nothing |
| CupLists.RemoveAllCovered | app/main/routes.py:300 | removing a superset of the labels empties the list |
| CupLists.RemoveAllLeavesSome | databases.py:236-242 | with more distinct cups than distinct pending labels, the filter leaves at least one cup |
| CupLists.AppendMissing | app_OBSOLETE.py:415-425 | the restore loop keeps the old list as a prefix and holds exactly the old labels plus the restored ones |
| CupLists.AppendMissingFresh | app_OBSOLETE.py:415-425 | each appended label is one of the restored labels and does not occur earlier in the list |
| CupLists.AppendEach | app.py:659-660 | the append loop computes `AppendMissing` |
| CupLists.RemoveAfterAppend | app_OBSOLETE.py:447-455 | restoring labels and then removing them is the same as only removing them |
| CupLists.UndoThenRedo | app_OBSOLETE.py:415-455 | undo followed by redo of the same hit gives back the original list, when the hit labels were gone |
| CupLists.NonEmpty | app/main/routes.py:836 | `[x for x in … if x]` keeps exactly the non-empty pieces |
| CupLists.SubsetNoLarger | app/main/stats_calculations.py:55-62 | a subset is never larger than its superset (used for wins ≤ matches) |
| Strings.LessIrreflexive | app/main/routes.py:402-406 | Python string order is irreflexive |
| Strings.LessTotal | app/main/routes.py:402-406 | two strings are equal or ordered one way, never both ways |
| Strings.LessTransitive | app/main/routes.py:402-406 | Python string order is transitive |
| Strings.MaxOf | app/main/stats_calculations.py:50 | `max(dates)` is one of the dates and no date is greater |
| Strings.Split | app/main/routes.py:346 | `split` gives at least one piece, and no piece holds the separator |
| Strings.SplitAfterPiece | app/main/routes.py:346 | splitting at the first separator peels off the text before it |
| Strings.SplitPlain | app/main/routes.py:346 | text without the separator splits to itself |
| Strings.Strip | app/main/stats_calculations.py:192 | `strip()` leaves no whitespace at either end and never lengthens |
| Strings.StripTrimmed | app/main/stats_calculations.py:192 | text with no whitespace at either end is left alone by `strip()` |
| Strings.Capitalize | app/main/stats_calculations.py:192 | `capitalize()` upper-cases the first character, lower-cases the rest and keeps the length |
| Strings.CapitalizeFixed | app/main/stats_calculations.py:192 | already capitalized text is left alone |
| Strings.NatToString | app/main/stats_calculations.py:198 | the decimal rendering of a number is never empty |
| Strings.NatToStringDigits | app/main/stats_calculations.py:197 | `str(n)` is all digits, and reading it back gives `n` |
| Strings.IntOfDecimal | app/main/stats_calculations.py:945 | `int(str(n)) == n` for every integer |
| MatchState.Commit | app/main/routes.py:297-304 | committing keeps exactly the cups that are not pending, empties pending, zeroes the counter and keeps target and format |
| MatchState.ActiveMatch.constructor | app.py:389-392 | a new match is running in normal mode with both teams on the full pyramid, nothing pending, and the four seats as given; `winner` starts as None, standing for the winner column where a revision has one |
| Routes.InitCupState | app/main/routes.py:160-165 | only the named team's cups change, to the catalogue list of the format (empty for an unknown name) |
| Routes.StartOvertime | app/main/routes.py:39-64 | the row becomes `OvertimeStarted` of the old row |
| Routes.FinishMatch | app/main/routes.py:99-110 | the row becomes `Finish` of the old row |
| Routes.Rematch | app/main/routes.py:67-97 | the row becomes `Rematched` of the old row |
| Routes.ApplyPendingDamage | app/main/routes.py:261-308 | the row becomes `DamageApplied` of the old row |
| Routes.UpdateGameState | app/main/routes.py:167-259 | the row becomes `Updated` of the old row |
| Routes.PushDamage | app/main/routes.py:856-874 | the append loops over the opponent's pending list compute `DamageList` |
| Routes.PushRed | app/main/routes.py:860-866 | the red-cup loop appends exactly the cups `AddRed` selects: in order, each new to the list, no more than the potency |
| Routes.PushPlaceholders | app/main/routes.py:869-872 | the list gains `missing` placeholders numbered from 0, after the entries it had |
| Routes.ChangeFormat | app/main/routes.py:792-813 | the format block: any different submitted format re-racks the opponent, with no lock |
| Routes.RegisterHit | app/main/routes.py:832-885 | the hit block: potency entries pushed, and the hits of a redeeming shooter raised by the potency |
| Routes.AddRecord | app/main/routes.py:787-893 | format block; then, when a result was sent, own damage commit, hit block, shot decrement and state update |
| Routes.TakeShot | app/main/routes.py:828-885 | the row becomes `ShotTaken` of the old row: own pending hits committed, the hit pushed, a redemption shot spent |
| Routes.ForceUpdate | app/main/routes.py:770-780 | while running, the opponent's pending hits are committed and the state is updated; otherwise nothing changes |
| Routes.GetMatchInfo | app/main/routes.py:13-24 | the first unfinished match seating the player, team 1 tested before team 2 within a match; None only if no unfinished match seats the player |
| Routes.Potency | app/main/routes.py:839-841 | the multiplier is between 1 and 6, and 1 for an empty field |
| Routes.PlaceholderIsNoCup | app/main/routes.py:872-874 | an `Overkill_…` placeholder is never a catalogue cup |
| Routes.AddRedFresh | app/main/routes.py:861-867 | every cup the red-cup loop appends is a red cup not already in the list |
| Routes.Placeholders | app/main/routes.py:872-874 | exactly the shortfall count of placeholders, numbered from 0 |
| Routes.AddRed | app/main/routes.py:864-867 | the red-cup loop adds at most `potency` cups and keeps the old list as a prefix |
| Routes.DamageListShape | app/main/routes.py:861-874 | a hit grows the opponent's pending list by exactly the potency: old entries first, then fresh non-rehit red cups, then numbered placeholders |
| Routes.AimedCups | app/main/routes.py:846-849 | the recorded cups number at most the potency and come from the rehits and the candidates |
| Routes.SortedPair | app/main/routes.py:402-406 | `sorted` of at most two names is a permutation, in order |
| Routes.SortedPairOrderFree | app/main/routes.py:402-404 | the sorted seats do not depend on the order of the two names |
| Routes.PairSwapFree | app/main/routes.py:406 | sorting the two team keys ignores their order |
| Routes.TeamKeySeatFree | app/main/routes.py:402-405 | a team's key ignores which seat each player took |
| Routes.MatchKeySymmetric | app/main/routes.py:401-406 | the match key ignores which side each team played and the seat order within a team |
| Routes.NonBlankPieces | app/main/routes.py:346 | the filtered pieces are never more than the pieces |
| Routes.NonBlankPiecesAll | app/main/routes.py:346 | pieces that are all non-blank are kept as they are |
| Routes.Points | app/main/routes.py:341-349 | a stored hit scores at least one point |
| Routes.SplitJoined | app/main/routes.py:346 | splitting the cups that `add_record` joins with ", " (line 898) at the commas gives back one piece per cup |
| Routes.RecordedPoints | app/main/routes.py:341-349 | a stored hit scores its number of aimed cups, and 1 for one cup or none |
| Routes.PointsWithinPotency | app/main/routes.py:341-349 | a hit never scores more points than the potency of its multiplier (lines 841-849) |
| Routes.UpdateIgnoresFinished | app/main/routes.py:173 | a finished match is left unchanged |
| Routes.UpdateRecordsLiveCounts | app/main/routes.py:186-191 | on an unfinished match both cup targets become the live counts (cups minus pending) |
| Routes.RunningEntersRedemption | app/main/routes.py:194-206 | in normal play, team 1 is tested first: live ≤ 0 enters its redemption with 2 shots against one live cup or else the opponent's live count, hits 0; otherwise only the targets change |
| Routes.RedemptionOverkillFirst | app/main/routes.py:221-228 | the redeeming team's own live ≤ -1 hands the win to the opponent; otherwise a target below -1 hands the win to the redeeming team; both apply before shots are looked at |
| Routes.RedemptionLastShot | app/main/routes.py:232-252 | with no shots left, target 0 starts overtime, a positive target makes the opponent win, and target -1 flips redemption to the opponent with 2 shots, 0 hits and empty opponent lists |
| Routes.RedemptionWaits | app/main/routes.py:230-252 | with shots left and no overkill, only the targets are recorded |
| Routes.DamageHeldBack | app/main/routes.py:272-279 | during redemption, damage against the team that is not redeeming is held back |
| Routes.DamageCommitted | app/main/routes.py:293-304 | otherwise a non-empty pending list is committed (every copy removed, pending emptied, counter 0), an empty one changes nothing, and the other team is untouched |
| Routes.HitLowersOpponentLive | app/main/routes.py:830-891 | a hit first commits the shooter's own damage (the shooter's side is exactly the committed side) and then lowers the opponent's live count by exactly the potency |
| Routes.MissSparesOpponent | app/main/routes.py:832-891 | a miss or a rim shot leaves the opponent's cups and pending list alone |
| Routes.RedemptionCounters | app/main/routes.py:877-891 | each shot by the redeeming team spends exactly one shot, and a hit raises its hits by the potency; other shots touch neither counter |
| Routes.OvertimeFromCatalog | app/main/routes.py:39-58 | overtime: running, overtime mode, both formats "Singolo Centrale" with the catalogue's single cup, nothing pending, counters 0, both flags set |
| Routes.FinishKeepsCups | app/main/routes.py:99-110 | finishing records the winner and the end time and changes nothing else |
| Routes.RematchRestarts | app/main/routes.py:67-97 | a rematch restarts running in normal mode: six live pyramid cups per team, nothing pending, no winner, counters and flags cleared |
| Routes.FormatNeverLocked | app/main/routes.py:792-813 | a different submitted format always re-racks the opponent, even after an earlier change |
| Routes.ForcedCommitsOpponent | app/main/routes.py:770-780 | force-update commits only the opponent's pending hits, and only while running |
| Routes.SestuploOpening | app/main/routes.py:782-893 | from a new match, one "Sestuplo" hit on the whole pyramid sends team 2 into redemption with 6 shots and 0 hits, with its six cups all pending and team 1 left as it was |
| Databases.InitCupState | databases.py:184-191 | only the named team's cups change, to the catalogue list of the format |
| Databases.ApplyPendingDamage | databases.py:225-250 | the row becomes this revision's `DamageApplied` of the old row |
| Databases.StartOvertime | databases.py:253-268 | the row becomes `OvertimeStarted` of the old row |
| Databases.FinishMatch | databases.py:271-286 | the row becomes `Finish` of the old row |
| Databases.UpdateGameState | databases.py:289-355 | the row becomes `Updated` of the old row |
| Databases.GetMatchInfo | databases.py:194-200 | the first match, finished or not, seating the player on team 1; failing that, the first seating them on team 2; None when no match seats them |
| Databases.DamageNothingPending | databases.py:235 | an empty pending list changes nothing |
| Databases.DamageCommitGuarded | databases.py:236-246 | when distinct cups minus distinct pending is ≤ 0, only the counter is zeroed and both lists stay; otherwise every copy of every pending label leaves the cups, at least one cup remains, and pending empties |
| Databases.UpdateIgnoresFinished | databases.py:293 | a finished match is left unchanged |
| Databases.UpdateRecordsLiveCounts | databases.py:297-308 | both cup targets become cups minus pending |
| Databases.RunningOutcomes | databases.py:311-326 | in normal play, team 1 first: live ≤ -1 makes the opponent win; live 0 enters redemption with 2 shots against 1, or else the opponent's live count; otherwise nothing but the targets changes |
| Databases.RedemptionOverkill | databases.py:336-341 | a target below -1 makes the redeeming team win, whatever shots remain |
| Databases.RedemptionLastShot | databases.py:344-355 | with no shots left: target 0 starts overtime, -1 flips the roles (2 shots, 0 hits, opponent's lists emptied), a positive target makes the opponent win |
| Databases.RedemptionWaits | databases.py:336-355 | with shots left and no overkill, only the targets are recorded |
| Databases.FinishResets | databases.py:271-286 | finishing records the winner and end time, then re-racks both teams on the pyramid with hits 0 and flags false; pending lists stay |
| LegacyRules.ChangeFormat | app_OBSOLETE.py:272-287 | the row becomes `FormatChosen` of the old row, and the recorded format is `RecordedFormat` |
| LegacyRules.RestoreCups | app_OBSOLETE.py:415-425 | the opponent's cups get back each missing label of the stored hit |
| LegacyRules.WithdrawHits | app_OBSOLETE.py:423-425 | a redeeming shooter loses the hits and gets the shot back; nothing else changes |
| LegacyRules.RewindShot | app_OBSOLETE.py:413-455 | on an unfinished match, the old hit is undone and the new hit redone |
| LegacyRules.RemoveCups | app_OBSOLETE.py:449-451 | every copy of each new cup leaves the opponent's table; nothing else changes |
| LegacyRules.ReplayHits | app_OBSOLETE.py:452-454 | a redeeming shooter scores the hits again and spends the shot; nothing else changes |
| LegacyRules.FormatChangeOnce | app_OBSOLETE.py:272-287 | a format re-racks the opponent exactly when it is given, differs from the opponent's format and the shooter has not changed format yet; otherwise the row is unchanged and a refused format is recorded as the stored one |
| LegacyRules.FormatSecondIgnored | app_OBSOLETE.py:272-287 | after a change, the team's next different format is refused and the opponent stays on the first one |
| LegacyRules.UndoRedoRoundTrip | app_OBSOLETE.py:413-455 | undo then redo of the same hit, on an unfinished match whose hit cups have already left the opponent's table, restores the row exactly |
| LegacyRules.UndoRestoresCups | app_OBSOLETE.py:415-425 | undo holds exactly the old cups plus the hit's cups, keeps the old cups as a prefix and leaves the shooter's side alone; a redeeming shooter has hits − n and shots + 1 |
| LegacyRules.RedoRemovesCups | app_OBSOLETE.py:447-455 | redo removes every copy of the new cups; a redeeming shooter has hits + n and shots − 1 |
| LegacyRules.RewindIgnoresFinished | app_OBSOLETE.py:413 | editing a shot of a finished match changes nothing |
| Obsolete.Rematch | app_OBSOLETE.py:117-141 | the row becomes `Rematched` of the old row |
| Obsolete.AppendAll | app_OBSOLETE.py:313-315 | the loop appends every label, duplicates included |
| Obsolete.CountShot | app_OBSOLETE.py:294-367 | with no overkill, the pending list and counters become `ShotCounted` of the old row |
| Obsolete.TakeShot | app_OBSOLETE.py:291-370 | the row becomes `ShotTaken` of the old row |
| Obsolete.AddRecord | app_OBSOLETE.py:266-370 | format block, then the shot with the rehit text split at commas |
| Obsolete.EditRecord | app_OBSOLETE.py:407-462 | the row becomes `Edited` of the old row |
| Obsolete.DeleteRecord | app_OBSOLETE.py:467-493 | the row becomes `Deleted` of the old row |
| Obsolete.RedeemingHitPushesAll | app_OBSOLETE.py:299-323 | a redeeming hit appends all of rehits + candidates to the opponent's pending list, raises hits by that count and spends one shot |
| Obsolete.RedemptionShotSpent | app_OBSOLETE.py:322-367 | every shot by the redeeming team spends exactly one shot; no other shot touches the counters |
| Obsolete.NonRedeemingHitIgnored | app_OBSOLETE.py:300-329 | during the opponent's redemption, a shot by the other team changes nothing |
| Obsolete.NormalHit | app_OBSOLETE.py:339-361 | in normal play a hit wins outright when cups − pending − effective < 0; otherwise every candidate is appended to pending, even if already there |
| Obsolete.NoOverkillKeepsCups | app_OBSOLETE.py:335-345 | in normal play a hit that passes the overkill test is counted and updated, and leaves the opponent's live count at 0 or more |
| Obsolete.RematchRestarts | app_OBSOLETE.py:120-139 | a rematch is running with no winner or end time, counters 0, both formats Piramide with flags false, pendings empty and both teams on the full pyramid |
| Obsolete.DeleteReturnsShot | app_OBSOLETE.py:474-486 | deleting a redeeming hit, with shots left and the opponent not below -1, restores its cups, returns the shot and withdraws the hits |
| Obsolete.EditIgnoresFinished | app_OBSOLETE.py:413-459 | editing a shot of a finished match changes nothing |
| App.ApplyPendingDamage | app.py:160-191 | the row becomes this revision's unguarded `DamageApplied` of the old row |
| App.StartOvertime | app.py:204-217 | the row becomes `OvertimeStarted` of the old row |
| App.FinishMatch | app.py:219-232 | the row becomes `Finish` of the old row |
| App.UpdateGameState | app.py:234-311 | the row becomes `Updated` of the old row |
| App.Rematch | app.py:399-409 | the row becomes `Rematched` of the old row |
| App.CountShot | app.py:566-605 | the pending list and counters become `ShotCounted` of the old row |
| App.AddRecord | app.py:536-609 | format block, own damage commit, the shot, then the state update |
| App.EditRecord | app.py:642-716 | the row becomes `Edited` of the old row |
| App.DeleteRecord | app.py:718-759 | the row becomes `Deleted` of the old row |
| App.CountsIgnorePending | app.py:243-249 | the counts are list lengths with pending ignored, and a finished match is left alone |
| App.RunningOutcomes | app.py:252-274 | in normal play, team 1 first: count 0 enters redemption with 2 shots against 1, or else the opponent's count; otherwise only the counts change; the count < 0 branch that makes the opponent win is dead, as `App.RunningNeverFinishes` shows |
| App.RunningNeverFinishes | app.py:252-274 | list lengths are never negative, so normal play never ends the match directly |
| App.RedemptionOutcomes | app.py:285-309 | with no shots left, on `virtual = opponent − hits`: 0 starts overtime, -1 flips (2 shots, 0 hits), ≤ -2 makes the redeeming team win, > 0 makes the opponent win; every integer falls in one case |
| App.RedemptionWaits | app.py:280-309 | with shots left, only the counts are recorded, however many hits were scored |
| App.FinishForgetsWinner | app.py:219-232 | finishing records no winner, for either winner argument, since the row has no winner column: `State.winner` keeps what it held |
| App.DamageUnguarded | app.py:175-187 | the commit has no guard and may leave a team with no cups |
| App.RedemptionHitCountsOnly | app.py:570-575 | a redeeming hit changes only hits (+ the number of cups) and shots (− 1); no list moves |
| App.RedemptionShotSpent | app.py:570-605 | every shot by the redeeming team spends exactly one shot; shots by the other team touch no counter |
| App.NormalHitPending | app.py:577-597 | a normal-phase hit appends each cup not already pending, and the counter becomes the pending length |
| App.RematchKeepsLists | app.py:399-409 | a rematch keeps both cup lists and both pendings, leaves `State.winner` unwritten, and resets counters, formats and flags |
| App.DeleteUpdatesFirst | app.py:737-750 | the state update runs before the redemption correction: deleting a hit by the redeeming team after its shots are spent, with the restored opponent still ahead, finishes the match and no correction follows |
| App.DeleteReturnsShot | app.py:737-750 | deleting a redeeming hit with shots left restores its cups and returns the shot |
| Stats.IsTrueMembership | app/main/stats_calculations.py:111-113 | `is_true` holds exactly for a cell that Python's `==` matches against 'Sì', 'Si', 'True', True or 1 |
| Stats.LastDate | app/main/stats_calculations.py:123 | the last date is one of the dates and no date is later |
| Stats.Trailing | app/main/stats_calculations.py:386-391 | the current run never exceeds the flags scanned |
| Stats.Longest | app/main/stats_calculations.py:386-391 | the best run is at least the current run and at most the flags scanned |
| Stats.TrailingRun | app/main/stats_calculations.py:386-391 | the current run is all set and is preceded by a clear flag |
| Stats.LongestWindow | app/main/stats_calculations.py:386-391 | the best run is the length of some window of consecutive set flags |
| Stats.LongestBound | app/main/stats_calculations.py:386-391 | no window of consecutive set flags is longer than the best run |
| Stats.TrailingCovers | app/main/stats_calculations.py:386-389 | the running counter covers every window of set flags that reaches the current flag |
| Stats.Marks | app/main/stats_calculations.py:380-386 | one flag per outcome: a true outcome on an accepted date |
| Stats.MaxStreak | app/main/stats_calculations.py:377-392 | `get_max_streaks` returns the longest run of true outcomes, and an outcome on another date breaks the run |
| Stats.StreakFilterNoLonger | app/main/stats_calculations.py:377-392 | a date filter never lengthens the streak, and no streak exceeds the list length |
| Stats.Hits | app/main/stats_calculations.py:140 | one hit flag per shot |
| Stats.Fails | app/main/stats_calculations.py:140 | one non-hit flag per shot, each the negation of the hit flag |
| Stats.OnDate | app/main/stats_calculations.py:153-154 | the last day's shots are a sub-list no longer than the shots |
| Stats.TrackShot | app/main/stats_calculations.py:144-151 | one step of the pair of streak counters keeps them tracking the hit and non-hit runs |
| Stats.SpecialStreaks | app/main/stats_calculations.py:139-168 | the four streaks are the longest hit and non-hit runs, over all shots and over the last day's shots |
| Stats.HitAndFailRunsDisjoint | app/main/stats_calculations.py:139-168 | the longest hit run plus the longest non-hit run never exceed the number of shots |
| Stats.DailyStreaksWithinDay | app/main/stats_calculations.py:153-168 | the daily streaks together are bounded by the last day's shots, which are bounded by all shots |
| Stats.Clutch | app/main/stats_calculations.py:171-178 | attempts and made count the rescue shots, and the rescue shots that hit, over the zipped columns |
| Stats.ClutchWithinAttempts | app/main/stats_calculations.py:173-178 | made ≤ attempts ≤ the pairs scanned |
| Stats.WinsJudged | app/main/stats_calculations.py:80-89 | every win id is an id already judged |
| Stats.NoteMatch | app/main/stats_calculations.py:80-89 | one step of the match-id bookkeeping keeps the match, judged and win sets current |
| Stats.CountDay | app/main/stats_calculations.py:68-89 | one pass counts the day's shots by kind, its match ids and its wins |
| Stats.DailyCounts | app/main/stats_calculations.py:31-108 | empty dates give all zeros; otherwise the counters count the last date's shots by kind, its distinct match ids, and the matches won, judged on their first shot with a result |
| Stats.DayPartition | app/main/stats_calculations.py:70-77 | centri + bordi + miss == totali |
| Stats.WinsWithinMatches | app/main/stats_calculations.py:80-92 | wins ≤ matches |
| Stats.OccurrencesBound | app/main/stats_calculations.py:475-483 | a match's shot count never exceeds the shots scanned |
| Stats.CountsOfOccurrences | app/main/stats_calculations.py:475-483 | the dictionary holds exactly the truthy ids seen, each mapped to its number of shots |
| Stats.DatesOfFirstShot | app/main/stats_calculations.py:478-481 | a match is dated exactly when its first shot has a date, and by that date |
| Stats.CountShots | app/main/stats_calculations.py:475-483 | shots per truthy match id, and each match dated by its first shot |
| Stats.MaxCount | app/main/stats_calculations.py:487-500 | the largest count among the admitted ids, attained by one of them, or 0 when none is admitted |
| Stats.ShotsPerMatch | app/main/stats_calculations.py:463-500 | counts per truthy id; the overall maximum; the maximum over matches dated on the last date; max_daily ≤ max_hist ≤ number of shots |
| Stats.Tags | app/main/stats_calculations.py:191-198 | one label per multi-hit cell |
| Stats.TagCount | app/main/stats_calculations.py:200-201 | a label's count never exceeds the cells scanned |
| Stats.CountTags | app/main/stats_calculations.py:190-201 | the dictionary holds exactly the labels that occur, each with its number of cells |
| Stats.MultiHitCounts | app/main/stats_calculations.py:183-201 | one counter per multi-hit label, bumped once per labelled cell; skipped cells count nowhere |
| Stats.LongDecimalNoKeyword | app/main/stats_calculations.py:184-193 | decimal text of two or more digits is neither skipped nor a plural name |
| Stats.CountText | app/main/stats_calculations.py:184-198 | "0" and "1" are skipped; "2" to "6" map to Doppi … Sestupli; larger numbers become "N-Hits" |
| Stats.MultiHitOfCount | app/main/stats_calculations.py:191-201 | an integer cell is labelled as its decimal text: skipped up to 1, plural names 2 to 6, "N-Hits" above |
| Stats.LiteralNoMultiHit | app/main/stats_calculations.py:192-198 | a boolean or empty cell is never counted |
| Stats.KeywordTextsUnlabelled | app/main/stats_calculations.py:192-198 | `True`, `False` and `None` normalize to themselves; `False` and `None` are skipped, and `True` is neither skipped, a plural name nor a number, so none gets a label |
| Stats.AttemptOf | app/main/stats_calculations.py:942-949 | a shot is an attempt only against 1 to 6 opposing cups |
| Stats.CupAttempts | app/main/stats_calculations.py:940-949 | one validated attempt per row |
| Stats.CupAttemptAt | app/main/stats_calculations.py:940-949 | row `j` of the attempts is row `j`'s cells validated |
| Stats.NothingTallied | app/main/stats_calculations.py:934-937 | before the loop each of the cup counts 1 to 6 stands at zero and no format has a row |
| Stats.TallyRow | app/main/stats_calculations.py:940-972 | one turn of the loop moves both tallies from the first `i` rows to the first `i + 1` |
| Stats.FormatsAreSkipped | app/main/stats_calculations.py:962-963 | a row without a format leaves every per-format tally as it was |
| Stats.FormatsAreTallied | app/main/stats_calculations.py:965-972 | a row with a format bumps that format's row, created at zero the first time, and no other |
| Stats.TallyGeneral | app/main/stats_calculations.py:955-957 | one step of the general tally keeps it current |
| Stats.TallyFormat | app/main/stats_calculations.py:960-972 | one step of the per-format tally keeps it current |
| Stats.SuccessByOppCups | app/main/stats_calculations.py:919-972 | the general tallies start at zero for 1..6 and count the attempts against each count of cups; the per-format tallies count each format's attempts |
| Stats.MadeWithinTaken | app/main/stats_calculations.py:955-972 | made ≤ taken, overall and per format |
| Stats.FormatWithinGeneral | app/main/stats_calculations.py:955-972 | a format's tally never exceeds the general tally |
| Stats.GeneralCoversCounted | app/main/stats_calculations.py:949-957 | the six general tallies add up to the number of counted shots |
| Stats.SeenFormatHasData | app/main/stats_calculations.py:967-1002 | every format with a key has some attempt, so the `has_data` filter never drops it |

## Left out

- Flask routing, forms, redirects, templates, session animation flags, `socketio.emit` and `db.session.commit` are left out. Form fields are method parameters, and a match row is a `MatchState.ActiveMatch` object.
- JSON encoding of cup lists is left out; lists are `seq<string>`. The `except` recovery paths that print and return (for example a corrupt JSON column) are not modelled.
- The clock is a `now: int` parameter for start and end times.
- The `Overkill_<timestamp>_i` placeholder uses one `stamp` string parameter for every placeholder of a shot, whereas `app/main/routes.py` line 874 reads the clock once per placeholder, so the placeholders of one shot may carry different stamps; no property depends on the stamp. `Routes.PlaceholderIsNoCup` proves a placeholder is never a catalogue cup.
- The record the routes write is left out, with its cup columns, `numero_bicchieri`, drink and notes. So are the early `VITTORIA (Overkill)` record of `app_OBSOLETE.py` and the database session that stores records. Only the match-row effects and the stored hit text used for points are modelled.
- The database queries are left out: `get_score_points`, `count_shots_in_match`, the history grouping, `stats_extraction.py`, per-player database sessions and the database viewer.
- The edit and delete routes receive the stored hit's cups as a list. Parsing the `bicchiere_colpito` text (split at commas, then strip) is left out there.
- `GetMatchInfo` takes the match rows in query order as a sequence, and returns an index into it and a team.
- `app.py` duplicates `init_cup_state` and `get_match_info` line for line from `databases.py`. The model does not restate them.
- `app.py` has no overtime mode, so `App.StartOvertime` leaves the mode alone.
- `mode` is kept as if it were a column of the match row. It is not one (`app/models.py` lines 55-93): `app/main/routes.py` sets it at lines 42 and 73 as a plain attribute that is never stored, so a reloaded row would not carry it; `databases.py` and `app.py` have no mode at all.
- `app.py` has no winner column: its `ActiveMatch` (lines 49-80) stores no `winning_team`, which only `databases.py` and `app/models.py` define. `State.winner` stands for nothing in that revision, and no `App` operation writes it; `App.FinishForgetsWinner` and `App.RematchKeepsLists` state that it is left as it was.
- `App.FinishMatch`: `app.py` `finish_match` accepts a winner argument and discards it. It is modelled as written.
- Stats.MaxStreak, Stats.Marks, Stats.SpecialStreaks, Stats.DailyCounts and Stats.SuccessByOppCups require the parallel columns to be at least as long as the column scanned. The source raises `IndexError` only when a row it actually reads lacks an entry in a parallel column; the model requires the full length, which its only caller in `stats_extraction.py` always provides, and does not cover that path.
- Floating point is left out: percentages, `safe_division`, `round()`, averages, rates, trends, partnerships, insights, heatmaps and position-by-cups statistics.
- A float cell in `cups_opp` is left out, because cells are strings, booleans, integers or `None`.
- `int()` accepts only ASCII digits with an optional sign and surrounding whitespace. Underscores and non-ASCII digits are not modelled.
- `strip`, `capitalize` and `isdigit` cover ASCII case and whitespace only.
- Python sets hash `True` and `1` alike. Match ids are `Option<int>`, so that case does not arise.
- Dictionary iteration order is not modelled. Only maxima and per-key counts are stated, and these do not depend on it.
- Concurrency is left out: each route runs as one sequential step.
- The JavaScript front end, authentication, data population, chart routes, manual overrides and application setup are left out.
