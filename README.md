# World Cup tournament simulator — a Dafny model of its core

This project models the Monte Carlo engine of the tournament predictor and
the checks its web API makes before running it:

- **Group stage** (`simulate_group_stage`). Every pair of a group meets
  once, in the nested-loop order. For each fixture the match predictor
  either has no data, and the match is skipped, or returns outcome
  frequencies and expected goals. One uniform draw then decides a home win,
  a draw or an away win. Points, wins, goal difference and goals for
  accumulate in a standings dictionary. The table is stably sorted on
  (points, goal difference, goals for), highest first.
- **Knockout match** (`simulate_knockout_match`). With no prediction the
  higher Elo rating wins; ratings default to 1500 and a tie goes to the
  second team. With a prediction, half of the draw frequency is added to
  the home side and one uniform draw decides.
- **Brackets.** The fixed 32-team pairing 1A-2B … 1H-2G. The 48-team
  pairing is built step by step: winners A-H meet their partner group's
  runner-up unless that team is already drawn, else the next of the eight
  best third-placed teams. Winners I-L meet fixed runners-up. Whatever
  remains is paired up, and at most 16 pairs are kept.
- **Third-place ranking.** The third-placed team of every group with more
  than two rows, stably sorted on (points, goal difference), highest first.
- **Trials** (`simulate_tournament`). Per trial: group stage, ranking,
  bracket, first round, then the rounds named after it and a final.
  Quarter-final winners count as semifinalists, semi-final winners as
  finalists, the final's winner as champion.
- **API** (`backend/main.py`).
  - The simulation endpoint checks the format, then the group count, then
    each group's size, each failing with a 400 error. It then runs the
    Monte Carlo simulation with `min(n_sims, 500)` trials and after it the
    deterministic bracket pass `predictor.simulate_deterministic_tournament`
    (backend/main.py:218-221). An exception in either pass is a 500 error.
    `backend/predictor.py` defines no `simulate_deterministic_tournament`,
    so as the code stands that call raises and every request that passes
    the checks ends in the 500 of backend/main.py:233-234. The model makes
    the outcome of that pass the parameter `bracketPass` of `Api.Handle`:
    false is the code as it stands (`Api.BracketPassRaises`), true is a
    predictor that has the method.
  - The preset endpoint accepts only `wc2022` and `wc2026`. Any other name
    is a 404 before anything is loaded, and so is a preset whose data
    files are missing.
- **Flags** (`backend/iso_codes.py`). `get_iso_code` takes the table entry
  or else the lowercased first two characters of the name. `get_flag_url`
  builds the flag CDN address from the code and a width.

The outside world enters as parameters. `Env.predict(a, b, k)` is the match
predictor, `Env.rng(k)` is the k-th draw of the shared uniform random
stream, and `Env.elo` is the Elo table. Every operation takes a stream
position `k` and returns the position after its own draws, so the order
in which draws are consumed is part of each contract.

Counters are multisets of team names: a team's count is its multiplicity
and the sum of a counter's values is its size. Python's stable `sorted`
and `list.sort` are one stable insertion sort, `Sorting.SortBy`. It is
proved to return a permutation, to be ordered, and to keep the input
order of equal keys. A Python exception (`KeyError`, `IndexError`) is
`None`.

Loops are methods proved equal to the functions that specify them:
- `GroupStage.SimulateGroup`, `GroupStage.SimulateGroupStage`
- `Brackets.DrawFront`, `Brackets.PairUp`
- `Tournament.CollectThirds`, `Tournament.PlayRound`, `Tournament.RunTrials`,
  `Tournament.SimulateTournament`

The lemmas state what the simulator promises about those functions.

Consequences of the code as written that its comments and docstrings do
not announce:
- A 32-team trial credits two semifinalists, one finalist and no
  champion (`Complete.Simulation32`). Its bracket of backend/predictor.py:282-296
  already is the round of 16, yet the loop at backend/predictor.py:435-447
  still plays "Round of 16", "Quarter Finals" and "Semi Finals" after it.
  So the semifinalist credit of line 442 lands on the round of four, the
  finalist credit of line 444 on the round of two, and the final at lines
  449-452 never fires, since one team is left. The 48-team path credits
  four, two and one per trial (`Complete.Simulation48`).
- `min(n_sims, 500)` at backend/main.py:214 has no lower bound: a
  non-positive count runs no trial and returns empty counters
  (`Api.NoTrials`).
- Third-placed teams are ranked on (points, goal difference) only
  (backend/predictor.py:412). Ties keep the groups' order.
- A group match is decided by one uniform draw against the predicted
  frequencies (backend/predictor.py:227-246), not by sampling goals; the
  expected goals are added as they are.

## Model

| member | source | states |
|---|---|---|
| `GroupStage.Decide` | backend/predictor.py:227-246 | a home win exactly when the draw is below the home-win frequency, a draw exactly when it lies in the next band of width `draw` |
| `GroupStage.RecordScoring` | backend/predictor.py:227-246 | the full scoring table: 3 points and a win to the winner, 1 point each for a draw, goals for from the expected goals, goal difference moved by the expected-goal margin on a decided match and untouched on a draw; no other team changes |
| `GroupStage.Record` | backend/predictor.py:227-246 | scoring a match keeps the standings' set of teams |
| `GroupStage.PlayFixture` | backend/predictor.py:221-246 | a fixture, skipped or played, keeps the standings' set of teams |
| `GroupStage.PlayMatch` | backend/predictor.py:221-246 | the in-place update of one fixture equals `PlayFixture`: no draw consumed when the predictor has no data, one draw otherwise |
| `GroupStage.Row` | backend/predictor.py:219-220 | the inner loop pairs `teams[i]` with each later team, in order |
| `GroupStage.PlayAll` | backend/predictor.py:219-246 | playing a list of fixtures keeps the standings' set of teams |
| `GroupStage.PlayAllCursor` | backend/predictor.py:221-227 | a group consumes at most one draw per fixture |
| `GroupStage.PlayRow` | backend/predictor.py:220-246 | the inner loop over row `i` extends the fixtures played by exactly that row |
| `GroupStage.FixturesExactlyOnce` | backend/predictor.py:219-220 | the round robin has n(n-1)/2 fixtures; a pair is a fixture exactly when its first team comes earlier in the group; with distinct teams no fixture repeats and no pair meets in both orientations |
| `GroupStage.FourTeamsSixFixtures` | backend/predictor.py:219-220 | a group of four plays six matches |
| `GroupStage.DistinctMembers` | backend/predictor.py:216 | the standings dictionary has one entry per distinct team, in first-occurrence order, and is the team list itself when no team repeats |
| `GroupStage.RecordSelf` | backend/predictor.py:227-246 | a team listed twice meets itself, and the two updates of the same entry add up to the whole swing of the match |
| `GroupStage.RecordSums` | backend/predictor.py:227-246 | one match, also one of a team against itself, changes the group's summed statistics by a fixed swing: goal difference sums to zero, points grow by 3 or 2 |
| `GroupStage.PlayAllSums` | backend/predictor.py:219-246 | over any fixtures, repeated teams included: total goal difference unchanged, points gained = wins gained + 2 × matches played, wins gained between 0 and matches played |
| `GroupStage.GroupTableSums` | backend/predictor.py:215-254 | for any team list, repeats included, a group's table has goal differences summing to zero, total points = total wins + 2 × matches played, and at most one win per match played |
| `GroupStage.Entries` | backend/predictor.py:249-250 | the dictionary's items are one row per team |
| `GroupStage.EntriesTeams` | backend/predictor.py:249-250 | the items list the teams in the dictionary's order |
| `GroupStage.SortSum` | backend/predictor.py:249-253 | sorting the table keeps its totals |
| `GroupStage.AheadTotalPreorder` | backend/predictor.py:249-253 | the sort key (points, gd, gf) compared lexicographically is total and transitive |
| `GroupStage.GroupTableFacts` | backend/predictor.py:215-254 | a group's table lists each distinct team once, is ordered best first, and consumes at most one draw per fixture |
| `GroupStage.GroupTableStable` | backend/predictor.py:249-253 | teams with equal (points, gd, gf) keep the dictionary's order |
| `GroupStage.Ahead` | backend/predictor.py:249-253 | the sort key: (points, gd, gf) compared lexicographically, highest first |
| `GroupStage.GroupTable` | backend/predictor.py:215-254 | one group: the standings dictionary of its distinct teams, the round robin played on it, its items stably sorted by `Ahead`; the stream position after the group's draws |
| `GroupStage.Stage` | backend/predictor.py:213-256 | `simulate_group_stage`: `GroupTable` for every group in the dictionary's order, one shared stream |
| `GroupStage.SimulateGroup` | backend/predictor.py:215-254 | the loops of one group compute `GroupTable`: a permutation of the distinct teams, ordered best first, within the fixture count of draws |
| `GroupStage.SimulateGroupStage` | backend/predictor.py:213-256 | the loop over groups computes `Stage`, the groups sharing one stream in order |
| `GroupStage.StageResolved` | backend/predictor.py:213-256 | every group is reported under its own label with a table of its own teams, each once, best first, in the groups' order |
| `Sorting.SortBy` | backend/predictor.py:249-253 | Python's stable sort with `reverse=True`, as an insertion sort: the head goes into the sorted rest in front of the first element it may stand before, so equal keys keep their input order |
| `Sorting.SortByPermutes` | backend/predictor.py:249-253 | the sort returns a rearrangement of its input |
| `Sorting.SortByOrdered` | backend/predictor.py:249-253 | the sort's output is ordered by the key, highest first |
| `Sorting.SortByStable` | backend/predictor.py:249-253 | elements with equal keys keep their input order (Python's stable sort, also with `reverse=True`) |
| `Sorting.SortByProjectPermutes` | backend/predictor.py:249-253 | the sorted table's team names are a rearrangement of the unsorted ones |
| `Knockout.Rating` | backend/predictor.py:264 | `elo_ratings.get(team, 1500)` |
| `Knockout.KnockoutWinner` | backend/predictor.py:258-272 | the winner is one of the two teams; without a prediction no draw is consumed and the strictly higher Elo rating (default 1500) wins, else the second team; with one, one draw is consumed and the home team wins exactly when it is below home-win + draw/2 |
| `Knockout.EloFallbackOrder` | backend/predictor.py:262-264 | the Elo fallback does not depend on the order of the teams unless their ratings are equal, when the second-named team wins |
| `Knockout.KnockoutRefinesGroupOutcome` | backend/predictor.py:266-272 | a draw that would be a home win in the group stage wins the knockout match for the home team, an away win for the away team |
| `Knockout.PlayPairs` | backend/predictor.py:421-424 | one winner per pair, each from its own pair, at most one draw per pair |
| `Knockout.PlayPairsAppend` | backend/predictor.py:421-424 | playing two lists of pairs in turn is playing their concatenation |
| `Common.AdjacentShape` | backend/predictor.py:437-440 | the `range(0, len, 2)` loop pairs positions 2m and 2m+1 and makes len/2 pairs |
| `Common.AdjacentDropLast` | backend/predictor.py:437-438 | a trailing odd team is left out |
| `Common.FlattenAdjacent` | backend/predictor.py:361-363 | the paired teams are the remaining list up to its even-length prefix |
| `Brackets.Tables` | backend/predictor.py:309-310 | the results dictionary: each label maps to the table of its last entry |
| `Brackets.TablesKeys` | backend/predictor.py:309-310 | the group labels are exactly the dictionary's keys |
| `Brackets.Bracket32` | backend/predictor.py:274-296 | the 32-team bracket has eight pairs |
| `Brackets.Pairing32Slots` | backend/predictor.py:284-294 | each pairing matches a group winner against another group's runner-up |
| `Brackets.Bracket32Fails` | backend/predictor.py:274-296 | the builder raises exactly when some group of A to H is missing or has fewer than two rows |
| `Brackets.Bracket32Slots` | backend/predictor.py:284-294 | pair m is the winner of group `WinnerSlot32[m]` against the runner-up of group `RunnerSlot32[m]` |
| `Brackets.Bracket32Halves` | backend/predictor.py:284-294 | the left half holds the winners of A, C, E, G and the runners-up of B, D, F, H; the right half the others |
| `Brackets.Bracket32Covers` | backend/predictor.py:274-296 | all eight group winners and all eight runners-up play, each exactly once |
| `Brackets.ThirdAheadTotalPreorder` | backend/predictor.py:412 | the third-place key (points, gd) is total and transitive |
| `Brackets.TopThirds` | backend/predictor.py:313 | at most eight third-placed teams take part |
| `Brackets.ThirdRanking` | backend/predictor.py:410-413 | the ranking is a rearrangement of the candidates, ordered highest first; every team taken ranks at least as high as every team left out; equal keys keep the groups' order |
| `Brackets.LabelLeTotal` | backend/predictor.py:355 | string order on group labels is total |
| `Brackets.LabelLeTransitive` | backend/predictor.py:355 | string order on group labels is transitive |
| `Brackets.LabelLeAntisymmetric` | backend/predictor.py:355 | string order on group labels is antisymmetric |
| `Brackets.SortedLabels` | backend/predictor.py:355 | `sorted(group_results.keys())` lists every label once, in ascending order |
| `Brackets.Unused` | backend/predictor.py:355-357 | the filter keeps exactly the teams not yet drawn |
| `Brackets.Bracket48Pairs` | backend/predictor.py:298-366 | the 48-team builder never returns more than 16 pairs |
| `Brackets.Raises48` | backend/predictor.py:309-350 | the 48-team builder raises exactly when some table has fewer than two rows (lines 309-310) or one of the labels A to L is missing (lines 323-350) |
| `Brackets.Place` | backend/predictor.py:321-344 | one winner of A to H: against its partner's runner-up when that team is not yet drawn, else against the next third-placed team while any is left, else no pair |
| `Brackets.Front` | backend/predictor.py:320-344 | the two loops: `Place` for the winners of A to H in order, partners B, A, D, C, F, E, H, G |
| `Brackets.FixedPairs` | backend/predictor.py:347-350 | matches 9-12: 1I-2J, 1J-2I, 1K-2L, 1L-2K |
| `Brackets.DrawnMembers` | backend/predictor.py:315-326 | the set of drawn teams is exactly the teams of the pairs so far |
| `Brackets.PlaceFacts` | backend/predictor.py:323-331 | a winner of A to H adds no pair, a pair against the runner-up, or a pair against the next third-placed team, advancing the cursor by one |
| `Brackets.FrontFacts` | backend/predictor.py:320-344 | after the winners of A to H the drawn set matches the pairs, there are at most eight pairs, and every opponent is a runner-up or a third-placed team taken in order |
| `Brackets.Bracket48Entrants` | backend/predictor.py:298-366 | every team in the 48-team bracket is a group winner, a runner-up or one of the best eight third-placed teams |
| `Brackets.FrontExact` | backend/predictor.py:320-344 | with 32 distinct qualifiers every winner of A to H meets its partner group's runner-up and no third-placed team is used |
| `Brackets.FixedIsCross` | backend/predictor.py:346-352 | matches 9-12 are 1I-2J, 1J-2I, 1K-2L, 1L-2K |
| `Brackets.RemainingIsThirds` | backend/predictor.py:354-363 | with distinct qualifiers the teams left over are exactly the eight best third-placed teams, in ranking order |
| `Brackets.CrossDraw` | backend/predictor.py:298-366 | with distinct qualifiers the draw is twelve winner/runner-up crossings followed by the thirds paired in ranking order: 16 pairs, no team twice |
| `Brackets.Bracket48Exact` | backend/predictor.py:298-366 | with distinct qualifiers and all groups A to L, the 48-team bracket has 16 pairs, each of the 32 qualifiers exactly once |
| `Brackets.DrawFront` | backend/predictor.py:320-344 | the two loops over the winners of A to H build `Front`, updating the pairs, the drawn set and the third-place cursor in place |
| `Brackets.PairUp` | backend/predictor.py:359-363 | the pairing loop appends the remaining teams paired in order |
| `Brackets.Bracket48` | backend/predictor.py:298-366 | the builder raises exactly when a table has fewer than two rows or a group of A to L is missing, and otherwise returns `Bracket48Pairs` |
| `Brackets.Draw48` | backend/predictor.py:298-366 | the builder's statements compute `Bracket48Pairs` |
| `Tournament.Thirds` | backend/predictor.py:400-408 | the third-placed entry (team, points, gd, label) of every group with more than two rows, in group order |
| `Tournament.Ranked` | backend/predictor.py:400-413 | the 48-team format ranks `Thirds` by (points, gd), stably, highest first; the 32-team format collects none |
| `Tournament.Bracket` | backend/predictor.py:414-418 | the 32-team builder for "32_team", the 48-team builder for any other format |
| `Tournament.Credit` | backend/predictor.py:442-445 | a winner of a round labelled "Quarter Finals" counts as semifinalist, of "Semi Finals" as finalist |
| `Tournament.Rounds` | backend/predictor.py:435-447 | the labelled rounds in order, each playing neighbouring teams and crediting its winners |
| `Tournament.Final` | backend/predictor.py:449-452 | with at least two teams left the first two play, and the winner counts as champion |
| `Tournament.Trial` | backend/predictor.py:396-452 | one trial: group stage, ranking, bracket (or the exception), first round, rounds, final |
| `Tournament.Trials` | backend/predictor.py:395-452 | `count` trials in turn, the first failure ending them |
| `Tournament.Simulation` | backend/predictor.py:368-459 | `simulate_tournament`: `max(n, 0)` trials from empty counters, reported with the requested `n` |
| `Tournament.CollectThirds` | backend/predictor.py:400-408 | the loop collects `Thirds`, or nothing in the 32-team format |
| `Tournament.ThirdsMembers` | backend/predictor.py:400-408 | a third-placed entry exists exactly for the groups with more than two rows, and is that group's third row |
| `Tournament.ThirdsFull` | backend/predictor.py:400-408 | when every table has three rows each group contributes its third row, in group order |
| `Tournament.RoundNames` | backend/predictor.py:427-435 | both formats play the rounds labelled "Round of 16", "Quarter Finals", "Semi Finals" after the first round |
| `Tournament.CreditSnoc` | backend/predictor.py:442-445 | each further winner is credited as semifinalist after a quarter final and as finalist after a semi final, and nowhere else |
| `Tournament.PlayRound` | backend/predictor.py:436-447 | one round plays neighbouring teams and credits its winners as the round's label says |
| `Tournament.PlayRounds` | backend/predictor.py:435-447 | the round loop computes `Rounds` |
| `Tournament.RunTrial` | backend/predictor.py:396-452 | one iteration of the trial loop computes `Trial`, or fails where a bracket builder raises |
| `Tournament.NextTrial` | backend/predictor.py:395-452 | running one more trial from the state after `count` trials gives the state after `count + 1` |
| `Tournament.RunTrials` | backend/predictor.py:395-452 | the trial loop computes `Trials` |
| `Tournament.SimulateTournament` | backend/predictor.py:368-459 | `simulate_tournament` computes `Simulation` |
| `Outcomes.WinnersWithin` | backend/predictor.py:421-424 | the first round's winners are drawn from the bracket's teams |
| `Outcomes.RoundHalves` | backend/predictor.py:436-447 | a round halves the number of teams, rounding down, and its winners come from the teams it played |
| `Outcomes.LaterShape` | backend/predictor.py:435-447 | after the first round, the quarter-final and semi-final winners number a quarter and an eighth of it, each round's winners drawn from the round before |
| `Outcomes.RoundsCredit` | backend/predictor.py:435-447 | the rounds add the same gain to any counters they start from |
| `Outcomes.FinalAdds` | backend/predictor.py:449-452 | the final adds the same gain to any counters it starts from |
| `Outcomes.FinalChampion` | backend/predictor.py:449-452 | the final credits one champion, from the teams left, exactly when at least two are left, and touches no other counter |
| `Outcomes.KnockoutAdds` | backend/predictor.py:420-452 | a trial's knockout stage adds a gain independent of the counters so far |
| `Outcomes.KnockoutCounts` | backend/predictor.py:420-452 | for a bracket of p pairs the gain is p/4 semifinalists, p/8 finalists and one champion when p/8 ≥ 2; champions ⊆ finalists ⊆ semifinalists ⊆ the bracket's teams |
| `Outcomes.StageShape` | backend/predictor.py:213-256 | the group stage reports every group, in order, under its label, with one row per distinct team |
| `Outcomes.TablesAlike` | backend/predictor.py:309-310 | group stages over the same groups give the same labels with tables of the same sizes |
| `Outcomes.BracketFailsAlike` | backend/predictor.py:414-418 | whether the bracket builder raises depends only on the labels and table sizes, not on the results |
| `Outcomes.TrialFailsAlike` | backend/predictor.py:395-418 | whether a trial raises does not depend on the predictor, the stream or the counters |
| `Outcomes.TrialsFail` | backend/predictor.py:395-418 | the trials fail exactly when at least one is run and the first one fails |
| `Outcomes.SimulationFails` | backend/predictor.py:368-459 | the simulation fails exactly when the trial count is positive and a trial raises |
| `Outcomes.TrialCounts` | backend/predictor.py:395-452 | for a bracket of a known size every trial succeeds and adds size/4 semifinalists, size/8 finalists and the champion rule's count |
| `Outcomes.TrialsCount` | backend/predictor.py:395-452 | after `count` trials each counter's total is `count` times the per-trial gain |
| `Outcomes.ReportedTrials` | backend/predictor.py:454-459 | the reported `n_sims` is the requested trial count |
| `Complete.LetteredTables` | backend/predictor.py:213-256 | for groups whose labels are a rearrangement of the expected ones, each with four distinct teams, the results dictionary has exactly those labels, each holding a four-row table, every group reported under its own label |
| `Complete.StageSeeded32` | backend/predictor.py:213-256 | groups A to H in any order seed every group A to H with at least two rows |
| `Complete.Complete32Round` | backend/predictor.py:274-296 | a complete 32-team draw, in any group order, never makes the builder raise and yields eight pairs |
| `Complete.TableOfGroup` | backend/predictor.py:215-254 | a table of a group of distinct teams lists each team once and only the group's teams |
| `Complete.CompleteCells` | backend/predictor.py:213-256 | when no team is in two groups, no team stands in two places of the tables |
| `Complete.ThirdsDistinct` | backend/predictor.py:400-408 | third-placed entries of different groups differ |
| `Complete.ThirdGroups` | backend/predictor.py:400-413 | each of the eight best third-placed teams is the third row of its own, different group |
| `Complete.LabelPositions` | backend/predictor.py:309-310 | with groups A to L in any order, the dictionary holds exactly those labels, each the table of its own group, twelve different groups |
| `Complete.ColumnsCells` | backend/predictor.py:309-310 | the winners and runners-up dictionaries hold the first and second rows of the tables, and the builder's lookups succeed |
| `Complete.SeedsDistinct` | backend/predictor.py:309-313 | winners, runners-up and the eight best third-placed teams are 32 different teams |
| `Complete.Complete48Round` | backend/predictor.py:298-366 | a complete 48-team draw, in any group order, yields a 16-pair bracket in every trial |
| `Complete.Bracket48Full` | backend/predictor.py:298-366 | for such a draw the bracket has 16 pairs and no team twice |
| `Complete.Bracket48Seeded` | backend/predictor.py:298-366 | a builder that does not raise, with eight ranked third-placed teams and 32 different seeds, returns 16 pairs of 32 different teams |
| `Complete.Simulation48` | backend/predictor.py:368-459 | a complete 48-team draw credits 4 semifinalists, 2 finalists and 1 champion per trial and reports the trial count |
| `Complete.Simulation32` | backend/predictor.py:368-459 | a complete 32-team draw credits 2 semifinalists, 1 finalist and no champion per trial |
| `Api.FirstBadGroup` | backend/main.py:203-208 | the first group, in request order, not of size four; none exactly when all have four teams |
| `Api.WellFormed` | backend/main.py:187-208 | a request passing the checks: a known format, 8 or 12 groups to match, four teams each |
| `Api.Validate` | backend/main.py:187-208 | a request is rejected exactly when it is not well-formed (known format, 8 or 12 groups to match, four teams each), always with status 400 |
| `Api.TrialCount` | backend/main.py:214 | the trial count is capped at 500 and left alone up to 500 |
| `Api.Handle` | backend/main.py:178-234 | the simulation endpoint: a 400 only for a request that is not well-formed; a 500 only when the Monte Carlo simulation or the deterministic pass raises; counters only when both return, and then they are the simulation's |
| `Api.BracketPassRaises` | backend/main.py:217-234 | with the deterministic pass raising, as `predictor.py` makes it, every request that passes the checks gets a 500 |
| `Api.ValidationOrder` | backend/main.py:187-208 | the format is checked first, the group count second, and the first group of the wrong size is the one reported |
| `Api.RejectedBeforeSimulation` | backend/main.py:186-221 | a rejected request is answered without consulting the predictor, the stream or the deterministic pass, and a well-formed one is never rejected |
| `Api.TrialsCapped` | backend/main.py:211-228 | an accepted simulation reports `min(n_sims, 500)` trials |
| `Api.NoTrials` | backend/main.py:211-234 | a well-formed request with `n_sims ≤ 0` gets empty counters once the deterministic pass returns, a 500 otherwise |
| `Api.Accepted48` | backend/main.py:186-234 | a complete 48-team request, groups in any order, passes the checks and the simulation never raises; the answer is its counters, 4/2/1 credits per capped trial, when the deterministic pass returns, and a 500 otherwise |
| `Api.Accepted32` | backend/main.py:186-234 | a complete 32-team request, groups in any order, likewise, with 2/1/0 credits per capped trial |
| `Api.DetailsReportCounts` | backend/main.py:196-208 | the count and size errors end with the actual number, which reads back |
| `Api.GetPreset` | backend/main.py:239-267 | a 404 for a name other than `wc2022`/`wc2026` or for missing data; the loaded data exactly when the name is valid and the loader finds it |
| `Api.PresetNames` | backend/main.py:247-261 | only `wc2022` and `wc2026` pass the name check; any other name is a 404 naming it, decided before and independently of loading |
| `Text.IntToStringRoundTrip` | backend/iso_codes.py:118 | the decimal rendering of an integer reads back as that integer and contains no '/' |
| `IsoCodes.Lower` | backend/iso_codes.py:113 | lowering keeps the length and maps each character |
| `IsoCodes.IsoCode` | backend/iso_codes.py:111-113 | a listed name gets its table entry; any other name the lowercased first two characters (fewer for a shorter name) |
| `IsoCodes.UnknownNameCode` | backend/iso_codes.py:111-113 | a fallback code has at most two characters, none uppercase, and is empty only for the empty name |
| `IsoCodes.FallbackIsLoweredPrefix` | backend/iso_codes.py:113 | the fallback is `name.lower()[:2]` |
| `IsoCodes.FlagUrl` | backend/iso_codes.py:115-118 | the address starts with the CDN prefix and ends in ".png" |
| `IsoCodes.FlagUrlRoundTrip` | backend/iso_codes.py:115-118 | the width and the ISO code can be read back from the address |
| `IsoCodes.FlagUrlDefaultWidth` | backend/iso_codes.py:115-118 | the default address is `https://flagcdn.com/w80/<code>.png` |
| `IsoCodes.AmericanAliases` | backend/iso_codes.py:105-106 | "USA" and "United States" share a code, as do "Czechia" and "Czech Republic" |
| `IsoCodes.KoreanAndIrishAliases` | backend/iso_codes.py:105 | "Korea Republic" and "South Korea" share a code, as do "Republic of Ireland" and "Ireland" |
| `IsoCodes.IvorianAndTurkishAliases` | backend/iso_codes.py:106 | "Cote d'Ivoire" and "Ivory Coast" share a code, as do "Türkiye" and "Turkey" |
| `IsoCodes.AccentAndRenamedAliases` | backend/iso_codes.py:107 | "Curacao" and "Curaçao" share a code |

## Left out

- The match predictor's internals (Poisson sampling, the trained models, the `n_sims` it is given): the predictor is the parameter `Env.predict`, which sees the stream position its own sampling starts from.
- The random number generator: `Env.rng` is an arbitrary stream of reals, and how many draws the predictor itself consumes is not modelled.
- Floating point: probabilities, expected goals and Elo ratings are reals, so rounding is not modelled.
- `str.lower` is modelled on ASCII letters only; other characters are kept as they are.
- The ISO table holds a selection of the source's entries (the aliases, their canonical names, the British home nations and a few others), not all of them; a name left out of it takes the fallback code here.
- Dictionaries are sequences: the groups dictionary is a list of labelled groups in insertion order, and a repeated label is looked up as its last entry, as dictionary assignment leaves it.
- `simulate_deterministic_tournament` is not part of this model: `backend/predictor.py` does not define it, so only whether the call returns is modelled (the parameter `bracketPass` of `Api.Handle`), and the `group_results` and `bracket` fields of the response that would come from it are left out.
- `load_preset`, the `PresetResponse` construction and its 500 error: the loader is the parameter `load`.
- The text of the 500 errors (`"Simulation failed: ..."`) and the rest of the web framework (request parsing, CORS, the other endpoints).
- The stream position after a request is part of `Simulation`'s result but not of the API response.
- `Tournament.PlayRound` stops before the last index of an odd-length round, where the source's loop body does nothing.
- `Tournament.SimulateTournament`: the counter totals are proved only for complete draws (`Complete.Simulation48`, `Complete.Simulation32`); for other draws the contract is equality with `Simulation`, plus the failure lemmas.
- `Brackets.Bracket48Pairs`: its own contract bounds the length only; the exact pairing is proved for distinct qualifiers (`Brackets.Bracket48Exact`), while draws with a team in two groups follow the step-by-step definition without a closed form.
- `GroupStage.Record` and `GroupStage.PlayFixture`: their own contracts state only that the set of teams is kept; the scoring is stated by `GroupStage.RecordScoring` and the sums lemmas.
