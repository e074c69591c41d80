# RiftMind draft engine — a Dafny model

RiftMind is a League of Legends draft assistant. Two teams, blue and red, fill twenty slots
(bans and picks) in a fixed order. As they do, the client:

- scores the draft with a heuristic: a blue win probability, an insight line and up to three red
  "threats";
- recommends up to three champions for the slot being edited;
- shows patch statistics, which a seeded mock "GRID" stats provider derives from champion ids.

A Python backend can answer the same analysis request. When it cannot be reached, the client
builds an equivalent answer from its local heuristic.

This project models that core in Dafny:

| module | file | models |
|---|---|---|
| `Types` | `types.dfy` | the draft phases and turn order, champions, slots, recommendations, patch rows |
| `Text` | `text.dfy` | ASCII lower-casing, substring search, decimal rendering, `join` and the first word of a string |
| `Ranking` | `ranking.dfy` | the stable descending sort used by every `.sort`/`sorted`, both as a function and as an in-place insertion sort on an array |
| `GridService` | `grid_service.dfy` | the mock stats provider, the patch table, and the heuristic analysis with its loops |
| `Recommendations` | `recommendations.dfy` | the three branches of the smart recommendations |
| `App` | `app.dfy` | the draft board: a class whose methods are the board's handlers |
| `Api` | `api.dfy` | the four id lists of the analysis request and the offline fallback response |
| `Engine` | `engine.dfy` | the backend's stat lookup, the synergy sum, next-pick prediction and pocket-pick alerts |

Conventions:

- **Imperative and functional layers.**
  - Where the source works step by step, the model is a method with loops. Examples: accumulating
    scores in `forEach`, mutating one candidate's `score`/`type`/`reason`, sorting in place,
    appending in `for` loops, and the board's handlers.
  - Each such method is proved equal to a specification function. The properties the source promises
    are proved about that function.
- **Catalog.** The champion catalog and the initial board are parameters (`constants.ts` is not part
  of this model).
  - The initial board has no active slot: `App.DraftBoard`'s constructor requires it, because
    `getInitialDraftSlots` is not part of this model and every slot it builds starts inactive.
  - Champion ids are non-empty, because the mock stats read the id's first character code.
  - Patch rows also need a non-empty role list, because they read `roles[0]`.
- **Randomness** is injected:
  - `Math.random()` in the counter branch becomes a sequence `jitter` of offsets in 0..8, one per
    recommendation.
  - `random.randint(60, 95)` in the backend becomes a sequence `draws` of values in 60..95, one per
    untaken candidate in list order.
- **Sorts.** JavaScript's `Array.prototype.sort` and Python's `sorted(..., reverse=True)` are both
  stable. `Ranking.SortDesc` is a stable descending insertion sort, proved sorted, a permutation and
  order-preserving among equal keys.

Where the code and its comments differ, the model follows the code:

- The mock win rate is `48 + seed % 7`, i.e. 48..54 (services/gridService.ts:27). The comment
  beside it says "48-55%".
- Recommendation scores are commented as 0–100 (types.ts:32). The code only caps the contextual
  score at 99. `Recommendations.Smart` proves every score lies in 18..99 anyway.

A board with one blue pick `x` and one red pick `y`, where `x` counters `y` and `y` does not counter
`x`, gets the probability `54 + wr(x) - wr(y)` (services/gridService.ts:105-132). Every further pick
adds its own win-rate offset, so the formula holds for this one-pick-a-side board only. With mock win rates in 48..54 that lies in
48..60, so it can fall below 50. `GridService.SingleCounterMatchup` states this value; it is 54 when
the two win rates are equal.

## Model

| member | source | states |
|---|---|---|
| `Types.Ordinal` | types.ts:2-8 | the 21 phases are numbered 0..20, and 20 is exactly `COMPLETE` |
| `Types.TurnOf` | types.ts:2-8 | every phase but `COMPLETE` is a turn (team and kind); `COMPLETE` is none |
| `Types.DraftOrderIsEnumOrder` | types.ts:2-7 | the draft order lists the 21 phases in enum order, every one of the first 20 is a turn, and `COMPLETE` is last |
| `Types.TurnPositions` | types.ts:3-6 | the positions of each team's bans and picks are exactly B,R,B,R,B,R / B,R,R,B,B,R / R,B,R,B / R,B,B,R |
| `Types.FivePicksFiveBansEach` | types.ts:3-6 | each of the four (team, kind) turns occurs exactly five times |
| `Types.Opponent` | services/gridService.ts:219 | the enemy team is never the slot's own team |
| `Types.FilledOf` | services/gridService.ts:95-96 | the champions of filled slots of one team and kind, each coming from such a slot |
| `Types.FilledOfComplete` | services/gridService.ts:95-96 | every filled slot of that team and kind contributes its champion |
| `Types.FilledOfNone` | services/gridService.ts:95-96 | with no filled slot of that team and kind, the list is empty |
| `Types.FilledOfUpdate` | services/gridService.ts:95-96 | changing a slot that is not (and does not become) a filled slot of that team and kind leaves the list unchanged |
| `Types.UsedIds` | services/gridService.ts:167 | exactly the ids of champions in filled slots, picks and bans |
| `Types.IdsOf` | services/api.ts:25-28 | the ids of the champions, in order |
| `Text.Lower` | App.tsx:124 | same length; each ASCII capital becomes its lower-case letter (code + 32) and every other character is kept |
| `Text.FirstWord` | services/api.ts:67 | a prefix with no space that is the whole string or is followed by a space |
| `Text.FirstWordOfSpaced` | services/api.ts:67 | the first word of `w + " " + rest` is `w` when `w` has no space |
| `Text.NatToString` | services/gridService.ts:180 | the decimal rendering of a whole number: non-empty, only digits, and a leading zero only for 0 |
| `Text.ParseNatToString` | services/gridService.ts:257 | reading the rendered digits back gives the number, so the rendering loses nothing |
| `Text.JoinShape` | services/gridService.ts:240 | `join` of no parts is empty; otherwise it starts with the first part and its length is the parts' lengths plus one separator between each two neighbours |
| `Text.JoinAppend` | services/gridService.ts:240 | joining one more part appends the separator and that part |
| `Text.JoinContains` | services/gridService.ts:240 | every part occurs in the joined string |
| `Ranking.InsertSorted` | services/gridService.ts:57 | inserting into a descending list keeps it descending and adds exactly the new element |
| `Ranking.SortDescSorted` | services/gridService.ts:57 | the sort result is descending and a permutation of its input |
| `Ranking.SortDescStable` | services/gridService.ts:57 | among equal keys the sort keeps input order |
| `Ranking.SortDescItems` | services/gridService.ts:57 | the sorted items are a permutation of the input items |
| `Ranking.TopItemsSubMultiset` | services/gridService.ts:174-175 | the first n sorted items are a sub-multiset of the input items: nothing is kept more often than it occurs |
| `Ranking.MapSubMultiset` | services/gridService.ts:174-175 | mapping the kept items keeps them a sub-multiset of the mapped input |
| `Ranking.DistinctSub` | backend/riftmind_engine.py:106 | a sub-multiset of a list without repeats has no repeats |
| `Ranking.TopOfSortDesc` | services/gridService.ts:174-175 | an element with a key above the last kept key is among the first n |
| `Ranking.TopItemsOfSortDesc` | services/gridService.ts:174-175 | the same for the items |
| `Ranking.TakeSortDescFrom` | services/gridService.ts:174-175 | every element of the first n of the sort comes from the input |
| `Ranking.InsertCount` | services/gridService.ts:57 | inserting adds exactly the new element |
| `Ranking.OpenGap` | services/gridService.ts:57 | the shifting loop moves every smaller key of the prefix one place right and leaves a gap where every earlier key is at least the new one and every later key is below it |
| `Ranking.InsertInto` | services/gridService.ts:57 | one insertion step in place: the prefix becomes the sorted insertion, the rest is unchanged |
| `Ranking.SortInPlace` | services/gridService.ts:57 | the array's new contents are the stable descending sort of its old contents |
| `Ranking.SortedCopy` | backend/riftmind_engine.py:106 | the result is sorted descending and a permutation of the input |
| `GridService.MockStats` | services/gridService.ts:24-29 | the row is keyed by the id; win rate 48..54, pick rate 5..24, games played over 100 and a multiple of 10 |
| `GridService.MockWinRateRange` | services/gridService.ts:27 | every win rate from 48 to 54 is reached by some id |
| `GridService.MockGridResponse` | services/gridService.ts:20-33 | the record has exactly the queried ids as keys, each mapped to its mock stats |
| `GridService.PatchWinRate` | services/gridService.ts:41-42 | the patch win rate lies in 46..55 |
| `GridService.TierFor` | services/gridService.ts:44-47 | S iff wr > 53, A iff 51 < wr <= 53, B iff 48 <= wr <= 51, D iff wr < 48; never C |
| `GridService.PatchRow` | services/gridService.ts:49-56 | name and first role from the champion, tier agrees with the win rate, pick rate 2..16, ban rate 1..30 |
| `GridService.PatchRows` | services/gridService.ts:40-56 | one row per catalog champion, in catalog order |
| `GridService.SortedPatchRows` | services/gridService.ts:57 | after sorting, every key is its row's win rate and every tier agrees with it |
| `GridService.GetPatchData` | services/gridService.ts:36-58 | the rows are a permutation of one row per champion, sorted by win rate descending, with tiers that agree with the win rates and never C |
| `GridService.BaseScore` | services/gridService.ts:105-107 | a team's win-rate offset sum lies between -2 and +4 per pick |
| `GridService.CountersIn` | services/gridService.ts:113-118 | at most one count per enemy, and zero exactly when the champion counters none of them |
| `GridService.CounterPairs` | services/gridService.ts:113-128 | at most one count per ordered pair |
| `GridService.CounterDelta` | services/gridService.ts:110-128 | the counter delta is a multiple of 4, at most 4 per (blue, red) pair either way |
| `GridService.RawScore` | services/gridService.ts:131 | 50 with no picks; otherwise within the range the pick counts allow (-2..+4 per own pick, 4 per pair) |
| `GridService.Clamp` | services/gridService.ts:132 | the result lies in [lo, hi] and is x when x does |
| `GridService.WinProbability` | services/gridService.ts:131-132 | the probability always lies in 10..90 |
| `GridService.Insight` | services/gridService.ts:135-138 | each of the four insight texts is chosen exactly when its first-match condition holds |
| `GridService.ThreatScore` | services/gridService.ts:142-146 | the threat score is 0, 5, 10 or 15, and above 5 exactly when the red pick counters a blue pick |
| `GridService.ThreatLabel` | services/gridService.ts:149 | the name, a space, then "(Counter Pick!)" exactly when the pick counters a blue pick (nothing otherwise) |
| `GridService.Threats` | services/gridService.ts:140-151 | at most one threat per red pick, and none exactly when no red pick counters a blue pick |
| `GridService.ThreatsAreCounterPicks` | services/gridService.ts:141-151 | the red picks listed as threats are exactly those that counter some blue pick, in slot order and tagged "(Counter Pick!)"; the +5 win-rate bonus alone never qualifies |
| `GridService.CounterPickLabelsAppend` | services/gridService.ts:142-151 | threat labels of two red lists concatenate |
| `GridService.Analysis` | services/gridService.ts:90-158 | the probability lies in 10..90 and there are at most three threats |
| `GridService.MockStatsOf` | services/gridService.ts:102-103 | every pick has a stats entry |
| `GridService.SumWinRateOffsets` | services/gridService.ts:105-107 | the loop's total is the team's win-rate offset sum |
| `GridService.AddCounterWeights` | services/gridService.ts:113-128 | the nested loops add the weight once per counter pair |
| `GridService.AddCountersOf` | services/gridService.ts:114-118 | the inner loop adds the weight once per champion of the other team that the pick counters |
| `GridService.CollectThreats` | services/gridService.ts:140-151 | the pushed threats are the threat list |
| `GridService.GetHeuristicAnalysis` | services/gridService.ts:90-158 | the loops compute exactly the heuristic analysis of the board |
| `GridService.EmptyDraftIsEven` | services/gridService.ts:135 | with no filled pick on either side: probability 50, "Draft is even.", no threats |
| `GridService.WinProbabilitySwap` | services/gridService.ts:110-132 | swapping the teams negates the counter delta and mirrors the probability around 50 |
| `GridService.SingleCounterMatchup` | services/gridService.ts:113-138 | a board of one blue pick `x` and one red pick `y`, `x` countering `y` and not the reverse: 54 + the win-rate gap, 54 when the win rates are equal, 46 mirrored, and the "skill-dependent" insight |
| `GridService.BansDoNotAffectAnalysis` | services/gridService.ts:95-96 | filling or clearing a ban slot never changes the analysis |
| `Recommendations.Available` | services/gridService.ts:167-168 | exactly the catalog champions whose id is in no filled slot |
| `Recommendations.TopByWinRate` | services/gridService.ts:173-175 | up to three of the candidates, in descending win rate, none kept more often than it is a candidate |
| `Recommendations.TopByWinRateIsBest` | services/gridService.ts:173-175 | a candidate with a higher win rate than the last one kept is kept |
| `Recommendations.CountersOf` | services/gridService.ts:189 | exactly the candidates that counter the target; empty iff none does |
| `Recommendations.GlobalRec` | services/gridService.ts:177-182 | a comfort recommendation of the champion scored by its win rate (48..54); the reason is "Highest available win rate (", the decimal digits of that win rate (`Math.round` of a whole number leaves it unchanged), then "%) in current patch." |
| `Recommendations.GlobalRecs` | services/gridService.ts:177-182 | one comfort recommendation per champion, scored by its win rate (48..54) |
| `Recommendations.CounterRecs` | services/gridService.ts:195-200 | one counter recommendation per champion, scored 90 + its jitter, so 90..98 |
| `Recommendations.FallbackRec` | services/gridService.ts:204-210 | a comfort recommendation of the champion scored by its win rate (48..54); the reason starts with "No direct counter found for " followed by the target's name, and names the recommended champion |
| `Recommendations.FallbackRecs` | services/gridService.ts:203-211 | one comfort recommendation per champion naming the missing counter target, scored by win rate (48..54) |
| `Recommendations.CounteredEnemies` | services/gridService.ts:235 | exactly the enemy picks the candidate counters, one per counter pair |
| `Recommendations.SynergyBonus` | services/gridService.ts:250-254 | 0 for bans; for picks +5 for Engage→FollowUp plus +3 for Teamfight→Teamfight |
| `Recommendations.ContextScore` | services/gridService.ts:229-254 | the contextual score is at least 18 |
| `Recommendations.PenaltyIsFlat` | services/gridService.ts:244-247 | once some enemy pick counters the candidate, a further enemy pick changes its score only by +25 if the candidate counters it: the -30 is not applied again |
| `Recommendations.Reason` | services/gridService.ts:238-258 | with countered enemies: starts "Hard counter to " and names every one of them; with none: "Solid pick (", the decimal digits of the win rate, then "% WR)."; always ends with a full stop |
| `Recommendations.NamesContained` | services/gridService.ts:240 | each champion of the list is named in its comma-joined names, whatever text surrounds them |
| `Recommendations.Evaluate` | services/gridService.ts:229-261 | the score is the contextual score; the type is counter iff it counters an enemy, and never synergy |
| `Recommendations.TopScored` | services/gridService.ts:263-265 | up to three of the candidates, in descending score, each scored at least 18 and never labelled synergy |
| `Recommendations.TopScoredNoRepeats` | services/gridService.ts:263-265 | the champions kept are a sub-multiset of the candidates: none appears more often than it is a candidate |
| `Recommendations.TopScoredEvaluated` | services/gridService.ts:229-265 | each kept entry is its champion's own evaluation: score, reason and type |
| `Recommendations.KeyedByContextScore` | services/gridService.ts:263 | after sorting, the keys descend and each entry is a candidate's evaluation keyed by its score |
| `Recommendations.TopScoredIsBest` | services/gridService.ts:263-265 | a candidate scoring above the last one kept is kept |
| `Recommendations.Min` | services/gridService.ts:267 | the smaller of the two |
| `Recommendations.ContextRecs` | services/gridService.ts:265-270 | each reported score is the candidate's score capped at 99, with its name, reason and type |
| `Recommendations.Smart` | services/gridService.ts:160-271 | at most three recommendations, none of type synergy, each scored 18..99 |
| `Recommendations.NoActiveRecs` | services/gridService.ts:172-183 | at most three recommendations, all comfort picks scored 48..54 |
| `Recommendations.FilledSlotRecs` | services/gridService.ts:186-212 | at most three recommendations, none of type synergy, each scored 48..98 |
| `Recommendations.EmptySlotRecs` | services/gridService.ts:218-270 | at most three recommendations, none of type synergy, each scored 18..99 |
| `Recommendations.NeverRecommendsUsed` | services/gridService.ts:167-168 | every recommended name belongs to a catalog champion in no filled slot |
| `Recommendations.NoActiveSlot` | services/gridService.ts:172-183 | min(3, available) comfort recommendations scored by win rate, descending, no better available champion left out, and the names a sub-multiset of the available champions' names |
| `Recommendations.FilledSlotWithCounters` | services/gridService.ts:186-200 | at least one recommendation; all are available counters of the target, of type counter, scored 90..98 |
| `Recommendations.FilledSlotWithoutCounters` | services/gridService.ts:201-211 | min(3, available) comfort recommendations, descending |
| `Recommendations.EmptyActiveSlot` | services/gridService.ts:218-270 | each recommendation is an available champion scored min(99, contextual score), typed counter iff it counters an enemy pick, descending |
| `Recommendations.ContextRecsOfTop` | services/gridService.ts:263-270 | the same for the top three of any candidate list |
| `Recommendations.KeyByStats` | services/gridService.ts:174 | the candidates keyed by their mock win rate |
| `Recommendations.ScoreCandidate` | services/gridService.ts:229-260 | the mutable score/reason/type of one candidate end as its evaluation |
| `Recommendations.ScoreCandidates` | services/gridService.ts:229-261 | the map over candidates is their evaluations |
| `Recommendations.RankByWinRate` | services/gridService.ts:173-175 | sort and slice give the top three by win rate |
| `Recommendations.RankInContext` | services/gridService.ts:263-265 | sort and slice give the top three by score |
| `Recommendations.GetSmartRecommendations` | services/gridService.ts:160-271 | the method returns exactly the recommendations of the three-branch specification |
| `App.WithOnlyActive` | App.tsx:92 | each slot is copied with only `isActive` set, true exactly at the index |
| `App.ActivateLeavesOneActive` | App.tsx:91-95 | exactly the chosen slot is active; champions, layout and used ids are unchanged |
| `App.Selectable` | App.tsx:123-125 | exactly the catalog champions whose lower-cased name contains the lower-cased term and whose id is in no slot |
| `App.TeamSlots` | App.tsx:127-129 | never more entries than slots |
| `App.TeamSlotsExact` | App.tsx:127-129 | the view holds exactly the slots of that team and kind, each with its original index, in board order |
| `App.SelectKeepsNoDuplicates` | App.tsx:106-125 | putting a selectable champion into a slot keeps every champion in at most one slot |
| `App.DraftBoard.constructor` | App.tsx:14-28 | the board starts with the initial slots, nothing active, closed selection, empty search, history [(0, 50)], score 0–0 |
| `App.DraftBoard.ActivateSlot` | App.tsx:91-96 | only slot i becomes active, the index is i and selection closes; nothing else changes |
| `App.DraftBoard.OpenSelection` | App.tsx:98-104 | the same with the selection opened |
| `App.DraftBoard.ChampionSelect` | App.tsx:106-114 | with no active index nothing changes; otherwise only that slot gets the champion and goes inactive, the index clears, selection closes and the search empties |
| `App.FirstByName` | App.tsx:231 | the index of the first catalog champion with that name, or none exactly when no champion has it |
| `App.DraftBoard.SelectRecommended` | App.tsx:230-233 | with no champion of that name, or no active slot, nothing changes; otherwise the first champion of that name is placed as `ChampionSelect` places it (slot filled and inactive, index cleared, selection closed, search emptied); history, score and banner never change |
| `App.DraftBoard.ClearSlot` | App.tsx:116-121 | only slot i loses its champion; nothing else changes |
| `App.DraftBoard.SetSearchTerm` | App.tsx:271 | only the search term changes |
| `App.DraftBoard.FilteredChampions` | App.tsx:123-125 | the selectable champions for the board's slots and search term |
| `App.DraftBoard.GetTeamSlots` | App.tsx:127-129 | exactly the board's slots of that team and kind, each with its true index, in order |
| `App.DraftBoard.RecordAnalysis` | App.tsx:45-49 | one history point is appended with step last + 1; nothing else changes |
| `App.DraftBoard.GameEnd` | App.tsx:81-83 | only the winner's score rises by one, and the victory banner is shown |
| `App.VictoryBanner` | App.tsx:83 | the banner ends with " VICTORY! Resetting..." and starts with B exactly when blue won |
| `App.DraftBoard.ResetAfterGame` | App.tsx:84-88 | the slots and history return to their initial values and the banner clears |
| `Api.BuildRequest` | services/api.ts:25-28 | each list is the ids of that team and kind's filled slots, in slot order; together they count every filled slot once |
| `Api.RequestListExact` | services/api.ts:25-28 | an id is in a list exactly when a filled slot of that team and kind holds it |
| `Api.FilledOfSplit` | services/api.ts:25-28 | the four filled lists together count every filled slot once |
| `Api.RequestIdsComeFromSlots` | services/api.ts:25-28 | every id in a list belongs to a filled slot of that team and kind |
| `Api.Round08` | services/api.ts:75-76 | `Math.round(0.8·p)`: within 2/5 of 4p/5 |
| `Api.Round08Unique` | services/api.ts:75-76 | only one integer is that close |
| `Api.ThreatAlert` | services/api.ts:66-70 | type "THREAT", message the threat, champion the text before the first space (the whole threat when it has none) |
| `Api.ThreatAlerts` | services/api.ts:66-70 | one alert per threat, in order |
| `Api.OfflineResponse` | services/api.ts:51-79 | the local probability unchanged (10..90), synergy scores summing to 80 and each 8..72, the alerts exactly the THREAT alerts of the local threats in order (at most 3), and the two canned predictions iff some slot is filled |
| `Api.FetchAnalysisOffline` | services/api.ts:51-79 | the fallback branch returns exactly the offline response |
| `Api.AlertNamesThreat` | services/api.ts:67 | for a champion name without spaces, the alert names that champion |
| `Api.EmptyBoardFallback` | services/api.ts:51-79 | an empty board gives 50, synergy 40/40, no predictions and no alerts |
| `Engine.GetStat` | backend/riftmind_engine.py:22-23 | the stored value, or the default when the champion or the key is missing |
| `Engine.StoredWinRates` | backend/riftmind_engine.py:7-14 | the five stored win rates (Aatrox 0.51, Ahri 0.49, LeeSin 0.48, Thresh 0.50, Jinx 0.52), every stored one within 0.48..0.52, and the default for any other champion |
| `Engine.PairBonus` | backend/riftmind_engine.py:46-48 | a pick's bonus is 0, 12, 15 or 20 |
| `Engine.SynergySumAfter` | backend/riftmind_engine.py:41-51 | the running synergy sum is never negative |
| `Engine.NoPairsNoBonus` | backend/riftmind_engine.py:41-51 | without a bonus pair the sum stays 0 |
| `Engine.SynergySum` | backend/riftmind_engine.py:41-51 | the loop computes the running synergy sum |
| `Engine.SynergyIndex` | backend/riftmind_engine.py:25-55 | an empty team gives 0; any team gives a value in 0..100 |
| `Engine.Taken` | backend/riftmind_engine.py:81 | exactly the names among the picks and bans |
| `Engine.CandidatesFrom` | backend/riftmind_engine.py:97-104 | each candidate is an untaken listed name with its drawn confidence and the fixed reason |
| `Engine.CandidatesDraws` | backend/riftmind_engine.py:97-104 | the draws are consumed in order: the k-th candidate has the k-th draw as its confidence and its sort key |
| `Engine.CandidatesCoverUntaken` | backend/riftmind_engine.py:97-104 | every untaken listed name becomes a candidate |
| `Engine.Predictions` | backend/riftmind_engine.py:95-106 | two predictions, or one per untaken name of the list when fewer than two are untaken |
| `Engine.CandidatesCount` | backend/riftmind_engine.py:97-104 | from a list without repeats, exactly one candidate per name that is neither picked nor banned |
| `Engine.PredictionsDistinct` | backend/riftmind_engine.py:95-106 | no champion is predicted twice |
| `Engine.CandidatesDistinct` | backend/riftmind_engine.py:97-104 | from a list without repeats, no two candidates share a name |
| `Engine.PredictionsAreUntakenCandidates` | backend/riftmind_engine.py:95-106 | each prediction is from the seven names, in no pick or ban list, with confidence 60..95, sorted by confidence descending |
| `Engine.PredictionsAreMostConfident` | backend/riftmind_engine.py:106 | a candidate more confident than the last prediction is predicted |
| `Engine.CollectCandidates` | backend/riftmind_engine.py:97-104 | the loop appends exactly the candidates |
| `Engine.PredictNextPick` | backend/riftmind_engine.py:75-106 | the method returns exactly the predictions |
| `Engine.OneTrickAlert` | backend/riftmind_engine.py:118-122 | a ONE-TRICK alert on the pick, its message naming the pick |
| `Engine.MasteryAlert` | backend/riftmind_engine.py:126-130 | a MASTERY alert on the pick, its message naming the pick |
| `Engine.OneTrickAlerts` | backend/riftmind_engine.py:116-122 | every alert is a ONE-TRICK alert on a pocket pick among the enemy picks, and every pocket pick gets one; none iff no pick is a pocket pick |
| `Engine.OneTrickAlertsCount` | backend/riftmind_engine.py:116-122 | one alert per pocket pick, counted independently |
| `Engine.OneTrickAlertsAppend` | backend/riftmind_engine.py:116-122 | alerts follow pick order: the alerts of two pick lists concatenate |
| `Engine.CheckPocketPicks` | backend/riftmind_engine.py:108-132 | the loop and the fallback produce exactly the alert list |
| `Engine.MasteryAlertRule` | backend/riftmind_engine.py:124-130 | a MASTERY alert exactly when no pick is a pocket pick and there is more than one pick; it is then the only alert and names the first pick |

## Left out

- `fetchAnalysis`'s HTTP request and JSON decoding (services/api.ts:30-47) are network I/O. Only the fallback branch is modelled, on the board as input.
- `checkLiveGameStatus` is a stub for a remote live feed. It, the polling `setInterval` and the 3-second `setTimeout` are timers. `ResetAfterGame` is the timer's body, called separately from `GameEnd`.
- The 600 ms delay in `getPatchData` is left out.
- React rendering, hooks, effects, the `isAnalysing` flag and the components are presentation only.
- `runAnalysis` is left out because it is async orchestration. Its history update is `App.DraftBoard.RecordAnalysis`.
- `calculate_synergy_index` beyond the empty case uses `math.log` and float rounding. The patch term is a parameter of `Engine.SynergyIndex`, so only its clamp to 0..100 is modelled.
- `Engine.SynergyIndex`: does not model the rounding to one decimal.
- `calculate_win_probability` is float arithmetic on averaged win rates and is not modelled.
- `predict_next_pick`'s `needed_roles` set is computed and never used, so it is not modelled.
- `random.randint` and `Math.random` are replaced by injected sequences.
- `backend/main.py` is request routing and printing, which this model does not cover.
- `Text.Lower` lower-cases ASCII letters only. `toLowerCase` also folds other Unicode letters.
- The mock stats seed is the first character's code plus `id.length`. The source counts both in UTF-16 code units; the model reads the first `char` and counts `char`s. The two agree for ids made only of characters of the Basic Multilingual Plane, and differ for ids holding a character outside it.
- `getHeuristicAnalysis` never reads its `config` argument (services/gridService.ts:92); `GridService.GetHeuristicAnalysis` takes it and ignores it too. The equally unused `config` argument of `getSmartRecommendations` (services/gridService.ts:163) is dropped from `Recommendations.Smart`.
- `App.DraftBoard.ChampionSelect`: does not promise that champions stay distinct across slots, because the recommendation click path does not re-check it. `App.SelectKeepsNoDuplicates` states the property for the selection list.
- `Api.AlertNamesThreat`: covers only champion names without spaces. For a name with a space the alert carries only its first word, as the source does.
