# F1 race prediction scripts: the ranking step and its rules

Four standalone scripts predict the finishing order of a Formula 1 race from
a qualifying table and per-driver coefficient maps: Brazil
(`prediction22.py`, a dry and a wet scenario), Las Vegas (`prediction23.py`),
Qatar (`prediction24.py`) and Abu Dhabi (`prediction25.py`, with the
championship finale). The scripts share one step. It looks up every driver's
coefficients, computes a RaceScore and sorts the table by RaceScore (lower
is better). It then numbers the rows 1..n as PredictedPosition and sets
PositionChange = QualifyingPosition - PredictedPosition. Around this step
sit a few small rules:
- championship points accumulation and the champion pick;
- the dry/wet comparison join and the "biggest gainer";
- the podium and top-five views;
- the classifiers that turn a position change into a label or a colour.

The model, module by module:
- `Wrappers`: Option and Result.
- `Seqs`: Map, Take, Sum and the triangular numbers, with permutation lemmas.
- `Sorting`: `sort_values` is a generic sort by a total preorder. It promises sortedness and permutation only, because the pandas default sort is not stable. Python string order is also modelled here.
- `Ranking`: the shared step, its coefficient lookups and the chart views the scripts draw.
- `BrazilPrediction`, `LasVegasPrediction`, `QatarPrediction` and `AbuDhabiPrediction`: one module per script.

The scripts build tables by copying and adding columns, so tables are
sequences of records and the coefficient maps are Dafny maps. These parts
are pure functions. `calculate_championship` updates a dictionary in a loop,
so it is an imperative method with loop invariants. A Python dict keeps
insertion order, and `max` depends on it, so a standings dict is modelled as
a key order plus a map.

## Model

| member | source | states |
|---|---|---|
| Sorting.SortBy | 2025_f1_predictions-main/prediction25.py:62 | `sort_values`: the output is ordered by the key and is a permutation of the input (same multiset, same length) |
| Sorting.Insert | 2025_f1_predictions-main/prediction25.py:62 | inserting a row into an ordered table keeps it ordered and adds exactly that row |
| Sorting.SortedUnique | 2025_f1_predictions-main/prediction23.py:92 | two orderings of the same rows by a key without ties are identical, so a sort without ties has one outcome |
| Sorting.StringLeIsTotalPreorder | 2025_f1_predictions-main/prediction22.py:258-260 | Python's string order on driver codes is total and transitive |
| Sorting.StringLeAntisymmetric | 2025_f1_predictions-main/prediction22.py:258-260 | two codes that sort both ways are equal, so distinct codes never tie |
| Ranking.TrafficEntries | 2025_f1_predictions-main/prediction25.py:56-61 | every row keeps its driver, team and qualifying position; its factors are the driver's RacePace, TrafficPenalty and Form, and RaceScore = RacePace * Form + TrafficPenalty |
| Ranking.OvertakingEntries | 2025_f1_predictions-main/prediction23.py:53-63 | every row keeps its driver, team and qualifying position; its factors are the four looked-up maps, and RaceScore = RacePace * FormMultiplier * ReliabilityFactor - weight * OvertakingFactor |
| Ranking.ExtendsKeepsColumns | 2025_f1_predictions-main/prediction25.py:56 | adding columns to a copied table leaves its Driver and QualifyingPosition columns unchanged |
| Ranking.OrdersAreTotalPreorders | 2025_f1_predictions-main/prediction22.py:63 | each key the scripts sort by (RaceScore, QualifyingPosition, PredictedPosition, PositionChange both ways, Driver) is a total preorder |
| Ranking.Rank | 2025_f1_predictions-main/prediction25.py:62-64 | RaceScore is nondecreasing down the rows; the rows are a permutation of the input rows, so each driver keeps its own team, qualifying position and coefficients; PredictedPosition is 1..n in row order; PositionChange = QualifyingPosition - PredictedPosition |
| Ranking.RankKeepsDrivers | 2025_f1_predictions-main/prediction25.py:62 | the ranked driver column is a permutation of the input's, and unique driver codes stay unique |
| Ranking.ChangeSumByIndex | 2025_f1_predictions-main/prediction22.py:64-67 | when row i is numbered i+1, the changes add up to the sum of qualifying positions minus n(n+1)/2 |
| Ranking.ChangeSum | 2025_f1_predictions-main/prediction22.py:63-67 | for any table, the ranked changes add up to sum(QualifyingPosition) - n(n+1)/2 |
| Ranking.GridOrderSum | 2025_f1_predictions-main/prediction25.py:26 | a grid listed as 1..n has qualifying positions summing to n(n+1)/2 |
| Ranking.ChangesSumToZero | 2025_f1_predictions-main/prediction24.py:75-77 | when the grid is listed as 1..n, the gains and losses cancel out exactly |
| Ranking.HeadHasSmallestScores | 2025_f1_predictions-main/prediction23.py:151 | `head(k)` holds the first min(k, n) rows, numbered 1..k, in ascending score, and no row left out scores better than a row kept |
| Ranking.GridView | 2025_f1_predictions-main/prediction24.py:123 | the grid view holds the same rows, ordered by QualifyingPosition |
| Ranking.ChangeColour | 2025_f1_predictions-main/prediction24.py:144 | red exactly for a loss, green exactly for a gain, gray exactly for no change |
| Ranking.ChangeBars | 2025_f1_predictions-main/prediction23.py:139 | the gain/loss chart holds the same rows, ordered by PositionChange ascending |
| Ranking.ChangeBarColours | 2025_f1_predictions-main/prediction23.py:139-140 | one colour per bar, equal to that bar's change colour; all reds come before any other colour and all greens after |
| Ranking.ByDriver | 2025_f1_predictions-main/prediction22.py:258 | sorting by Driver gives the same rows in string order of the driver codes |
| Ranking.DriverColumnSorted | 2025_f1_predictions-main/prediction22.py:260 | the Driver column of a table sorted by Driver is in string order |
| Ranking.ByDriverAligns | 2025_f1_predictions-main/prediction22.py:258-260 | two tables over the same unique drivers, each sorted by Driver, have the same driver at every index |
| BrazilPrediction.WetEntries | 2025_f1_predictions-main/prediction22.py:142-157 | every row keeps its qualifying columns; its factors are the six wet maps, and RaceScore = pace * form * reliability - 0.35 * overtaking + weather + safety car |
| BrazilPrediction.DryResults | 2025_f1_predictions-main/prediction22.py:50-67 | the dry ranking `dry_results` has one row per grid row and the same multiset of drivers as the grid; its order and numbering are those of Ranking.Rank |
| BrazilPrediction.WetResults | 2025_f1_predictions-main/prediction22.py:142-163 | the wet ranking `wet_results` has one row per grid row and the same multiset of drivers as the grid; its order and numbering are those of Ranking.Rank |
| BrazilPrediction.GridQualifyingSum | 2025_f1_predictions-main/prediction22.py:15 | the Brazil qualifying positions add up to 65 |
| BrazilPrediction.DryChangesSum | 2025_f1_predictions-main/prediction22.py:63-67 | the dry changes add up to 65 - 45 = 20, not 0, because the grid skips positions |
| BrazilPrediction.WetChangesSum | 2025_f1_predictions-main/prediction22.py:159-163 | the wet changes also add up to 20, whatever the wet coefficients are |
| BrazilPrediction.Joined | 2025_f1_predictions-main/prediction22.py:184-190 | the row built from one dry and one wet row; its columns are stated by ComparisonColumns |
| BrazilPrediction.Matches | 2025_f1_predictions-main/prediction22.py:189 | the merged rows of one dry row; see MatchesNone and MatchesUnique for what they are |
| BrazilPrediction.Merge | 2025_f1_predictions-main/prediction22.py:189 | the inner merge on Driver; see MergeOneToOne, MatchesNone and MatchesUnique for its rows |
| BrazilPrediction.MatchesNone | 2025_f1_predictions-main/prediction22.py:189 | the inner merge drops a dry row whose driver has no wet row |
| BrazilPrediction.MatchesUnique | 2025_f1_predictions-main/prediction22.py:189 | a dry row whose driver has exactly one wet row yields exactly the joined row |
| BrazilPrediction.MergeOneToOne | 2025_f1_predictions-main/prediction22.py:189 | when every dry driver occurs once among the wet drivers, the merge has one row per dry row, in dry order, each joined with that driver's wet row |
| BrazilPrediction.DriversMatched | 2025_f1_predictions-main/prediction22.py:189 | over the same drivers, every dry driver has a wet row to join with |
| BrazilPrediction.MergeDrivers | 2025_f1_predictions-main/prediction22.py:189 | the merged Driver column equals the dry table's |
| BrazilPrediction.Comparison | 2025_f1_predictions-main/prediction22.py:189-191 | the comparison is a permutation of the merged rows, ordered by qualifying position |
| BrazilPrediction.SameDrivers | 2025_f1_predictions-main/prediction22.py:142 | the dry and wet rankings, both built from copies of one qualifying table, hold the grid's drivers, each once |
| BrazilPrediction.ComparisonDrivers | 2025_f1_predictions-main/prediction22.py:189-191 | over the same unique drivers, the comparison has as many rows as the dry table and lists each of its drivers once |
| BrazilPrediction.ComparisonRows | 2025_f1_predictions-main/prediction22.py:189-191 | over the same unique drivers, each comparison row joins one driver's dry and wet rows |
| BrazilPrediction.ComparisonColumns | 2025_f1_predictions-main/prediction22.py:184-190 | each comparison row holds its driver's qualifying position and dry finish from the dry row and the wet finish from the wet row, with Difference = Wet Finish - Dry Finish |
| BrazilPrediction.ComparisonOfGrid | 2025_f1_predictions-main/prediction22.py:183-191 | two rankings of one grid with unique codes give a comparison with exactly one row per grid driver, ordered by qualifying position, with the columns above |
| BrazilPrediction.ComparisonOneRowPerDriver | 2025_f1_predictions-main/prediction22.py:183-191 | with unique codes, the comparison of the dry and the wet ranking has exactly one row per grid driver, ordered by qualifying position; each row has the driver's qualifying position, dry finish and wet finish, and Difference = Wet Finish - Dry Finish |
| BrazilPrediction.BiggestGainer | 2025_f1_predictions-main/prediction22.py:197 | the chosen row belongs to the table and has a PositionChange at least that of every row; an empty table has no gainer |
| BrazilPrediction.BiggestGainerNeverLoses | 2025_f1_predictions-main/prediction22.py:205 | when the changes of a table add up to zero or more, its biggest gainer's change is at least zero |
| BrazilPrediction.NegativeSum | 2025_f1_predictions-main/prediction22.py:201 | helper for BiggestGainerNeverLoses: changes that are all negative have a negative sum |
| BrazilPrediction.BrazilGainersNeverLose | 2025_f1_predictions-main/prediction22.py:197-209 | for the Brazil grid, the dry and the wet ranking each have a biggest gainer, and its change is at least zero, so the "+" printed before it is never followed by a loss |
| BrazilPrediction.DryWetChangesAlign | 2025_f1_predictions-main/prediction22.py:258-260 | the dry and wet tables sorted by Driver have the grid's length, and row i of each is the same driver, so the two change bars of a driver line up |
| BrazilPrediction.ImpactChart | 2025_f1_predictions-main/prediction22.py:276-278 | the chart rows are the comparison rows, each with WeatherImpact = the absolute Difference, ordered by WeatherImpact descending |
| BrazilPrediction.ImpactBand | 2025_f1_predictions-main/prediction22.py:279 | dark red exactly from 3, orange exactly for 1 and 2, light green exactly below 1 |
| BrazilPrediction.ImpactColours | 2025_f1_predictions-main/prediction22.py:279 | one colour per bar, equal to its band; light green exactly when the driver finishes in the same place dry and wet; dark reds first, light greens last |
| LasVegasPrediction.Results | 2025_f1_predictions-main/prediction23.py:53-67 | the ranking `vegas_results` has one row per grid row and the same multiset of drivers as the grid; its order and numbering are those of Ranking.Rank |
| LasVegasPrediction.ResultChangesCancel | 2025_f1_predictions-main/prediction23.py:65-67 | with the grid 1..9, the changes add up to zero |
| LasVegasPrediction.KeepDrivers | 2025_f1_predictions-main/prediction23.py:92 | `isin` filtering; see KeepDriversFilters and KeepPrefix for which rows it keeps |
| LasVegasPrediction.KeepDriversFilters | 2025_f1_predictions-main/prediction23.py:92 | every kept row is a row of the table whose driver is listed, and every row whose driver is listed is kept |
| LasVegasPrediction.KeepPrefix | 2025_f1_predictions-main/prediction23.py:92 | `isin` filtering keeps a prefix of rows whose drivers are listed and drops the rest |
| LasVegasPrediction.PodiumData | 2025_f1_predictions-main/prediction23.py:90-92 | `top_3_data`; see PodiumDataIsTopThree for its rows |
| LasVegasPrediction.KeepOwnHead | 2025_f1_predictions-main/prediction23.py:90-92 | filtering a table with unique codes by the drivers of its own first k rows keeps exactly those k rows |
| LasVegasPrediction.PodiumDataIsTopThree | 2025_f1_predictions-main/prediction23.py:90-92 | with unique codes, the podium chart shows min(3, n) rows, which are the first rows of the ranking with predicted positions exactly 1, 2, 3 in that order |
| LasVegasPrediction.TopFiveAreBestFive | 2025_f1_predictions-main/prediction23.py:151 | the top-five rows carry the five best scores in ascending order, and no other driver scores better |
| LasVegasPrediction.Annotation | 2025_f1_predictions-main/prediction23.py:123-124 | no annotation exactly when the change is 0; green exactly for a gain; red exactly for a loss |
| LasVegasPrediction.AnnotationMatchesBar | 2025_f1_predictions-main/prediction23.py:140 | an annotation is drawn exactly when the bar is not gray, and then has the bar's colour |
| LasVegasPrediction.GridAnnotations | 2025_f1_predictions-main/prediction23.py:121-124 | one mark per grid-view row, missing exactly for the drivers whose position did not change, green exactly for a gain and red exactly for a loss |
| QatarPrediction.Results | 2025_f1_predictions-main/prediction24.py:64-77 | the ranking `qatar_results` has one row per grid row and the same multiset of drivers as the grid; its order and numbering are those of Ranking.Rank |
| QatarPrediction.ResultChangesCancel | 2025_f1_predictions-main/prediction24.py:75-77 | with the grid 1..10, the changes add up to zero |
| QatarPrediction.Podium | 2025_f1_predictions-main/prediction24.py:109 | `head(3)`; see PodiumIsBestThree for its rows |
| QatarPrediction.PodiumIsBestThree | 2025_f1_predictions-main/prediction24.py:109 | the podium is the first min(3, n) rows, numbered P1-P3 in order, in ascending score, and nobody off the podium scores better |
| QatarPrediction.ShowsAnalysis | 2025_f1_predictions-main/prediction24.py:95 | the analysis is shown exactly when the P1 driver is "PIA"; there is no answer for an empty table |
| QatarPrediction.AnalysisFollowsBestScore | 2025_f1_predictions-main/prediction24.py:95 | if the analysis is shown, PIA has a best score; if PIA's score beats every other, the analysis is shown |
| AbuDhabiPrediction.Fastest | 2025_f1_predictions-main/prediction25.py:31 | the minimum qualifying time is one of the times and is no greater than any |
| AbuDhabiPrediction.QualifyingGaps | 2025_f1_predictions-main/prediction25.py:31 | every gap is non-negative; a gap is zero exactly for a fastest driver; gaps differ exactly as times differ; some gap is zero on a nonempty grid |
| AbuDhabiPrediction.PredictionChangesCancel | 2025_f1_predictions-main/prediction25.py:62-64 | with the grid 1..10, the changes add up to zero |
| AbuDhabiPrediction.PointsFor | 2025_f1_predictions-main/prediction25.py:69 | P1-P10 score points and every other position scores 0; at most 25 points, and exactly 25 for P1 |
| AbuDhabiPrediction.PointsStrictlyDecrease | 2025_f1_predictions-main/prediction25.py:69 | each scoring position earns strictly more than the next |
| AbuDhabiPrediction.CalculateChampionship | 2025_f1_predictions-main/prediction25.py:71-79 | the result is an error exactly when the standings are empty. Otherwise it has the same keys in the same order, and each total is the start total plus the points earned. No total drops. The winner has the largest total, and every earlier key has strictly less (Python `max` keeps the first maximum) |
| AbuDhabiPrediction.PointsEarned | 2025_f1_predictions-main/prediction25.py:73-77 | the points one driver earns from a prediction; see EarnedWhenAbsent, EarnedFromOwnRow and CalculateChampionship |
| AbuDhabiPrediction.EarnedWhenAbsent | 2025_f1_predictions-main/prediction25.py:76 | a driver who is not in the prediction earns nothing |
| AbuDhabiPrediction.EarnedFromOwnRow | 2025_f1_predictions-main/prediction25.py:73-77 | with unique codes, a driver earns exactly the points for its own predicted position |
| AbuDhabiPrediction.RankingPoints | 2025_f1_predictions-main/prediction25.py:73-77 | in a ranking with unique codes, the driver at row i earns the points for P(i+1), and a driver outside the ranking earns 0 |
| AbuDhabiPrediction.DecimalString | 2025_f1_predictions-main/prediction25.py:97 | the printed form of a count is a nonempty string of decimal digits; it starts with "0" exactly for 0, has one digit exactly below 10, and otherwise has no leading zero |
| AbuDhabiPrediction.DecimalRoundTrip | 2025_f1_predictions-main/prediction25.py:97 | reading back the printed digits of a count gives the count |
| AbuDhabiPrediction.ChangeLabel | 2025_f1_predictions-main/prediction25.py:95-101 | "No Change" exactly for 0; for a gain "Up " and for a loss "Down ", each followed by a number in decimal digits without a leading zero |
| AbuDhabiPrediction.ChangeLabelRoundTrip | 2025_f1_predictions-main/prediction25.py:95-101 | the label determines the change: reading back the number after "Up " or "Down " gives the change, so no two changes share a label |

## Left out

- Charts, console output and file output are not modelled. This covers every matplotlib call, `savefig`, `show`, the printed tables and podium lines, the hard-coded podium text at prediction25.py:89-91, the champion messages, and the plot-only arithmetic (the scaled overtaking bars, the podium bar heights).
- RaceScore formulas are written over `real`, an exact idealisation of Python floats. Only the order of the scores matters to the properties. Rounding is not modelled, so the model does not decide which driver a float computation ranks first.
- Rank: tied scores come out in an order the model leaves open. The pandas default sort is not stable, so the scripts promise nothing there. The same holds for SortBy, GridView, ChangeBars, ByDriver and Comparison.
- BiggestGainer: which of several equal largest gains is chosen is left open, for the same reason.
- Coefficient lookups are total in the model: every driver must be a key of every map (`Covers`). In the scripts, `Series.map` yields NaN for a missing key and NaN sorts last. That path is not modelled.
- QualifyingGaps: times are integer milliseconds. The scripts' times have three decimals, so this representation is exact; the float subtraction is not modelled.
- ShowsAnalysis and BiggestGainer: `iloc[0]` on an empty table raises in the scripts. Here it gives `None`. The podium lines that index rows 0-2 are printing and are left out.
- CalculateChampionship: the standings are values, so the caller's map cannot be changed by the method; aliasing of the dict is not a question in the model. Points are unbounded integers.
- pandas internals (`copy`, `reset_index`, `iterrows`, the merge's hashing) are not modelled. Tables are sequences of rows in row order, and a merge is a nested scan that keeps the left table's order.
- The Brazil merge assumes unique driver codes in its one-row-per-driver lemmas. With repeated codes, an inner merge multiplies rows; MergeOneToOne does not describe that case.
