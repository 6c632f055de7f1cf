# Case-based phone recommender: a verified model

This project models in Dafny the core of a case-based reasoning (CBR) phone recommender and its evaluation scripts. The model covers:

- **Similarity.** A weighted Euclidean distance over min–max normalised phone attributes. It is turned into a similarity `1/(1+d)`.
- **The CBR cycle.** RETRIEVE, REUSE, REVISE and RETAIN over a catalogue of phones. Retrieval filters by a similarity threshold. The hits are sorted stably in descending order and the list is truncated. REUSE ranks the hits. REVISE filters by stock, boosts brand and OS matches, re-sorts and re-ranks. RETAIN appends a case through the data loader.
- **Evaluation.** A k-nearest-neighbour majority-vote classifier evaluated on train/test splits, with the confusion matrix and the metrics derived from it.
- **Labelling.** Two independent rule-based labellers that give each phone its ground-truth usage label: Gaming, Photographer or Daily.
- **Catalogue and routes.** The catalogue operations of the data loader, and the admin and listing routes built on them.

Each Python class whose methods update fields becomes a Dafny `class` with those fields. Its methods carry `modifies` clauses, and each method is proved against a specification function of the old state. Each module-level or pure computation becomes a function, with lemmas about it. Loops in the source become loops with invariants.

A catalogue cell is a `Values.Value`:

- a number (`Num`);
- a string (`Str`);
- a boolean (`Bool`);
- a list of strings (`Strs`);
- Python's `None` (`Null`);
- a pandas missing value (`NaN`).

A data frame is a `Values.Frame`: a list of columns and one map of cells per row. Python's exceptions become the `Err` case of `Wrappers.Result`. The paths that raise are modelled as error paths, except the few that "## Left out" names member by member.

The modules follow the source files:

| module | source |
|---|---|
| `WeightedEuclidean` | `backend/app/cbr/weighted_euclidean.py` |
| `Preprocessing` | `backend/app/utils/preprocessing.py` |
| `CbrEngine` | `backend/app/cbr/cbr_engine.py` |
| `Evaluator` | `backend/app/cbr/evaluator.py` |
| `LabelEvaluation` | `backend/scripts/run_evaluation.py` |
| `PrepareData` | `backend/scripts/prepare_data.py` |
| `RegenerateLabels` | `backend/scripts/regenerate_labels.py` |
| `Catalog` | `backend/app/utils/data_loader.py` |
| `Admin` | `backend/app/routes/admin.py` |
| `RecommendationRoutes` | `backend/app/routes/recommendation.py` |
| `Config` | `backend/app/config.py` |

The supporting modules model Python and pandas behaviour:

- `Wrappers`: `Option` and `Result`.
- `Numbers`: `int()` truncation and `round` half to even.
- `Text`: digit runs, `upper`, `strip`, `replace` and the two regular-expression searches.
- `Sorting`: list comprehensions, Python slices, and a stable sort defined as insertion sort.
- `Values`: cells, frames, comparisons and `df.apply`.

## Where the code and its documentation disagree

The model follows the code in each of these cases.

- **Camera weight key.** `DEFAULT_WEIGHTS` names the camera weight `Resolusi_kamera` (`backend/app/config.py:39`). The feature vectors use `Resolusi_kamera_num`. Under the default weights the camera term therefore never enters the distance, although its weight still counts when the weights are normalised (`Config.DefaultCameraWeightNeverApplies`).
- **Dead `elif`.** The `elif` at `backend/app/cbr/cbr_engine.py:592-593` can never be reached, because the branch before it already covers its case. A given `max_harga` becomes the soft price target, and the price is never a hard filter.
- **`add_label_column` thresholds.** The docstring of `add_label_column` (`backend/scripts/prepare_data.py:21-24`) gives criteria the code does not apply. `PrepareData.DocstringGamingPhoneIsNotGaming` exhibits a phone that meets the documented gaming criteria but is labelled Daily.
- **Labelling script docstring.** The docstring of the regeneration script (`backend/scripts/regenerate_labels.py:7-10`) asks for a high rating for Photographer. The rules never read the rating (`RegenerateLabels.OnlyReadCellsMatter`).
- **Tie-breaks.** Ranked results are ordered by similarity alone, and the stable sort keeps ties in catalogue order. The source has no tie-break by rating, by price or by identifier.
- **Filters before scoring.** Retrieval applies only the similarity threshold. There are no hard price, battery or rating filters before scoring.
- **The evaluation split.** The split is a cut of a shuffled frame. It is not a deterministically ordered partition.
- **Brand and OS.** Brand and OS enter only through the REVISE boosts, never through the distance.

## Model

| member | source | states |
|---|---|---|
| WeightedEuclidean.Sanitized | backend/app/cbr/weighted_euclidean.py:69-74 | every zero weight becomes 0.01, every other weight and every key stays as it was |
| WeightedEuclidean.ZeroKeys | backend/app/cbr/weighted_euclidean.py:70 | a key is reported exactly when some entry with that key has weight 0 |
| WeightedEuclidean.Normalized | backend/app/cbr/weighted_euclidean.py:76-84 | each weight divided by the total, keys and order kept; fails exactly for a non-empty dict whose total is 0 |
| WeightedEuclidean.NormalizedSumsToOne | backend/app/cbr/weighted_euclidean.py:83-84 | the normalised weights of a non-empty dict sum to 1 |
| WeightedEuclidean.SanitizedKeys | backend/app/cbr/weighted_euclidean.py:73-74 | sanitising keeps the keys in order |
| WeightedEuclidean.SimilarityRange | backend/app/cbr/weighted_euclidean.py:162-169 | `1/(1+d)` lies in (0, 1] and equals 1 exactly when d is 0 |
| WeightedEuclidean.SimilarityDecreasing | backend/app/cbr/weighted_euclidean.py:167 | a larger distance gives a strictly smaller similarity |
| WeightedEuclidean.SqrtMonotone | backend/app/cbr/weighted_euclidean.py:140 | the square root keeps strict order, so rankings can be read off squared distances |
| WeightedEuclidean.SquaredDistanceNonNegative | backend/app/cbr/weighted_euclidean.py:124-137 | with non-negative weights the weighted sum of squared differences is at least 0 |
| WeightedEuclidean.SquaredDistanceZeroWhenAgree | backend/app/cbr/weighted_euclidean.py:124-137 | the sum is 0 when the case agrees with the query on every weighted attribute the query has |
| WeightedEuclidean.AbsentQueryAttributeIgnored | backend/app/cbr/weighted_euclidean.py:131-133 | an attribute the query lacks contributes nothing, whatever the case holds there |
| WeightedEuclidean.UnweightedAttributeIgnored | backend/app/cbr/weighted_euclidean.py:126 | an attribute without a weight never changes the distance |
| WeightedEuclidean.AbsentCaseAttributeIsHalf | backend/app/cbr/weighted_euclidean.py:129 | a case lacking an attribute is scored as if it held 0.5 |
| WeightedEuclidean.QualityBandMonotone | backend/app/cbr/weighted_euclidean.py:239-258 | a higher similarity never gets a worse band, and two similarities get the same label exactly when they share a band |
| WeightedEuclidean.QualityBandCutoffs | backend/app/cbr/weighted_euclidean.py:249-258 | the band cut-offs are 0.9, 0.7, 0.5 and 0.3, each inclusive |
| WeightedEuclidean.ContributionOf | backend/app/cbr/weighted_euclidean.py:217-235 | one contribution entry: both values default to 0.5, difference is their absolute gap, attribute similarity is 1 minus it, the weighted contribution is weight × similarity × 100, the percentage comes from the unnormalised weights (0 when absent) |
| WeightedEuclidean.ContributionBounds | backend/app/cbr/weighted_euclidean.py:221-225 | for values in [0, 1] the attribute similarity is in [0, 1] and is 1 exactly when the values agree; the weighted contribution stays within [0, weight × 100] |
| WeightedEuclidean.Scores | backend/app/cbr/weighted_euclidean.py:186-190 | one (index, similarity) pair per case, in case order |
| WeightedEuclidean.RankedByScore | backend/app/cbr/weighted_euclidean.py:192-193 | the sorted scores are a permutation of the scores, non-increasing in similarity, ties in index order, each pair the score of its own case |
| WeightedEuclidean.Calculator.Init | backend/app/cbr/weighted_euclidean.py:26-35 | a calculator holding the given weights and square root |
| WeightedEuclidean.Calculator.Create | backend/app/cbr/weighted_euclidean.py:26-37 | falls back to the default weights for an empty dict, stores them sanitised, and fails exactly when normalising would divide by zero |
| WeightedEuclidean.Calculator.ValidateWeights | backend/app/cbr/weighted_euclidean.py:56-74 | the weights become their sanitised form; reports whether the old total lies outside [99, 101] and which keys were zero, and never rejects |
| WeightedEuclidean.Calculator.WeightsPercentage | backend/app/cbr/weighted_euclidean.py:98-105 | returns the stored percentage weights |
| WeightedEuclidean.Calculator.SetWeights | backend/app/cbr/weighted_euclidean.py:86-96 | stores the sanitised new weights; normalised weights follow them when normalising succeeds and are left as they were when it fails |
| WeightedEuclidean.Calculator.Distance | backend/app/cbr/weighted_euclidean.py:107-142 | the loop computes the square root of the weighted squared distance over the normalised weights; the result is non-negative |
| WeightedEuclidean.Calculator.SimilarityOf | backend/app/cbr/weighted_euclidean.py:144-169 | `1/(1+d)` of that distance, in (0, 1] |
| WeightedEuclidean.ByScoreDescIsPreorder | backend/app/cbr/weighted_euclidean.py:193 | the descending order on similarity is a total preorder, so the sort is well defined |
| WeightedEuclidean.Calculator.SimilarityBatch | backend/app/cbr/weighted_euclidean.py:171-195 | the stable descending sort of the per-case scores: one pair per case, non-increasing similarity, ties in index order |
| WeightedEuclidean.Calculator.AttributeContributions | backend/app/cbr/weighted_euclidean.py:197-237 | one entry per normalised weight, in weight order, including attributes the query lacks |
| WeightedEuclidean.SetWeight | backend/app/cbr/weighted_euclidean.py:74 | assigning a key in an ordered dict replaces the entry with that key and keeps the rest |
| WeightedEuclidean.DistanceWith | backend/app/cbr/weighted_euclidean.py:262-279 | the distance under a calculator built from the given weights, or an error when those weights cannot be normalised |
| WeightedEuclidean.SimilarityWith | backend/app/cbr/weighted_euclidean.py:282-299 | the similarity under a calculator built from the given weights, in (0, 1], or an error when they cannot be normalised |
| Preprocessing.Lookup | backend/app/utils/preprocessing.py:87-88 | a key found in an ordered table maps to one of its entries; nothing is found exactly when no entry has the key |
| Preprocessing.CameraTableAgreesWithSearch | backend/app/utils/preprocessing.py:38-53 | every entry of the resolution table is the number the `(\d+)\s*MP` search would read from its key |
| Preprocessing.ParseCameraIsSearch | backend/app/utils/preprocessing.py:81-96 | a missing value parses as 12; a string parses as the first `(\d+)\s*MP` number of its upper-cased, space-free form, or 12 when there is none |
| Preprocessing.ParseCameraListed | backend/app/utils/preprocessing.py:84-88 | a string whose upper-cased, space-free form is a table key parses as that entry |
| Preprocessing.ParseCameraSpaced | backend/app/utils/preprocessing.py:76 | "108 MP" parses as 108 |
| Preprocessing.DigitsThenMp | backend/app/utils/preprocessing.py:91-93 | a run of digits directly followed by "MP" is read as its decimal value |
| Preprocessing.Finite | backend/app/utils/preprocessing.py:121 | the numbers of a column are exactly its present numeric cells |
| Preprocessing.MedianDefined | backend/app/utils/preprocessing.py:121 | the median is a number exactly when the column holds a number, and missing otherwise |
| Preprocessing.ModeAmong | backend/app/utils/preprocessing.py:129 | the chosen mode is one of the candidates |
| Preprocessing.ModeAmongIsBest | backend/app/utils/preprocessing.py:129 | the chosen mode is at least as frequent as every candidate, and sorts first among equally frequent ones |
| Preprocessing.ModeIsMostFrequent | backend/app/utils/preprocessing.py:129 | there is no mode exactly when every cell is missing; otherwise the mode is a present cell of maximal count, first in sort order among ties |
| Preprocessing.PresentCounts | backend/app/utils/preprocessing.py:129 | dropping missing cells does not change the count of any present value |
| Preprocessing.FilledKeepsOthers | backend/app/utils/preprocessing.py:113-143 | filling never changes a present cell, nor any cell of a column it does not fill |
| Preprocessing.FilledLeavesNoMissing | backend/app/utils/preprocessing.py:125-141 | afterwards brand, OS, name, camera and stock hold no missing cell, a missing stock flag reads as True, and a numeric column holding any number holds no missing cell |
| Preprocessing.FilledWith | backend/app/utils/preprocessing.py:119-141 | a missing cell of a filled column takes the column's fill value (median, mode or "Unknown", True for stock) |
| Preprocessing.FillColumn | backend/app/utils/preprocessing.py:122 | `fillna` on one column replaces exactly its missing cells with the value |
| Preprocessing.HandleMissingValues | backend/app/utils/preprocessing.py:98-143 | the loop over the fill plan gives a frame with the same columns and rows whose every cell is the filled cell of the input |
| Preprocessing.AddCameraNumeric | backend/app/utils/preprocessing.py:145-162 | when the frame has a camera column, adds `Resolusi_kamera_num` holding each row's parsed resolution; every other cell stays |
| Preprocessing.Prepare | backend/app/utils/preprocessing.py:174-175 | filling followed by camera parsing, cell by cell |
| Preprocessing.MinOf | backend/app/utils/preprocessing.py:180 | the minimum is an element and is at most every element |
| Preprocessing.MaxOf | backend/app/utils/preprocessing.py:181 | the maximum is an element and is at least every element |
| Preprocessing.ColumnRange | backend/app/utils/preprocessing.py:180-181 | min and max are undefined exactly when the column has no number; otherwise min ≤ every number ≤ max and both are attained |
| Preprocessing.Unique | backend/app/utils/preprocessing.py:185-191 | `unique()` holds each value of the column exactly once |
| Preprocessing.UniqueInFirstAppearanceOrder | backend/app/utils/preprocessing.py:185-191 | `unique()` lists values in order of first appearance |
| Preprocessing.EncodingIsFirstAppearanceRank | backend/app/utils/preprocessing.py:185-191 | the encoding maps exactly the column's values to codes 0..k-1, distinct values to distinct codes, numbered by first appearance |
| Preprocessing.Clip | backend/app/utils/preprocessing.py:264 | `max(0, min(1, x))` lies in [0, 1] and is `x` inside it |
| Preprocessing.NormSource | backend/app/utils/preprocessing.py:220 | recovers the numeric column whose `_norm` copy a column name is, if any |
| Preprocessing.NumericColumnsAreNotNormNames | backend/app/utils/preprocessing.py:56-59 | no numeric column is itself a `_norm` name, so writing the copies never overwrites a source column |
| Preprocessing.NormNameInjective | backend/app/utils/preprocessing.py:213-222 | two columns with the same `_norm` name are the same column |
| Preprocessing.Scaled | backend/app/utils/preprocessing.py:258-264 | the scaled value of a fitted range always lies in [0, 1] |
| Preprocessing.ScaledMonotone | backend/app/utils/preprocessing.py:258-264 | scaling is monotone in the value and maps `min` to 0 and `max` to 1 |
| Preprocessing.ScaleRoundTrip | backend/app/utils/preprocessing.py:261-283 | for max > min, unscaling undoes scaling on [min, max] and scaling undoes unscaling on [0, 1] |
| Preprocessing.Preprocessor.constructor | backend/app/utils/preprocessing.py:61-69 | a new preprocessor is unfitted with empty ranges and encodings |
| Preprocessing.Preprocessor.FitRanges | backend/app/utils/preprocessing.py:178-182 | records min and max of every numeric column the prepared frame has; ranges of other columns stay |
| Preprocessing.Preprocessor.Fit | backend/app/utils/preprocessing.py:164-194 | after preparing the frame, ranges as above, brand and OS encodings rebuilt when those columns exist (else kept), and the preprocessor is fitted |
| Preprocessing.Preprocessor.NormalizeStep | backend/app/utils/preprocessing.py:213-222 | writing the scaled copy of a fitted column advances the transform loop by one column |
| Preprocessing.Preprocessor.SkipStep | backend/app/utils/preprocessing.py:214 | a numeric column that is absent or has no range is skipped without change |
| Preprocessing.Preprocessor.NormalizedAll | backend/app/utils/preprocessing.py:213-224 | once every numeric column had its turn, every cell is the transformed cell |
| Preprocessing.Preprocessor.Transform | backend/app/utils/preprocessing.py:196-224 | fails exactly when unfitted; otherwise keeps every row, has the columns `TransformedColumns` gives, and writes each `_norm` cell as 0 for a zero range and `(x-min)/(max-min)` unclipped otherwise |
| Preprocessing.Preprocessor.ColumnsUpToSpec | backend/app/utils/preprocessing.py:213-222 | after the loop's first k turns the columns are the prepared ones followed by the `_norm` copy of each of the first k numeric columns that the frame has and that has a range |
| Preprocessing.Preprocessor.TransformedColumnsSpec | backend/app/utils/preprocessing.py:209-224 | the result's columns start with the prepared columns; the `_norm` copy of every present numeric column with a range is among them, and every other column is such a copy |
| Preprocessing.Preprocessor.TransformsAgree | backend/app/utils/preprocessing.py:196-224 | two frames that both are what `transform` makes of one frame have the same columns, rows and cells |
| Preprocessing.Preprocessor.NormalizeValue | backend/app/utils/preprocessing.py:238-264 | fails exactly when unfitted; a column without a range passes the value through; a fitted column gives a value in [0, 1], the clipped scaled value for a numeric range |
| Preprocessing.Preprocessor.NormalizeNumber | backend/app/utils/preprocessing.py:323-324 | a finite number normalises as above; a missing number on a column with a range reads 0 for a constant range and 1 otherwise, as Python's `min` and `max` treat `NaN`, and on a column without one it is dropped from the query (the source keeps it; see "## Left out") |
| Preprocessing.Preprocessor.DenormalizeValue | backend/app/utils/preprocessing.py:266-283 | no fitted check; a column without a range passes through; otherwise `u*(max-min)+min` |
| Preprocessing.Preprocessor.NormalizeRoundTrip | backend/app/utils/preprocessing.py:255-283 | for max > min and v in [min, max], denormalising the normalised value gives v back |
| Preprocessing.InputEntry | backend/app/utils/preprocessing.py:311-323 | `None` values are skipped, a numeric value is kept under its mapped column, and any kept value is numeric |
| Preprocessing.PutAllKeys | backend/app/utils/preprocessing.py:324 | the keys of the built dict are exactly the columns of the entries |
| Preprocessing.PutAllLast | backend/app/utils/preprocessing.py:324 | each key holds the value of the last entry written to it |
| Preprocessing.Preprocessor.NormalizedEntry | backend/app/utils/preprocessing.py:311-324 | an item fails exactly when unfitted and it would be kept; a kept item is written under its mapped column |
| Preprocessing.Preprocessor.EntryValues | backend/app/utils/preprocessing.py:311 | one entry per input item, in input order |
| Preprocessing.Preprocessor.NormalizedInputIsPutAll | backend/app/utils/preprocessing.py:295-326 | a dict built without failure is the entries written in order |
| Preprocessing.Preprocessor.NormalizedInputSpec | backend/app/utils/preprocessing.py:295-326 | fails exactly when unfitted and some item is numeric; otherwise its keys are the mapped columns of the kept items, each holding the normalised value of the last item for it |
| Preprocessing.Preprocessor.NormalizedInputFails | backend/app/utils/preprocessing.py:323-324 | failure exactly when unfitted and some item is kept |
| Preprocessing.Preprocessor.NormalizedInputKeys | backend/app/utils/preprocessing.py:315-324 | keys of the result are exactly the columns the items write |
| Preprocessing.Preprocessor.NormalizedInputStep | backend/app/utils/preprocessing.py:311-324 | one more item writes its entry into the dict built from the ones before |
| Preprocessing.Preprocessor.NormalizedInputLastWriter | backend/app/utils/preprocessing.py:324 | a column holds the value of the last item that writes it |
| Preprocessing.Preprocessor.NormalizedInputFailurePersists | backend/app/utils/preprocessing.py:249-250 | the first failing item decides the outcome of the whole input |
| Preprocessing.Preprocessor.NormalizeEntries | backend/app/utils/preprocessing.py:295-326 | the loop builds exactly the normalised dict, stopping at the first failure |
| Preprocessing.Preprocessor.NormalizeUserInput | backend/app/utils/preprocessing.py:285-326 | with the user field table: fails exactly when unfitted and some item is numeric; keys are the columns written; each holds the last writer's normalised value |
| Config.DefaultWeightsWellFormed | backend/app/config.py:33-41 | the default weights total 100, have no zero, pass sanitising unchanged and have distinct keys |
| Config.DefaultCameraWeightNeverApplies | backend/app/config.py:39 | under the default weights the camera weight takes its 0.15 share of the normalised total, yet `Resolusi_kamera_num` has no weight, so the camera feature never changes the distance |
| CbrEngine.FeatureValue | backend/app/cbr/cbr_engine.py:239 | a missing `_norm` cell reads as 0.5, a number as itself |
| CbrEngine.CaseSimilarity | backend/app/cbr/cbr_engine.py:146-152 | the similarity of a normalised row lies in (0, 1] |
| CbrEngine.CandidatesFail | backend/app/cbr/cbr_engine.py:144-157 | the retrieval loop fails, with the `iloc` out-of-bounds error, exactly when some passing position is missing from the original catalog |
| CbrEngine.CandidatesFailHasWitness | backend/app/cbr/cbr_engine.py:156 | a failing loop always has such a position |
| CbrEngine.DanglingFails | backend/app/cbr/cbr_engine.py:156 | a passing position the original catalog lacks makes the loop fail |
| CbrEngine.CandidatesSound | backend/app/cbr/cbr_engine.py:144-157 | every hit is a passing row: position in both frames, record from the original catalog, similarity of that normalised row, at least the threshold; positions strictly increase |
| CbrEngine.CandidatesComplete | backend/app/cbr/cbr_engine.py:154-157 | every row at or above the threshold yields a hit |
| CbrEngine.RankedKeepsHits | backend/app/cbr/cbr_engine.py:160-163 | sorting and cutting keeps `top_k` hits (fewer when fewer passed), all from the candidates |
| CbrEngine.RankedOrder | backend/app/cbr/cbr_engine.py:160 | the ranked hits are non-increasing in similarity and equal similarities keep catalog order |
| CbrEngine.RankedIsTop | backend/app/cbr/cbr_engine.py:163 | no hit cut by `top_k` is more similar than a hit kept |
| CbrEngine.CollectFails | backend/app/cbr/cbr_engine.py:267-276 | a loop that appends per element fails exactly when some element raises |
| CbrEngine.CollectFailurePersists | backend/app/cbr/cbr_engine.py:267-276 | the first exception ends the loop with that exception |
| CbrEngine.CollectStep | backend/app/cbr/cbr_engine.py:267-276 | one more element appends what it yields, or raises |
| CbrEngine.CollectSound | backend/app/cbr/cbr_engine.py:311-348 | every collected item comes from some element |
| CbrEngine.CollectComplete | backend/app/cbr/cbr_engine.py:311-348 | every item an element yields is collected |
| CbrEngine.CollectTotal | backend/app/cbr/cbr_engine.py:267-276 | when every element yields, the loop maps the list position by position |
| CbrEngine.Clamp | backend/app/cbr/cbr_engine.py:329 | `max(0, min(1, x))` lies in [0, 1] and is `x` inside it |
| CbrEngine.MatchScore | backend/app/cbr/cbr_engine.py:321-329 | the match score lies in [0, 1] and is 0.5 when either value is not a number or is 0 |
| CbrEngine.MatchScoreOfPositives | backend/app/cbr/cbr_engine.py:323 | for positive values the score is one minus the relative difference, symmetric, and 1 exactly for equal values |
| CbrEngine.RelativeDifference | backend/app/cbr/cbr_engine.py:323 | for positive values the relative difference lies in [0, 1) and is 0 exactly for equal values |
| CbrEngine.HalfRoundsToHalf | backend/app/cbr/cbr_engine.py:346 | the default score 0.5 survives rounding to two places |
| CbrEngine.ExplanationFor | backend/app/cbr/cbr_engine.py:311-348 | no explanation unless both values are there; a `NaN` on either side raises when formatted as an integer; otherwise the attribute is the catalog column, the two values are the compared ones and the score is in [0, 1], 0.5 for a non-number or zero |
| CbrEngine.ExplainedSpec | backend/app/cbr/cbr_engine.py:281-350 | empty preferences give no explanation; otherwise failure exactly when a compared value is `NaN`, and without failure one explanation per attribute pair both sides have and only those, scores in [0, 1] |
| CbrEngine.FlaggedSpec | backend/app/cbr/cbr_engine.py:367-409 | the reported highlights are exactly the passed checks, in check order |
| CbrEngine.HighlightsSpec | backend/app/cbr/cbr_engine.py:352-409 | empty preferences give no highlight; otherwise only the brand and OS checks can raise, and without an exception the list is exactly the earned highlights, none twice |
| CbrEngine.EarnedIsChecked | backend/app/cbr/cbr_engine.py:372-407 | a check passes exactly when its highlight is earned: budget at most `max_harga`, RAM, battery and rating at least the preference, favourite brand, matching OS, rating at least 4.5, battery at least 5000 |
| CbrEngine.ReusedFails | backend/app/cbr/cbr_engine.py:267-276 | reuse fails exactly when some hit's explanations or highlights raise |
| CbrEngine.ReuseStepFails | backend/app/cbr/cbr_engine.py:268-275 | one loop step fails exactly when its explanations or highlights raise |
| CbrEngine.RecommendationForFails | backend/app/cbr/cbr_engine.py:273-274 | one recommendation fails exactly when its explanations or highlights raise |
| CbrEngine.ReusedSpec | backend/app/cbr/cbr_engine.py:244-279 | one recommendation per hit in hit order, ranked `i + 1`, with the hit's phone and similarity and a percentage in [0, 100] for a similarity in [0, 1] |
| CbrEngine.RecommendationForSpec | backend/app/cbr/cbr_engine.py:268-275 | a recommendation carries its rank, the hit's phone and similarity, the explanations and highlights of that phone, and a percentage in [0, 100] |
| CbrEngine.PercentageBounds | backend/app/cbr/cbr_engine.py:272 | `round(s * 100, 2)` lies in [0, 100] for s in [0, 1] |
| CbrEngine.Reranked | backend/app/cbr/cbr_engine.py:464-465 | re-ranking keeps every recommendation in place and sets rank `i + 1` |
| CbrEngine.AdjustedSpec | backend/app/cbr/cbr_engine.py:443-458 | a boost keeps phone, rank, explanations and highlights, never lowers a non-negative similarity, and multiplies it by 1, 1.1, 1.05 or both |
| CbrEngine.BoostedIsAdjusted | backend/app/cbr/cbr_engine.py:443-458 | the brand loop and the OS loop together adjust each recommendation on its own, in place |
| CbrEngine.RevisedOrder | backend/app/cbr/cbr_engine.py:439-465 | with filters, one output per stock-filtered input, ranked 1..n in order of non-increasing adjusted similarity |
| CbrEngine.RevisedFromInput | backend/app/cbr/cbr_engine.py:443-465 | every output is the adjusted version of some stock-filtered input |
| CbrEngine.RevisedCoversInput | backend/app/cbr/cbr_engine.py:443-465 | every stock-filtered input appears adjusted in the output |
| CbrEngine.RevisedWithoutFilters | backend/app/cbr/cbr_engine.py:434-437 | empty filters return the recommendations unchanged |
| CbrEngine.RevisedInStock | backend/app/cbr/cbr_engine.py:439-441 | with `only_in_stock` every phone kept is in stock (a missing flag counts as in stock) and every in-stock phone is kept |
| CbrEngine.BoostedKeepsPhones | backend/app/cbr/cbr_engine.py:443-458 | both boost loops keep every phone in its place |
| CbrEngine.BrandLoopKeepsPhones | backend/app/cbr/cbr_engine.py:447-450 | the brand loop keeps every phone in its place |
| CbrEngine.OsLoopKeepsPhones | backend/app/cbr/cbr_engine.py:455-458 | the OS loop keeps every phone in its place |
| CbrEngine.KeptInStock | backend/app/cbr/cbr_engine.py:439-465 | filtering on stock, then steps that keep each phone, a permutation and re-ranking leave exactly the in-stock phones |
| CbrEngine.PriceEntryIsMaxPrice | backend/app/cbr/cbr_engine.py:590-593 | the midpoint branch is dead: the query's price is `max_harga` when truthy and absent otherwise, whatever `min_harga` holds |
| CbrEngine.Pick | backend/app/cbr/cbr_engine.py:586-601 | a pick only ever writes its own query name |
| CbrEngine.ExtractQueryPrice | backend/app/cbr/cbr_engine.py:583-603 | the query carries a price exactly when `max_harga` is truthy |
| CbrEngine.ExtractQueryIgnoresMinPrice | backend/app/cbr/cbr_engine.py:573-603 | changing `min_harga` never changes the query |
| CbrEngine.SummarizeQuerySpec | backend/app/cbr/cbr_engine.py:617-623 | the summary fails exactly when a given budget bound is not a number; it has a budget exactly when a bound is given, a missing lower bound reading 0, a missing upper bound 50,000,000, a given one truncated to an integer |
| CbrEngine.ReusedRanked | backend/app/cbr/cbr_engine.py:267 | reusing hits ordered by similarity gives recommendations ranked 1..n in that order |
| CbrEngine.RevisedRanked | backend/app/cbr/cbr_engine.py:434-468 | revision keeps a ranked list ranked, with or without filters |
| CbrEngine.TakeRanked | backend/app/cbr/cbr_engine.py:558 | keeping the first `top_k` keeps a list ranked |
| CbrEngine.RespondSpec | backend/app/cbr/cbr_engine.py:545-571 | from similarity-ordered hits the response holds at most `top_k` recommendations, counts them, is ranked from 1 by non-increasing similarity, and reports the weights used |
| CbrEngine.Engine.Init | backend/app/cbr/cbr_engine.py:58-67 | a new engine is uninitialised with empty frames and no data loader |
| CbrEngine.Engine.Create | backend/app/cbr/cbr_engine.py:51-68 | no weights select the configured defaults; the calculator holds them sanitised; creation fails exactly where they cannot be normalised |
| CbrEngine.Engine.LoadCaseBase | backend/app/cbr/cbr_engine.py:70-89 | the catalog is loaded and validated, the preprocessor fitted, the preprocessor's ranges are the prepared catalog's, the normalised copy is the transformed catalog (its columns and every cell), the two frames agree row by row on the id, and the engine is initialised |
| CbrEngine.Engine.GetWeights | backend/app/cbr/cbr_engine.py:102-109 | returns the percentage weights the calculator holds |
| CbrEngine.Engine.SetWeights | backend/app/cbr/cbr_engine.py:91-100 | the calculator takes the sanitised weights; success exactly when they normalise |
| CbrEngine.Engine.PrepareQuery | backend/app/cbr/cbr_engine.py:168-215 | with the query key table: fails exactly when unfitted and some item is numeric; keys are the columns written; each holds the last writer's normalised value |
| CbrEngine.Engine.ExtractCaseVector | backend/app/cbr/cbr_engine.py:217-241 | one entry per feature attribute whose `_norm` column the frame has, 0.5 for a missing cell |
| CbrEngine.Engine.Retrieve | backend/app/cbr/cbr_engine.py:112-166 | the scoring loop, sort and cut compute the retrieval result; it fails before the case base is loaded |
| CbrEngine.Engine.RetrieveSpec | backend/app/cbr/cbr_engine.py:134-163 | once loaded on aligned frames, retrieval succeeds with at most `top_k` hits, each at least the threshold, carrying the record with the scored row's id and that row's similarity, non-increasing with ties in catalog order |
| CbrEngine.Engine.RetrieveSound | backend/app/cbr/cbr_engine.py:144-163 | on any catalog a successful retrieval returns at most `top_k` hits in non-increasing order, each in [threshold, 1] and a phone of the original catalog |
| CbrEngine.Engine.GenerateExplanations | backend/app/cbr/cbr_engine.py:281-350 | the loop computes the explanations under the engine's weights |
| CbrEngine.Engine.Reuse | backend/app/cbr/cbr_engine.py:244-279 | the loop computes the reused recommendations |
| CbrEngine.Engine.RecommendHit | backend/app/cbr/cbr_engine.py:268-275 | one loop body: the recommendation of a hit at its rank |
| CbrEngine.Engine.Revise | backend/app/cbr/cbr_engine.py:412-468 | computes the revised recommendations |
| CbrEngine.Engine.BoostAll | backend/app/cbr/cbr_engine.py:443-458 | the two boost loops compute the boosted list |
| CbrEngine.Engine.Rerank | backend/app/cbr/cbr_engine.py:464-465 | the rank loop computes the re-ranked list |
| CbrEngine.Engine.BoostLoop | backend/app/cbr/cbr_engine.py:447-458 | one boost loop, stopping at the first exception |
| CbrEngine.Engine.Recommend | backend/app/cbr/cbr_engine.py:513-571 | retrieves `2·top_k`, reuses, revises when asked, keeps `top_k` and summarises |
| CbrEngine.Engine.RecommendSpec | backend/app/cbr/cbr_engine.py:513-571 | nothing is recommended before loading; a response holds at most `top_k` recommendations, counts them, is ranked 1..n by non-increasing similarity and reports the engine's weights |
| CbrEngine.Engine.Retain | backend/app/cbr/cbr_engine.py:471-510 | succeeds exactly when all required fields are there, a data loader exists and the catalog has an id column; then the case base is the catalog with the new row appended under a fresh id and the frames stay aligned; otherwise nothing changes |
| CbrEngine.Engine.GetStatistics | backend/app/cbr/cbr_engine.py:642-652 | an error before loading or without a data loader; once loaded it fails exactly when the loader's price summary does, and it counts the loaded phones and lists their columns |
| CbrEngine.TransformKeepsIds | backend/app/cbr/cbr_engine.py:86 | the normalised copy agrees with its frame row by row on the phone id |
| CbrEngine.IdSurvivesTransform | backend/app/cbr/cbr_engine.py:86 | transforming leaves a row's id as it was |
| CbrEngine.IdIsNotScaled | backend/app/utils/preprocessing.py:213-222 | the id column has no `_norm` source, so it is never scaled |
| CbrEngine.IdIsNotFilled | backend/app/utils/preprocessing.py:98-143 | the id column is neither filled for missing values nor the camera column |
| CbrEngine.ByHitDescIsPreorder | backend/app/cbr/cbr_engine.py:160 | ordering hits by similarity, highest first, is a total preorder, so the stable sort is well defined |
| Catalog.NullCountPositive | backend/app/utils/data_loader.py:101-103 | a column has a positive null count exactly when some cell is missing |
| Catalog.NullProblemsStep | backend/app/utils/data_loader.py:101-107 | one more critical column appends its null problem exactly when it is present with missing cells |
| Catalog.NullProblemsSpec | backend/app/utils/data_loader.py:101-107 | a null problem is reported exactly for each listed, present column with missing cells, with its count |
| Catalog.ProblemsSpec | backend/app/utils/data_loader.py:75-115 | the missing required columns appear together in one problem; `Harga` or `Ram` is reported exactly when present and not numeric; a critical column exactly when it has missing cells, with their number |
| Catalog.ProblemsEmptyIffClean | backend/app/utils/data_loader.py:109-115 | validation passes exactly when no required column is missing, price and RAM are numeric and no critical cell is missing |
| Catalog.MatchesAllExtend | backend/app/utils/data_loader.py:183-198 | narrowing by one more criterion is filtering by all criteria so far |
| Catalog.ApplyCriterionIsFilter | backend/app/utils/data_loader.py:184-198 | the masks one criterion applies (`min` then `max`, a list, or equality; an unknown column passes) keep exactly the rows passing it, in order |
| Catalog.DistinctReals | backend/app/utils/data_loader.py:142-143 | holds each number of its input, none twice |
| Catalog.OptionsSpec | backend/app/utils/data_loader.py:142-143 | the RAM and storage options are strictly increasing and are exactly the column's finite numbers (missing values are dropped; see "## Left out") |
| Catalog.PriceSummary | backend/app/utils/data_loader.py:137-141 | without a price column the range is zero; with one it fails exactly when no price is a number, and otherwise every price lies between the reported minimum and maximum |
| Catalog.DataLoader.constructor | backend/app/utils/data_loader.py:29-39 | a new loader holds an empty frame, unloaded, with no validation errors |
| Catalog.DataLoader.Load | backend/app/utils/data_loader.py:41-73 | the catalog becomes the given frame, marked loaded, and when asked its validation errors are exactly its problems |
| Catalog.DataLoader.ValidateDataset | backend/app/utils/data_loader.py:75-115 | the error list is reset to exactly the frame's problems, and the result is whether there are none |
| Catalog.DataLoader.RecordNullProblems | backend/app/utils/data_loader.py:101-107 | the loop appends exactly the null problems of the listed columns, in order |
| Catalog.DataLoader.GetStatistics | backend/app/utils/data_loader.py:121-147 | fails before loading and where the price cannot be summarised; otherwise counts the phones, lists the columns, the distinct brands and their number, the price range, the RAM and storage options and each column's null count |
| Catalog.DataLoader.GetUniqueValues | backend/app/utils/data_loader.py:149-165 | loads the file when needed; fails exactly for an unknown column; else returns the column's present values, each once, in order of first appearance |
| Catalog.DataLoader.FilterByCriteria | backend/app/utils/data_loader.py:167-200 | loads the file when needed; keeps the columns and, in order, exactly the rows passing every criterion; the catalog itself is unchanged |
| Catalog.DataLoader.AddNewCase | backend/app/utils/data_loader.py:202-227 | fails exactly without an id column; otherwise the phone gets an id one above the largest and becomes the last row, its new keys extending the columns |
| Catalog.DataLoader.SplitTrainTest | backend/app/utils/data_loader.py:241-270 | the shuffled rows cut at `int(n * ratio)`: the training part and the rest together are the shuffled rows, with the expected sizes for a ratio in [0, 1] |
| Catalog.SplitPoint | backend/app/utils/data_loader.py:263 | for a ratio in [0, 1] the cut lies inside the frame |
| Catalog.NextId | backend/app/utils/data_loader.py:216-217 | is `NaN` exactly when the column has no number, and otherwise above every id |
| Catalog.RecordRow | backend/app/utils/data_loader.py:220 | the row has exactly the dict's keys |
| Catalog.RecordRowHolds | backend/app/utils/data_loader.py:220 | with distinct keys, the row holds each entry's own value |
| Catalog.Extended | backend/app/utils/data_loader.py:221 | the concatenated frame's columns start with the old ones and are the old ones plus the new row's keys |
| Catalog.NextIdKeepsIdsDistinct | backend/app/utils/data_loader.py:216-221 | appending a phone under the next id keeps all finite ids distinct |
| Catalog.Shuffled | backend/app/utils/data_loader.py:260 | the shuffle has one row per position of the permutation, taken from the position it names |
| Admin.ValidateWeightsSpec | backend/app/routes/admin.py:23-34 | a weight map is accepted, unchanged, exactly when its total lies in [99, 101] and no weight is 0; a bad total is reported first even when there are zeros; a zero rejection names exactly the zero keys |
| Admin.AcceptedWeightsAreKept | backend/app/routes/admin.py:23-34 | accepted weights pass the calculator's sanitising unchanged and always normalise |
| Admin.MixedSignWeightsAccepted | backend/app/routes/admin.py:23-34 | validation accepts `{"Harga": 150, "Ram": -50}`, whose normalised weights make the weighted squared sum negative for a query and case that differ only in RAM: the source's `np.sqrt` then gives `NaN` |
| Admin.UpdateWeights | backend/app/routes/admin.py:87-128 | refused, leaving the calculator alone, exactly when validation rejects the weights; otherwise the engine holds exactly the given weights and the old ones are returned |
| Admin.ResetWeights | backend/app/routes/admin.py:131-154 | the engine goes back to exactly the configured defaults and the old weights are returned |
| Admin.PresetWeights | backend/app/routes/admin.py:166-234 | a preset weighs the seven features in their order with the given values |
| Admin.TotalOfSeven | backend/app/routes/admin.py:166-234 | the total of seven weights is their written-out sum |
| Admin.PresetAccepted | backend/app/routes/admin.py:166-234 | seven positive weights totalling 100 are accepted as they are |
| Admin.PresetsAccepted | backend/app/routes/admin.py:157-236 | every preset weighs the seven features with positive weights totalling exactly 100, so `validate_weights` accepts it unchanged |
| Admin.PresetsWeighTheCamera | backend/app/routes/admin.py:172 | every preset keys the camera weight by the feature column the distance reads |
| Admin.KeysHas | backend/app/routes/admin.py:172 | every entry's key is among the weight map's keys |
| Admin.PriceSegmentSpec | backend/app/routes/admin.py:305-315 | a price lies in segment `k` exactly when it is at least the bound below `k` and under the bound above it |
| Admin.PriceSegmentMonotone | backend/app/routes/admin.py:305-315 | a higher price never lands in a lower segment |
| Admin.SegmentLabelsDistinct | backend/app/routes/admin.py:306-315 | two segments share a label exactly when they are the same segment |
| Admin.SegmentCountsPartition | backend/app/routes/admin.py:317 | the five segment counts add up to the number of prices |
| Admin.PhoneDataKeysDistinct | backend/app/routes/admin.py:248-261 | the record handed to `retain` has distinct keys |
| Admin.PhoneDataSpec | backend/app/routes/admin.py:248-263 | the record carries every field `retain` requires, with the request's name, brand and price and the release year or the current year |
| Admin.NamedFieldsHeld | backend/app/routes/admin.py:248-261 | a record with distinct keys in the source's order holds its required fields and year with their own values |
| Admin.RetainFieldsPresent | backend/app/routes/admin.py:248-263 | a record starting with the five required keys has every field `retain` checks |
| Admin.AddNewPhone | backend/app/routes/admin.py:239-285 | a phone is added exactly when the request is within its field bounds, the engine has a data loader and the catalog has an id column; then the case base is the catalog with the request's record appended under the next id, the frames stay aligned, and the record returned is the request's with that `Id_hp` added, as `add_new_case` writes it into the same dict; a refusal leaves the case base as it was |
| Admin.Without | backend/app/routes/admin.py:365 | keeps exactly the rows without the id |
| Admin.NoMatchIff | backend/app/routes/admin.py:356-362 | no row matches the id exactly when no row has it |
| Admin.WithoutShrinks | backend/app/routes/admin.py:365 | removing an id that some row has makes the catalog shorter |
| Admin.WithoutKeepsAligned | backend/app/routes/admin.py:365 | removing an id from both frames of an aligned catalog keeps them aligned |
| Admin.DeletePhoneAsWritten | backend/app/routes/admin.py:344-387 | fails before loading or without an id column; not found exactly when no row has the id; a deletion filters the catalog and the loader's copy but leaves the normalised frame as it was; otherwise the loader's frame stays, and its loaded flag and validation errors never change |
| Admin.StaleFrameMisaligned | backend/app/routes/admin.py:365 | after the deletion as written the normalised frame is longer than the catalog and no longer aligned with it |
| Admin.StaleFrameBreaksRetrieval | backend/app/routes/admin.py:365 | the next retrieval then fails whenever the last normalised row passes the threshold |
| Admin.DeletePhone | backend/app/routes/admin.py:344-387 | as written, except that the phone also leaves the normalised frame, so an aligned catalog stays aligned (in pandas this needs `reset_index(drop=True)` on both frames as well; see "## Left out") |
| RecommendationRoutes.QuickInputSpec | backend/app/routes/recommendation.py:99-106 | the quick input asks for a brand exactly when a non-empty brand is given, as a one-element list, so the brand check is an exact match that never raises; the query it yields holds only RAM, storage, price and battery |
| RecommendationRoutes.QuickRecommendation | backend/app/routes/recommendation.py:89-120 | a request outside its bounds (negative budget, RAM below 1, `top_k` outside [1, 50]) is refused; otherwise it is the engine's recommendation for the quick input at threshold 0.2 with filters, holding at most `top_k` phones ranked by similarity |
| RecommendationRoutes.ListingStep | backend/app/routes/recommendation.py:142-149 | applying the next filter, when it is on, to the rows passing the earlier ones is filtering by all of them |
| RecommendationRoutes.ApplyFilter | backend/app/routes/recommendation.py:142-149 | a filter that is on fails on a catalog without its column and otherwise keeps exactly the rows passing it; a filter that is off keeps every row |
| RecommendationRoutes.FilterRows | backend/app/routes/recommendation.py:142-149 | the four filters in turn give the rows passing every filter that is on, or the key error of a missing column |
| RecommendationRoutes.CellLeIsPreorder | backend/app/routes/recommendation.py:152-154 | the sort order on cells, missing cells last, is total and transitive in both directions |
| RecommendationRoutes.ByColumnIsPreorder | backend/app/routes/recommendation.py:154 | ordering rows by one column is a total preorder |
| RecommendationRoutes.SortRows | backend/app/routes/recommendation.py:152-154 | sorts only by a column the catalog has, ascending exactly when the order reads `asc` in any case |
| RecommendationRoutes.ListAllPhones | backend/app/routes/recommendation.py:123-176 | fails before the case base is loaded; otherwise filters, sorts and pages a copy of the catalog |
| RecommendationRoutes.CeilingDivision | backend/app/routes/recommendation.py:172 | `(total + limit - 1) // limit` is the total divided by the limit rounded up: zero pages exactly for no rows |
| RecommendationRoutes.PageBelowCount | backend/app/routes/recommendation.py:172 | the page of any row is at most the page count |
| RecommendationRoutes.SliceWithin | backend/app/routes/recommendation.py:162 | a slice holds only elements of what it is cut from |
| RecommendationRoutes.PagedSpec | backend/app/routes/recommendation.py:157-173 | a page holds at most `limit` rows, all from the rows paged, the total counts them all, and the page count is the total over the limit rounded up |
| RecommendationRoutes.RowOnItsPage | backend/app/routes/recommendation.py:157-162 | row `j` is shown on page `j / limit + 1` at position `j % limit`, and that page exists |
| RecommendationRoutes.ListedSpec | backend/app/routes/recommendation.py:139-173 | a listing counts exactly the rows passing every filter that is on; each row shown is a catalog row passing them; a sorted listing is ordered by the sort column and a permutation of the filtered rows, an unsorted one keeps catalog order |
| RecommendationRoutes.PagesShareRows | backend/app/routes/recommendation.py:157-162 | every page cuts the same arranged rows; only the page number differs |
| RecommendationRoutes.AsPercentages | backend/app/routes/recommendation.py:204-212 | each retrieved phone, in order, with its similarity as a percentage rounded to two places |
| RecommendationRoutes.SimilarPhonesSpec | backend/app/routes/recommendation.py:204-212 | at most four similar phones, never the phone itself, each a retrieved phone |
| RecommendationRoutes.SimilarPhonesPercent | backend/app/routes/recommendation.py:206 | similarities of at least 0.5 read as percentages in [50, 100] |
| RecommendationRoutes.SimilarPhonesOrdered | backend/app/routes/recommendation.py:204-212 | similar phones are listed from the most similar down |
| RecommendationRoutes.SimilarPhonesOf | backend/app/routes/recommendation.py:202-212 | for a retrieval at threshold 0.5 the similar phones are at most four catalog phones other than the phone itself, in [50, 100] percent, most similar first |
| RecommendationRoutes.FilterKeepsOrder | backend/app/routes/recommendation.py:210 | dropping the phone itself keeps the hits ordered by similarity |
| RecommendationRoutes.GetPhoneDetail | backend/app/routes/recommendation.py:179-226 | fails before loading or without an id column; not found exactly when no row has the id; found, with the first row with the id and its similar phones, exactly when such a row exists and the retrieval of five by price, RAM and storage at threshold 0.5 succeeds |
| Evaluator.FeatureCell | backend/app/cbr/evaluator.py:150-151 | a missing cell reads 0, a number as itself, and conversion fails for every text cell and list (numeric text included; see "## Left out") |
| Evaluator.FeaturesFailurePersists | backend/app/cbr/evaluator.py:148-157 | once a cell fails to convert, the rest of the feature loop does not run |
| Evaluator.FeaturesExtend | backend/app/cbr/evaluator.py:148-157 | one more feature-map entry is skipped without a column and otherwise adds its converted cell or fails |
| Evaluator.FeaturesFail | backend/app/cbr/evaluator.py:148-157 | extraction succeeds exactly when every cell it reads converts |
| Evaluator.FeaturesKeys | backend/app/cbr/evaluator.py:148-157 | there is a feature for exactly the keys whose `_norm` column, or column without `_num`, the row has |
| Evaluator.FeaturesValues | backend/app/cbr/evaluator.py:149-157 | each feature is the converted cell it reads, a missing cell reading 0 |
| Evaluator.NormRow | backend/app/cbr/evaluator.py:135 | a position of the frame reads that row; any other position reads the first row; an empty frame fails |
| Evaluator.LabelOf | backend/app/cbr/evaluator.py:190 | a label is read exactly when the frame has a label column and the position |
| Evaluator.CloserIsPreorder | backend/app/cbr/evaluator.py:194 | ordering neighbours by similarity, highest first, is a total preorder |
| Evaluator.FirstMaximalSpec | backend/app/cbr/evaluator.py:202 | `max` with a key picks an element of largest key, every earlier element having a smaller key |
| Evaluator.VoteSpec | backend/app/cbr/evaluator.py:200-202 | the vote fails exactly for no labels; otherwise it is a label that occurs, none occurs more often, and among equally frequent labels it is the first seen |
| Evaluator.NearestSpec | backend/app/cbr/evaluator.py:194-202 | the vote takes `k` neighbours (all when fewer), from the neighbours, none left out more similar than one taken, in non-increasing similarity; the prediction fails exactly when none are taken |
| Evaluator.PrefixDominates | backend/app/cbr/evaluator.py:197 | a prefix of a list sorted by similarity holds its most similar elements |
| Evaluator.MappedFailurePersists | backend/app/cbr/evaluator.py:180-191 | once an iteration raises, later ones do not run |
| Evaluator.MappedCongruence | backend/app/cbr/evaluator.py:247-261 | loops whose iterations agree give the same outcome |
| Evaluator.MappedStep | backend/app/cbr/evaluator.py:247-261 | one more iteration raises or appends its value |
| Evaluator.MappedSpec | backend/app/cbr/evaluator.py:180-191 | a loop fails exactly when some iteration does; otherwise entry `i` is what iteration `i` gives |
| Evaluator.NeighbourAt | backend/app/cbr/evaluator.py:181-191 | a training phone scores exactly when its features and label can be read, and then carries its position, its label and its similarity to the query, in (0, 1] |
| Evaluator.NeighboursSpec | backend/app/cbr/evaluator.py:178-191 | scoring fails exactly when some training phone lacks a label or readable features; otherwise neighbour `i` is training phone `i` with its label and similarity |
| Evaluator.ClassifiedAt | backend/app/cbr/evaluator.py:252-258 | a test phone's pair is its own label and the vote for its features |
| Evaluator.ClassifiedLabels | backend/app/cbr/evaluator.py:247-261 | one pair per test phone, each with the phone's own label first |
| Evaluator.FeaturesOfAlikeRows | backend/app/cbr/evaluator.py:148-157 | the features read from two rows that hold the same cells are the same |
| Evaluator.IndexedFeaturesOfSameCells | backend/app/cbr/evaluator.py:135-157 | frames with the same columns and cells give every index the same features |
| Evaluator.ClassifiedOfSameCells | backend/app/cbr/evaluator.py:247-261 | frames with the same columns and cells classify every test phone alike, so the classification is fixed by what `transform` makes |
| Evaluator.ClassifiedSpec | backend/app/cbr/evaluator.py:247-261 | one pair per test phone, in test order: its own label and the label predicted for its features |
| Evaluator.ConfusionMatrix | backend/app/cbr/evaluator.py:283 | a 3×3 matrix whose cell `(i, j)` counts the positions with actual label `i` and predicted label `j` |
| Evaluator.MatrixCounts | backend/app/cbr/evaluator.py:283 | with predictions among the labels, the matrix counts every position whose actual label is one of them, and its diagonal the right predictions |
| Evaluator.KnownByCells | backend/app/cbr/evaluator.py:283 | the three matrix rows together count the positions with a known actual label |
| Evaluator.HitsByCells | backend/app/cbr/evaluator.py:283 | the diagonal cells together count the right predictions |
| Evaluator.KnownAll | backend/app/cbr/evaluator.py:283 | when every actual label is one of the three, all positions are counted |
| Evaluator.HitsBound | backend/app/cbr/evaluator.py:266 | there are no more right predictions than positions |
| Evaluator.RatioBounds | backend/app/cbr/evaluator.py:267-269 | a count over a larger count lies in [0, 1] and times the denominator gives the count back (`zero_division=0` included) |
| Evaluator.MeanBounds | backend/app/cbr/evaluator.py:267-269 | a support-weighted mean of fractions is a fraction |
| Evaluator.MeanOfRatios | backend/app/cbr/evaluator.py:268 | weighting each label's hit rate by its support gives the overall hit rate |
| Evaluator.WeightedBounds | backend/app/cbr/evaluator.py:267-269 | a support-weighted average of fractions is a fraction |
| Evaluator.PerLabelBounds | backend/app/cbr/evaluator.py:267-269 | precision, recall and F1 of each label lie in [0, 1] |
| Evaluator.ScoresBounds | backend/app/cbr/evaluator.py:266-269 | accuracy and the weighted precision, recall and F1 all lie in [0, 1] |
| Evaluator.WeightedRecallIsAccuracy | backend/app/cbr/evaluator.py:266-268 | when every actual and predicted label is one of the three, the weighted recall equals the accuracy |
| Evaluator.RecallIsHitRate | backend/app/cbr/evaluator.py:268 | the support-weighted recall of a matrix is its diagonal over its total |
| Evaluator.Rounded | backend/app/cbr/evaluator.py:271-280 | a fraction rounded to 4 places stays in [0, 1] and as a percentage to 2 places in [0, 100] |
| Evaluator.MetricsBounds | backend/app/cbr/evaluator.py:266-280 | every reported metric lies in [0, 1] and every percentage in [0, 100] |
| Evaluator.MatrixDataSpec | backend/app/cbr/evaluator.py:349-379 | true positives are the diagonal; false positives and negatives are both half the wrong predictions rounded down, summing to them exactly when their number is even; true negatives are 0 |
| Evaluator.MapSeqSpec | backend/app/cbr/evaluator.py:405-406 | a map has one entry per element, each the function of that element |
| Evaluator.NamesSpec | backend/app/cbr/evaluator.py:396-402 | name `i` is the name of result `i` |
| Evaluator.ScenarioNamesSpec | backend/app/cbr/evaluator.py:223 | name `i` is that of the scenario training on the `i`-th percentage |
| Evaluator.MetricsComparisonKeys | backend/app/cbr/evaluator.py:396-402 | the comparison has an entry for exactly the results' scenario names |
| Evaluator.MetricsComparisonLast | backend/app/cbr/evaluator.py:396-402 | each entry holds the percentages of the last result with that name |
| Evaluator.SumsBounded | backend/app/cbr/evaluator.py:405-406 | the sums averaged lie between 0 and 100 times the number of results |
| Evaluator.SummarySpec | backend/app/cbr/evaluator.py:381-413 | no results give `{}`; otherwise the summary counts the scenarios, has an entry per scenario name and average percentages in [0, 100] |
| Evaluator.BestSpec | backend/app/cbr/evaluator.py:335-338 | no results is an error; otherwise the best is a result whose F1 no result beats, the first such |
| Evaluator.ModelEvaluator.Init | backend/app/cbr/evaluator.py:77-90 | a new evaluator holds its weights, `k`, preprocessor and calculator, with no results |
| Evaluator.ModelEvaluator.Create | backend/app/cbr/evaluator.py:77-90 | no weights select the defaults; the evaluator and the calculator both hold them sanitised, as the shared dictionary is sanitised in place; creation fails exactly where they cannot be normalised |
| Evaluator.ModelEvaluator.ExtractFeatures | backend/app/cbr/evaluator.py:123-159 | the loop computes the features of the normalised row at the position |
| Evaluator.ModelEvaluator.ScoreNeighbour | backend/app/cbr/evaluator.py:181-191 | one loop body: the training phone scored against the query |
| Evaluator.ModelEvaluator.PredictLabel | backend/app/cbr/evaluator.py:161-204 | the loop, sort and vote compute the predicted label |
| Evaluator.ModelEvaluator.ClassifyOne | backend/app/cbr/evaluator.py:252-258 | one loop body: the actual and predicted label of a test phone |
| Evaluator.ModelEvaluator.Classify | backend/app/cbr/evaluator.py:241-261 | the loop builds `y_true` and `y_pred` from the pairs, failing exactly as they do |
| Evaluator.ModelEvaluator.FitTransform | backend/app/cbr/evaluator.py:234-238 | fits the preprocessor on the training set (its ranges and encodings those of the training set, other columns' ranges kept) and returns both sets as `transform` makes them under that state: the transformed columns and every cell |
| Evaluator.ModelEvaluator.EvaluateScenario | backend/app/cbr/evaluator.py:206-303 | fails without the files, and then keeps the results; succeeds whenever the test set is not empty and the classification over the transformed frames succeeds; on success appends a result named after the split, with both sizes and percentages, the sanitised weights, metrics in range, the ranges fitted on the training set, and metrics and matrix computed from the k-nearest-neighbour classification of both normalised sets: one pair per test phone of its own label and the vote of its neighbours |
| Evaluator.ModelEvaluator.EvaluateAll | backend/app/cbr/evaluator.py:305-347 | forgets earlier results; on success holds one result per scenario (70/30 by default) under its name, in order, reports the first of highest F1 and summarises them |
| LabelEvaluation.ClassifiedAt | backend/scripts/run_evaluation.py:186-200 | a test row's pair is the phone's own label and the vote for the normalised row's features |
| LabelEvaluation.ClassifiedLabels | backend/scripts/run_evaluation.py:181-200 | one pair per test phone, the actual labels being the test phones' own labels in order |
| LabelEvaluation.ClassifiedAgrees | backend/scripts/run_evaluation.py:128-200 | when the normalised frames have a row per phone, the script labels every test phone exactly as the application's evaluator does |
| LabelEvaluation.PercentagesSpec | backend/scripts/run_evaluation.py:208-229 | the script's percentages are the application's evaluator's, so each lies in [0, 100] |
| LabelEvaluation.ExportedSpec | backend/scripts/run_evaluation.py:363-366 | the export is the result without exactly its two label lists, every other entry unchanged and in order |
| LabelEvaluation.AssignedAbsent | backend/scripts/run_evaluation.py:238 | assigning a new key appends it |
| LabelEvaluation.AssignedPresent | backend/scripts/run_evaluation.py:238 | assigning a present key replaces its value in place |
| LabelEvaluation.LookupUnique | backend/scripts/run_evaluation.py:238 | in a dictionary without repeated keys, a key's entry is the one lookup finds |
| LabelEvaluation.ReplacedLookup | backend/scripts/run_evaluation.py:238 | replacing a value in place keeps the keys, maps the key to its new value and every other key as before |
| LabelEvaluation.AppendedLookup | backend/scripts/run_evaluation.py:238 | appending a new key keeps keys unrepeated, maps it to its value and every other key as before |
| LabelEvaluation.AppendedOther | backend/scripts/run_evaluation.py:238 | appending a key leaves every other key's lookup alone |
| LabelEvaluation.AssignedSpec | backend/scripts/run_evaluation.py:238 | assignment keeps keys unrepeated; the key then maps to the new value and every other key to what it did |
| LabelEvaluation.AssignedAllSpec | backend/scripts/run_evaluation.py:361-366 | the export loop keeps every scenario in place and maps its result |
| LabelEvaluation.BestScenarioSpec | backend/scripts/run_evaluation.py:313 | no results is an error; otherwise the best is an entry whose F1 none beats, the first such |
| LabelEvaluation.LabelBasedEvaluator.Init | backend/scripts/run_evaluation.py:40-53 | a new evaluator holds its weights, `k`, preprocessor and calculator, with no results |
| LabelEvaluation.LabelBasedEvaluator.Create | backend/scripts/run_evaluation.py:40-53 | no weights select the defaults; the evaluator and the calculator both hold them sanitised, as the shared dictionary is sanitised in place; creation fails exactly where they cannot be normalised |
| LabelEvaluation.LabelBasedEvaluator.LoadAndPrepareData | backend/scripts/run_evaluation.py:55-76 | fails exactly when the files cannot be read; otherwise returns both frames, fits the preprocessor on the training one (its ranges and encodings those of the training frame, other columns' ranges kept) and returns both as `transform` makes them under that state: the transformed columns and every cell |
| LabelEvaluation.LabelBasedEvaluator.ExtractFeatures | backend/scripts/run_evaluation.py:78-111 | the loop computes the row's features from its `_norm` columns or their fallbacks |
| LabelEvaluation.LabelBasedEvaluator.ScoreRow | backend/scripts/run_evaluation.py:128-139 | one loop body: a normalised training row scored against the query, with the phone's label |
| LabelEvaluation.LabelBasedEvaluator.PredictLabel | backend/scripts/run_evaluation.py:113-152 | the loop, sort and vote compute the predicted label |
| LabelEvaluation.LabelBasedEvaluator.ScoreRows | backend/scripts/run_evaluation.py:126-139 | one neighbour per normalised training row, stopping at the first failure |
| LabelEvaluation.LabelBasedEvaluator.ClassifyRow | backend/scripts/run_evaluation.py:186-200 | one loop body: the actual and predicted label of a test row |
| LabelEvaluation.LabelBasedEvaluator.Classify | backend/scripts/run_evaluation.py:181-200 | the loop builds `y_true` and `y_pred` from the pairs, failing exactly as they do |
| LabelEvaluation.LabelBasedEvaluator.EvaluateScenario | backend/scripts/run_evaluation.py:154-246 | fails without the files, keeping the results; succeeds whenever the test set is not empty and the classification over the transformed frames succeeds; on success stores under the scenario's name a result with both sizes, `k`, the ranges fitted on the training set, `y_true` the test phones' own labels and `y_pred` the k-nearest-neighbour votes of the classification of both normalised sets, percentages in [0, 100] computed from them, the confusion matrix and the labels |
| LabelEvaluation.LabelBasedEvaluator.SaveMetricsReport | backend/scripts/run_evaluation.py:248-317 | fails exactly without results; otherwise names the best scenario |
| LabelEvaluation.LabelBasedEvaluator.SaveResultsJson | backend/scripts/run_evaluation.py:358-371 | writes one entry per scenario, in order, each the result without its label lists |
| PrepareData.CameraTextMatch | backend/scripts/prepare_data.py:39-41 | a camera text with a `(\d+)\s*MP` match reads as the number of its first match |
| PrepareData.CameraTextFallback | backend/scripts/prepare_data.py:43-46 | without such a match it reads as its first digit run, and as 0 without digits |
| PrepareData.UpperDigitsMp | backend/scripts/prepare_data.py:36 | upper-casing leaves digits and "MP" alone |
| PrepareData.CameraMpReadsBack | backend/scripts/prepare_data.py:32-46 | `str(n) + "MP"` reads back as `n` |
| PrepareData.GamingScore | backend/scripts/prepare_data.py:68-76 | the gaming score is at most 5, and the comparisons raise exactly when a compared cell is not a number |
| PrepareData.GamingScoreSpec | backend/scripts/prepare_data.py:68-78 | the gaming score reaches 4 exactly when RAM is at least 8 and two of battery ≥ 5000, storage ≥ 256 and price ≥ 7,000,000 hold |
| PrepareData.PhotoScore | backend/scripts/prepare_data.py:83-91 | the photo score is at most 4, and it raises exactly when the rating or price is not a number |
| PrepareData.PhotoScoreSpec | backend/scripts/prepare_data.py:83-93 | the photo score reaches 3 exactly with a 64 MP camera and one of rating ≥ 4.3 and price ≥ 5,000,000, or a 48 MP camera and both |
| PrepareData.DetermineLabel | backend/scripts/prepare_data.py:48-97 | the label is always one of Gaming, Photographer and Daily |
| PrepareData.Decision | backend/scripts/prepare_data.py:68-97 | the decision on the values read is one of the three labels |
| PrepareData.AtLeastCanon | backend/scripts/prepare_data.py:69-90 | every positive threshold rejects `NaN` as it rejects 0 |
| PrepareData.GamingScoreCanon | backend/scripts/prepare_data.py:68-76 | the gaming score reads `NaN` as 0 |
| PrepareData.PhotoScoreCanon | backend/scripts/prepare_data.py:83-91 | the photo score reads `NaN` as 0 |
| PrepareData.DecisionCanon | backend/scripts/prepare_data.py:57-97 | the decision reads a `NaN` cell as it reads 0 |
| PrepareData.DetermineLabelSpec | backend/scripts/prepare_data.py:48-97 | an error exactly when a gaming cell is not a number, or the rating is not one for a non-gaming phone; otherwise Gaming, Photographer or Daily exactly as the phone meets the gaming criteria, the photography criteria or neither |
| PrepareData.MissingCountsAsZero | backend/scripts/prepare_data.py:57-61 | an absent, falsy or missing numeric cell gives the label a 0 there would give |
| PrepareData.ZeroedAgrees | backend/scripts/prepare_data.py:57-61 | writing 0 over such a cell changes no cell as the labeller reads it |
| PrepareData.DocstringGamingPhoneIsNotGaming | backend/scripts/prepare_data.py:21-24 | a phone meeting the docstring's gaming criteria (8 GB RAM, 5000 mAh, 6,000,000) with 128 GB storage is labelled Daily by the code |
| PrepareData.AddLabelColumnSpec | backend/scripts/prepare_data.py:99-100 | labelling fails exactly when some row's label does; otherwise every row keeps its cells and gets its own label, one of the three, and the frame gains the `Label` column |
| PrepareData.LabelOfRowOnly | backend/scripts/prepare_data.py:99 | equal rows of any two frames get the same label |
| PrepareData.RoundedPercentagesSum | backend/scripts/prepare_data.py:142 | the two rounded percentages add up to 100, ties included |
| PrepareData.SplitNameIsScenarioName | backend/scripts/prepare_data.py:142-145 | the files are named as the evaluator names the scenario that reads them |
| PrepareData.TrainCount | backend/scripts/prepare_data.py:135-140 | for a ratio in (0, 1) the training part is at most all rows and leaves a test row when there are rows |
| PrepareData.SplitAndSave | backend/scripts/prepare_data.py:131-154 | fails exactly for a ratio outside (0, 1) or an empty training part; otherwise the two parts, both non-empty, together are the shuffled rows, the first holding `floor(ratio · n)` of them, with the frame's columns and the rounded scenario name |
| RegenerateLabels.DropUnderscores | backend/scripts/regenerate_labels.py:37 | dropping the separators of a numeral leaves only its digits |
| RegenerateLabels.DropUnderscoresOfDigits | backend/scripts/regenerate_labels.py:37 | a numeral without separators is left as it is |
| RegenerateLabels.StripUnspaced | backend/scripts/regenerate_labels.py:37 | a text that starts and ends with a non-space is its own `strip()` |
| RegenerateLabels.UnsignedDigits | backend/scripts/regenerate_labels.py:37 | a plain digit run reads as the value of its digits |
| RegenerateLabels.PythonIntReadsBack | backend/scripts/regenerate_labels.py:37 | `int(str(n)) == n` for every integer, negative ones included |
| RegenerateLabels.UnsignedReadsBack | backend/scripts/regenerate_labels.py:37 | an unsigned numeral starting and ending with a digit is read by `int` as its value |
| RegenerateLabels.UnsignedNumeral | backend/scripts/regenerate_labels.py:37 | a numeral without a sign is read as unsigned |
| RegenerateLabels.SignedReadsBack | backend/scripts/regenerate_labels.py:37 | `int("-" + ds)` is the negated value of `ds` |
| RegenerateLabels.NegativeNumeral | backend/scripts/regenerate_labels.py:37 | a leading minus negates the numeral after it |
| RegenerateLabels.ContainsSuffix | backend/scripts/regenerate_labels.py:35 | a text ending in "MP" contains "MP" |
| RegenerateLabels.ReplaceFinalMp | backend/scripts/regenerate_labels.py:37 | removing "MP" from a text whose only 'M' is in its final "MP" leaves the text before it |
| RegenerateLabels.IntStringHasNoM | backend/scripts/regenerate_labels.py:37 | `str(n)` holds neither an 'M' nor a space |
| RegenerateLabels.CameraMpReadsBack | backend/scripts/regenerate_labels.py:29-39 | the camera texts `"<n>MP"` and `"<n> MP"` read as `n` for every integer `n` |
| RegenerateLabels.NumeralThenMp | backend/scripts/regenerate_labels.py:29-39 | any text `int` accepts, followed by "MP", reads as that integer |
| RegenerateLabels.NumeralSpaceMp | backend/scripts/regenerate_labels.py:29-39 | the same with a space before "MP" |
| RegenerateLabels.StripTrailingSpace | backend/scripts/regenerate_labels.py:37 | `strip()` removes a trailing space from an unspaced text |
| RegenerateLabels.AndThen | backend/scripts/regenerate_labels.py:42 | Python's `and` of two comparisons holds exactly when both hold, and raises exactly when the first raises or holds and the second raises |
| RegenerateLabels.AssignLabel | backend/scripts/regenerate_labels.py:17-58 | the label, when there is one, is Gaming, Photographer or Daily |
| RegenerateLabels.Decide | backend/scripts/regenerate_labels.py:41-58 | the four rules' outcome, when there is one, is one of the three labels |
| RegenerateLabels.FirstRule | backend/scripts/regenerate_labels.py:42 | raises exactly at the first compared cell that is not a number; otherwise holds exactly for 12 GB of RAM, a 5000 mAh battery and a 6.5-inch screen |
| RegenerateLabels.ThirdRule | backend/scripts/regenerate_labels.py:50 | raises exactly at the first compared cell that is not a number; otherwise holds exactly for 16 GB of RAM and a 4500 mAh battery |
| RegenerateLabels.FourthRule | backend/scripts/regenerate_labels.py:54 | the screen is compared only for a 50 MP camera; the rule holds exactly with a 6.4-inch screen there |
| RegenerateLabels.AssignLabelSpec | backend/scripts/regenerate_labels.py:17-58 | an error exactly when a reached comparison meets a non-number; Gaming, Photographer and Daily each exactly when the rules, stated together, give them, first rule first |
| RegenerateLabels.DecideSpec | backend/scripts/regenerate_labels.py:41-58 | the same on the values read |
| RegenerateLabels.DecideByRules | backend/scripts/regenerate_labels.py:41-58 | the label in terms of the three comparisons' outcomes, both directions for every label and for the error |
| RegenerateLabels.GamingByRules | backend/scripts/regenerate_labels.py:42-51 | Gaming exactly by the first rule, or by the third when the first and the camera rule do not apply |
| RegenerateLabels.PhotographerByRules | backend/scripts/regenerate_labels.py:46-55 | Photographer exactly by the camera rule after the first rule fails, or by the fourth after both gaming rules fail |
| RegenerateLabels.DailyByRules | backend/scripts/regenerate_labels.py:57-58 | Daily exactly when every rule fails without raising |
| RegenerateLabels.OnlyReadCellsMatter | backend/scripts/regenerate_labels.py:27-31 | no cell but RAM, battery, screen and camera changes the label; the price and the rating among them |
| RegenerateLabels.EmptyRowIsDaily | backend/scripts/regenerate_labels.py:27-30 | a row without any of the cells read gets the defaults and is Daily |
| RegenerateLabels.DefaultCamera | backend/scripts/regenerate_labels.py:29-37 | the default camera text reads as 12 |
| RegenerateLabels.TwelveReads | backend/scripts/regenerate_labels.py:37 | "12" is unspaced, has no 'M' and reads as 12 |
| RegenerateLabels.DefaultsDecide | backend/scripts/regenerate_labels.py:27-58 | the default values meet no rule |
| RegenerateLabels.RelabelSpec | backend/scripts/regenerate_labels.py:61-84 | regeneration fails exactly when some row's label does; otherwise every row keeps its other cells and its `Label` is its own rule-based label |
| RegenerateLabels.RelabelIdempotent | backend/scripts/regenerate_labels.py:77 | regenerating a regenerated frame changes nothing |
| RegenerateLabels.LabelsIgnoreLabelColumn | backend/scripts/regenerate_labels.py:77 | whatever the `Label` column holds, every row's new label is the same |
| Text.FirstMpNumberIsSearch | backend/app/utils/preprocessing.py:91-93 | the MP reading is `re.search(r'(\d+)\s*MP', s)`: the group of the leftmost match, and nothing exactly when the pattern matches nowhere |
| Text.FirstNumberIsSearch | backend/scripts/prepare_data.py:43-45 | the fallback reading is `re.search(r'(\d+)', s)`: the digit run at the first digit, and nothing exactly when there is no digit |
| Text.NatStringValue | backend/scripts/prepare_data.py:32-46 | `str(n)` is a digit run whose value is `n` |
| Numbers.Trunc | backend/app/utils/data_loader.py:138-140 | `int(x)` truncates toward zero, for negative `x` too |
| Numbers.RoundHalfEven | backend/scripts/prepare_data.py:142 | `round(x)` is within half a unit of `x` |
| Numbers.RoundToMonotone | backend/app/cbr/evaluator.py:272-279 | rounding to `d` places never reverses two numbers' order |
| Numbers.RoundToWhole | backend/app/cbr/evaluator.py:272-279 | rounding leaves a whole number as it is |
| Numbers.RoundToClose | backend/app/cbr/evaluator.py:272-279 | rounding to `d` places moves a number by at most half a unit in the last place |
| Numbers.RoundToAtLeast | backend/app/cbr/evaluator.py:272-279 | a value at least a whole bound stays at least it after rounding |
| Numbers.RoundToAtMost | backend/app/cbr/evaluator.py:272-279 | a value at most a whole bound stays at most it after rounding |
| Sorting.Filter | backend/app/routes/recommendation.py:142-149 | a filter keeps exactly the elements that pass it, and no more than there were |
| Sorting.FilterTwice | backend/app/routes/recommendation.py:142-149 | two filters in a row keep what both keep, in order |
| Sorting.FilterDropsSlice | backend/scripts/run_evaluation.py:363-366 | a filter that rejects exactly a slice's positions removes that slice |
| Sorting.Take | backend/app/cbr/cbr_engine.py:163 | `s[:k]` holds the first `k` elements, or all of them |
| Sorting.Drop | backend/app/utils/data_loader.py:265-266 | `s[k:]` is what `s[:k]` leaves |
| Sorting.Sort | backend/app/cbr/cbr_engine.py:160 | the sorted list is a permutation of its input |
| Sorting.SortSorted | backend/app/cbr/cbr_engine.py:160 | sorting by a total preorder gives an ordered list |
| Sorting.SortTiesInOrder | backend/app/cbr/cbr_engine.py:461 | the sort is stable: equal keys keep their input order |
| Values.AtLeast | backend/scripts/prepare_data.py:69-90 | `v >= t` raises exactly for a cell that is not a number, and is false for `NaN` |
| Values.Frame.Column | backend/app/routes/admin.py:305-315 | `df[c]` has one cell per row, that row's cell |
| Values.Frame.WithColumn | backend/scripts/prepare_data.py:99 | `df[c] = values` writes one value into every row and adds the column once |
| Values.Frame.WithColumnTwice | backend/scripts/regenerate_labels.py:77 | writing a column twice is writing it once |
| Values.ValueLeIsPreorder | backend/app/routes/recommendation.py:152-154 | the ascending cell order, missing cells last, is a total preorder |
| Values.ValueGeIsPreorder | backend/app/routes/recommendation.py:152-154 | so is the descending one |
| Values.StrLeTotal | backend/app/routes/recommendation.py:152-154 | any two strings compare one way or the other |
| Values.StrLeTransitive | backend/app/routes/recommendation.py:152-154 | string comparison is transitive |
| Values.ApplyRowsSpec | backend/scripts/prepare_data.py:99 | `df.apply(f, axis=1)` gives `f` of every row, or fails with the first failing row's error |
| Values.ApplyRowsPointwise | backend/scripts/prepare_data.py:99 | rows `f` cannot tell apart give the same outcome |

## Left out

- File and output I/O is not modelled: reading the Excel catalogue, CSV and JSON files, the metrics report text, the confusion-matrix plot (`backend/scripts/run_evaluation.py:319-356`), `save_raw_data` and the file writes of `preprocess_and_save` (`backend/scripts/prepare_data.py:103-128`). Frames arrive as parameters and the files written are the returned values, because no file system is modelled.
- Logging, `print` and the display strings are left out because they do not change what is computed. This covers the explanation texts, highlight texts, messages and timestamps. The values they are built from are modelled.
- The FastAPI plumbing is left out. This covers request models, validators as HTTP errors, `HTTPException` status codes and the singleton factories `get_cbr_engine`, `get_evaluator`, `get_preprocessor` and `get_data_loader`. The handlers are modelled as the operations they perform on a given engine or loader.
- Several routes are not modelled because they are thin compositions of modelled operations:
  - `get_current_weights` (`backend/app/routes/admin.py:53-84`) is `GetWeights` plus a total;
  - `get_recommendations` (`backend/app/routes/recommendation.py:33-86`) is `SetWeights` followed by `Recommend`;
  - the `statistics`, `brands` and `price-ranges` routes (`backend/app/routes/recommendation.py:229-302`) and the brand, OS and RAM distributions of the dashboard (`backend/app/routes/admin.py:288-342`) are value counts the loader statistics already cover;
  - the evaluation routes are HTTP wrappers around `ModelEvaluator`.
- `main` of the three scripts (`backend/scripts/prepare_data.py:157`, `backend/scripts/regenerate_labels.py:87-100`, `backend/scripts/run_evaluation.py:374-424`) is left out because it only wires paths to the modelled functions.
- Python `float` is modelled as exact `real`. `round(x, d)` is exact half-even rounding. Float artefacts such as `int((1 - 0.8) * 100) == 19` are not reproduced, so scenario names use whole percentages.
- `sqrt` is a parameter of the distance calculator. It is constrained only by `IsSqrt`: non-negative, and squaring back to its argument on non-negative input. A real square root cannot be defined in the language.
- Shuffling is an arbitrary given permutation. This covers pandas `sample(frac=1, random_state=...)` in `split_train_test` and the shuffle inside `train_test_split`. The stratification of `train_test_split` (`backend/scripts/prepare_data.py:135-140`) is not modelled. `PrepareData.SplitAndSave` states the sizes and contents of the two parts of the shuffled rows, but not that the label proportions are kept.
- The sklearn metric functions are not modelled as library calls. Accuracy, precision, recall and F1 are defined from the confusion matrix, and no bit-equivalence with sklearn is claimed.
- `fit_transform` (`backend/app/utils/preprocessing.py:226-236`) is `Fit` followed by `Transform`. `get_normalization_params`, `get_validation_errors`, `to_dict_list`, `load_processed_data`, `generate_visualization_data` and `export_results` are left out because they only copy state out or read files.
- The engine and the calculator share one weights dictionary in Python. The model keeps one copy in the calculator and lets the engine read it there; the aliasing itself is not modelled.
- PrepareData.CameraMp: a numeric camera cell is read as the integer part of its magnitude. Python prints floats of magnitude at least 1e16 or below 1e-4 in exponent notation, which would give a different first digit run, and this is not modelled.
- RegenerateLabels.PythonInt: only ASCII digits and ASCII whitespace are recognised. The non-ASCII Unicode digits and spaces that Python's `int` also accepts are not modelled.
- LabelEvaluation.LabelBasedEvaluator.ScoreRow: the label `idx` in `train_df.loc[idx, 'Label']` is read as a row position. The frames come from CSV files with the default index, where the two agree. A frame with any other index is not modelled.
- RecommendationRoutes.SortRows: pandas `sort_values` uses an unstable quicksort. The model therefore promises only an ordered permutation of the filtered rows, not which of several equal rows comes first.
- WeightedEuclidean.Calculator.Distance: `IsSqrt` makes the square root non-negative for every argument, so the distance is always a non-negative real. In the source, weights with mixed signs make the weighted squared sum negative and `np.sqrt` gives `NaN` (`backend/app/cbr/weighted_euclidean.py:140`). Such weights pass `validate_weights`, which checks only the total and zeros (`Admin.MixedSignWeightsAccepted`), and `custom_weights` of a recommendation request are not validated at all. The `NaN` distance is not modelled.
- WeightedEuclidean.Calculator.SimilarityOf: the similarity is promised in (0, 1] only because the distance abstraction is non-negative; the source's `NaN` similarity for a negative weighted squared sum is not modelled.
- WeightedEuclidean.DistanceWith: inherits the non-negative distance of `Calculator.Distance`; the `NaN` for mixed-sign weights is not modelled.
- WeightedEuclidean.SimilarityWith: inherits the (0, 1] similarity of `Calculator.SimilarityOf`; the `NaN` for mixed-sign weights is not modelled.
- CbrEngine.CaseSimilarity: inherits the (0, 1] similarity. In the source a `NaN` similarity fails `similarity >= min_similarity` (`backend/app/cbr/cbr_engine.py:154`), so `retrieve` drops a case that the model may keep under mixed-sign weights.
- CbrEngine.Engine.Retrieve: under mixed-sign weights it scores the cases that the source drops with a `NaN` similarity, as `CaseSimilarity` says.
- Evaluator.NeighbourAt: inherits the (0, 1] similarity; the `NaN` similarities that mixed-sign weights give in the source, and their place in the sort, are not modelled. The same holds for `LabelEvaluation.LabelBasedEvaluator.ScoreRow`.
- Preprocessing.MedianDefined: `Median` skips the text cells of a column and takes the median of its numbers. pandas `median()` raises on a column that holds text (`backend/app/utils/preprocessing.py:121`); that error is not modelled.
- Preprocessing.Preprocessor.NormalizeNumber: a `NaN` on a column without a fitted range is dropped from the query, because a query holds reals. The source returns the `NaN` unchanged and stores it in the query (`backend/app/utils/preprocessing.py:252-253`), where it makes every distance `NaN`.
- Catalog.OptionsSpec: the options hold only the column's finite numbers and are promised strictly increasing. `sorted(df['Ram'].unique().tolist())` keeps a `NaN` cell, and its place in the sorted list is not defined (`backend/app/utils/data_loader.py:142-143`); that is not modelled.
- Catalog.Ge: comparing a number with text is false here. pandas raises `TypeError` for it (`backend/app/utils/data_loader.py:190`); that error is not modelled.
- Catalog.Le: comparing a number with text is false here. pandas raises `TypeError` for it (`backend/app/utils/data_loader.py:192`); that error is not modelled.
- Evaluator.FeatureCell: every text cell is an error, numeric text such as `"48"` included. Python's `float()` converts numeric text (`backend/app/cbr/evaluator.py:151`); that conversion is not modelled.
- CbrEngine.IntOf: every text cell is an error, numeric text such as `"8"` included. Python's `int()` converts such text; that conversion is not modelled.
- Text.Upper: only ASCII letters change case. Python's `str.upper` is Unicode-wide, which matters for camera texts with non-ASCII letters; that is not modelled.
- Text.Lower: only ASCII letters change case. Python's `str.lower` is Unicode-wide, which matters for the brand and OS comparisons (`backend/app/routes/recommendation.py:143`); that is not modelled. The `\d` and `\s` classes of the camera regexes are likewise read as ASCII digits and ASCII whitespace.
- Evaluator.ModelEvaluator.EvaluateScenario: an empty test set is an error here. The source has no such check and passes empty label lists to the sklearn metrics, whose results on them are not modelled.
- LabelEvaluation.LabelBasedEvaluator.EvaluateScenario: an empty test set is an error here, as in `ModelEvaluator.EvaluateScenario`; the source passes empty label lists to sklearn.
- Preprocessing.ColumnMin: the minimum of a column is taken over its numbers, skipping text. pandas `min()` raises `TypeError` on a column that mixes text and numbers, and gives the least string for a column of text only (`backend/app/utils/preprocessing.py:180`); neither is modelled. The catalogue loader only records a non-numeric `Harga` or `Ram` as a validation problem (`backend/app/utils/data_loader.py:92-98`), so such a column can reach it.
- Preprocessing.ColumnMax: as `ColumnMin`, for `max()` (`backend/app/utils/preprocessing.py:181`).
- Preprocessing.ColumnRange: the range it states is that of the column's numbers, where pandas raises for text mixed with numbers, as `ColumnMin` says.
- Preprocessing.Preprocessor.FitRanges: records the range of a numeric column's numbers even when the column holds text, where pandas `min()`/`max()` raise; that error is not modelled.
- Preprocessing.Preprocessor.Fit: fits a frame with text in a numeric column, where pandas raises in `min()`/`max()` (and already in the median fill, as `MedianDefined` says); that error is not modelled. This carries over to `Evaluator.ModelEvaluator.FitTransform`, `LabelEvaluation.LabelBasedEvaluator.LoadAndPrepareData` and `CbrEngine.Engine.LoadCaseBase`.
- Preprocessing.NormCell: a text cell in a fitted numeric column becomes `NaN` in its `_norm` copy. The pandas subtraction `df[col] - min_val` raises `TypeError` on it (`backend/app/utils/preprocessing.py:220`); that error is not modelled.
- Preprocessing.Preprocessor.Transform: fails exactly when unfitted. The `TypeError` that pandas raises for a text cell in a fitted numeric column, as `NormCell` says, is not modelled.
- Catalog.PriceSummary: the minimum, maximum and mean are taken over the numeric prices, skipping text. pandas `min()`, `max()` and `mean()` raise `TypeError` on a price column that mixes text and numbers (`backend/app/utils/data_loader.py:138-140`); that error is not modelled.
- Catalog.NextId: the next id is one above the largest numeric id, skipping text ids. pandas `max()` raises `TypeError` on an id column that mixes text and numbers (`backend/app/utils/data_loader.py:216`); that error is not modelled.
- Catalog.DataLoader.AddNewCase: fails exactly without an id column. The `TypeError` of `max()` on an id column holding text, as `NextId` says, is not modelled, so such a catalog takes the phone where the source raises.
- CbrEngine.Engine.Retain: succeeds on a catalog whose id column holds text as well as numbers, where `add_new_case` raises and `retain` returns False; see `NextId`. `Admin.AddNewPhone` inherits this.
- Admin.DeletePhone: rows are addressed by position, and a position is the row's index label. In pandas, filtering a frame keeps the old labels, and `retrieve` reads `case_base.iloc[idx]` with the label `idx` that `iterrows` gives. So the corrected deletion also needs `reset_index(drop=True)` on both frames (or `loc` in `retrieve`); the renumbering is not modelled separately.

## Findings

| source | as written | input that shows it | evidently intended | confidence | as-written member | corrected member |
|---|---|---|---|---|---|---|
| backend/app/routes/admin.py:365 | `delete_phone` removes the phone from `case_base` and from the loader's frame, but leaves `case_base_normalized` as it was | an aligned catalogue, a delete of an id that some phone has, then a retrieval in which the last normalised row passes the threshold: retrieval pairs normalised rows with the wrong phones and reads past the end of `case_base` | the normalised frame loses the same row and both frames are renumbered with `reset_index(drop=True)`, so the two stay aligned and every label `iterrows` gives is also the position `iloc` reads; filtering both frames without renumbering leaves a gap in the labels, so after deleting label 2 of 5, label 3 would read `iloc[3]`, the phone labelled 4 | not executed | Admin.DeletePhoneAsWritten, Admin.StaleFrameBreaksRetrieval | Admin.DeletePhone, Admin.WithoutKeepsAligned |
