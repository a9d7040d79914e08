# Adaptive conformal search bookkeeping, in Dafny

This project models the bookkeeping in `confopt/estimation.py` (the ACHO
hyperparameter search library) that sits around its scikit-learn regressors:

- **Adaptive interval controllers.** `ACI` and `DtACI` move a miscoverage
  level `alpha_t` from breach feedback. `BaseACI`, which cannot be updated
  itself, becomes the sum type `Controllers.Adapter` over the two concrete
  controllers (module `Controllers`).
- **Quantile intervals.** `QuantileInterval` and `QuantileIntervalSequence`
  flatten and pair quantile levels (module `Intervals`). Python's
  `list.sort()` is `RealSeq.Sort` with its in-place form `RealSeq.SortInPlace`.
- **Interval samplers.** `UCBSampler` keeps one symmetric level pair, a step
  counter and an exploration weight. `ThompsonSampler` keeps an even number
  of nested levels with one controller per pair (module `Samplers`).
- **Hyperparameter selection.** `average_scores_across_folds`, the
  fold-by-fold scoring of `cross_validate_configurations`, and the
  first-argmin choice in `_tune_component_estimator` and `_tune` (module
  `Tuning`).
- **Conformal searchers.** `LocallyWeightedConformalSearcher` and
  `QuantileConformalRegression` (module `Engines`). Their score, gate, band
  and breach arithmetic lives in module `Conformal`.

## How the model is organised

- Mutable source objects become classes: `Aci`, `DtAci` (which keeps its
  experts and weights in arrays), `UcbSampler`, `ThompsonSampler`,
  `QuantileIntervalSequence` and the two searchers. Their methods carry
  `modifies` clauses, and each class has a `Valid()` invariant that its
  methods keep.
- Loops in the source become `while` loops, proved against a specification
  function:
  - `StepExperts`, `ScaleInPlace` and `MixInPlace` (the `DtACI` weight
    update);
  - `ComputeAlphas`, `StepAdapters` and `BuildAdapters` (the Thompson
    sampler);
  - `PairEnds` (`from_flattened_list`);
  - `AverageScoresAcrossFolds`, `CrossValidate` and `ScoreFold`;
  - `ThompsonIndexedScores`, `ComputeSignedScores`, `PickLowerBounds` and
    `CollectBreaches`.
- Python exceptions are `Result` and `Option<Error>` values. The errors are
  `ValueError`s from validation, `ZeroDivisionError`, `IndexError`,
  `KeyError`, the `AttributeError` raised by a missing attribute, and the
  shape error of a numpy stack that cannot be formed.
- Estimator predictions are inputs: one row per example and one column per
  fitted level. The pieces the model does not interpret become parameters:
  - `np.exp` is a parameter, positive everywhere;
  - `np.log` is a parameter, uninterpreted;
  - `np.quantile` is a parameter `quantileOf(scores, level)`, uninterpreted;
  - each `random.choice` draw is an index parameter `picks[i]`;
  - whether an estimator's `fit` and `predict` succeed on a fold is a
    parameter `fits(fold, configuration)`; a failure there aborts
    cross-validation, because those calls sit outside the `try`;
  - the loss of an estimator on a fold is a parameter
    `score(fold, configuration)`, which is `None` when the scoring inside the
    `try` raised and the pair was skipped.

## Model

| member | source | states |
|---|---|---|
| `Controllers.AciStep` | confopt/estimation.py:162-163 | one ACI step always lands in [0.01, 0.99] |
| `Controllers.Aci.constructor` | confopt/estimation.py:115-125 | `alpha_t` starts at `alpha`, with the given step size |
| `Controllers.Aci.Update` | confopt/estimation.py:151-164 | `alpha_t` becomes the clamped integral step of the old one, and the returned value is that new `alpha_t`, in [0.01, 0.99] |
| `Controllers.AciRunBounded` | confopt/estimation.py:151-164 | after at least one update `alpha_t` lies in [0.01, 0.99], whatever the breach sequence |
| `Controllers.AciBreachNeverIncreases` | confopt/estimation.py:162-163 | with `alpha <= 1` and `gamma >= 0`, a breach never raises an `alpha_t` of at least 0.01 |
| `Controllers.AciMissStep` | confopt/estimation.py:162-163 | a breach lowers `alpha_t` by `gamma * (1 - alpha)`, stopping at 0.01 |
| `Controllers.AciMissesDescent` | confopt/estimation.py:151-164 | `k` consecutive breaches are `k` such pinned descents |
| `Controllers.AciMissesClosedForm` | confopt/estimation.py:151-164 | after `k` consecutive breaches, `alpha_t` is `max(0.01, alpha_t - k * gamma * (1 - alpha))` |
| `Controllers.AciMissesPinned` | confopt/estimation.py:151-164 | enough consecutive breaches pin `alpha_t` at 0.01 |
| `Controllers.AciRunMonotone` | confopt/estimation.py:151-164 | over any breach sequence, starting lower never ends higher |
| `Controllers.AciStepMonotone` | confopt/estimation.py:162-163 | one step is monotone in `alpha_t` |
| `Controllers.AciMissesMonotone` | confopt/estimation.py:151-164 | under consecutive breaches `alpha_t` never increases from one step to the next |
| `Controllers.AciFiveMissesScenario` | confopt/estimation.py:162-163 | with `alpha = 0.1` and `gamma = 0.05`, breaches give 0.055, then 0.01, and 0.01 after five |
| `Controllers.CheckParameters` | confopt/estimation.py:178-187 | no error exactly when the parameters are valid; each error exactly when its check is the first one to fail, in the constructor's order |
| `Controllers.ExpertsStep` | confopt/estimation.py:217-220 | each expert moves by exactly `gamma_i * (alpha - breach)` |
| `Controllers.MixSumsToOne` | confopt/estimation.py:229-231 | the mixed weights add up to one |
| `Controllers.MixLowerBound` | confopt/estimation.py:229-231 | each mixed weight is at least `sigma / K` |
| `Controllers.MixPositive` | confopt/estimation.py:229-231 | positive weights stay positive |
| `Controllers.MixScaleInvariant` | confopt/estimation.py:223-231 | scaling every weight by one shared positive factor leaves the mixed weights unchanged |
| `Controllers.MixUniformFixed` | confopt/estimation.py:199-231 | uniform weights are a fixed point of the mixing |
| `Controllers.WeightsStayUniform` | confopt/estimation.py:199-231 | uniform weights scaled by any positive factor mix back to uniform |
| `Controllers.MixKeepsWeightsValid` | confopt/estimation.py:226-231 | scaling and mixing keep the weights positive and summing to one, each at least `sigma / K` |
| `Controllers.WeightsStep` | confopt/estimation.py:222-231 | the weight update keeps the weights valid and above the `sigma / K` floor |
| `Controllers.WeightsStepUniform` | confopt/estimation.py:199-231 | starting uniform, the weights stay at `1 / K` |
| `Controllers.DtAci.constructor` | confopt/estimation.py:189-201 | every expert starts at `alpha`, and the weights start uniform and valid |
| `Controllers.DtAci.Update` | confopt/estimation.py:203-239 | a breach outside {0, 1} is rejected with nothing changed; with no experts the division by zero raises with nothing changed; otherwise the experts and weights take their steps, the weights stay valid and above the floor (uniform ones stay uniform), and the returned value is the clipped weighted average, in [0, 1] |
| `Controllers.StepExperts` | confopt/estimation.py:217-220 | the loop leaves the array holding `ExpertsStep` of its old contents |
| `Controllers.StepWeights` | confopt/estimation.py:222-231 | the two in-place weight updates leave the array holding `WeightsStep` of its old contents |
| `Controllers.ScaleInPlace` | confopt/estimation.py:226-226 | every weight is multiplied by the factor, in place |
| `Controllers.MixInPlace` | confopt/estimation.py:229-231 | the array holds the mixed weights of its old contents |
| `Controllers.CreateDtAci` | confopt/estimation.py:168-201 | construction fails exactly when a check fails, with that check's error; `None` selects the eight default step sizes |
| `Controllers.AdapterStepFacts` | confopt/estimation.py:151-239 | an update returns a level in [0, 1] (ACI: in [0.01, 0.99]); it fails only for DtACI, exactly for a breach outside {0, 1} or no experts; a failed update leaves the state as it was |
| `Controllers.UpdateAdapter` | confopt/estimation.py:601-601 | `adapter.update` on either variant does what `AdapterStep` says, and keeps the adapter valid |
| `Controllers.CreateAdapter` | confopt/estimation.py:579-583 | `ACI` always builds; `DtACI` fails, with `AlphaOutOfRange`, exactly for `alpha` outside (0, 1); a built adapter is `BuiltFor` the framework and `alpha`: the framework's variant with that `alpha` and the default parameters, in its initial state (eight experts at `alpha`, uniform weights, for DtACI) |
| `RealSeq.Clip` | confopt/estimation.py:237-237 | the result lies in `[lo, hi]`, and a value already inside is kept |
| `RealSeq.UniformSumsToOne` | confopt/estimation.py:199-201 | `K` weights of `1 / K` add up to one |
| `RealSeq.SortFacts` | confopt/estimation.py:542-542 | sorting yields an ascending permutation |
| `RealSeq.SortedUnique` | confopt/estimation.py:542-542 | two ascending lists with the same elements are equal, so `list.sort()` has one possible result |
| `RealSeq.SortOfSorted` | confopt/estimation.py:547-547 | sorting an ascending list leaves it as it is |
| `RealSeq.SortInPlace` | confopt/estimation.py:547-547 | the array afterwards holds its old elements, sorted |
| `Intervals.Flatten` | confopt/estimation.py:538-540 | flattening yields two levels per interval |
| `Intervals.FlattenPositions` | confopt/estimation.py:538-540 | interval `i` supplies positions `2i` and `2i + 1`, lower level first |
| `Intervals.PairUpNested` | confopt/estimation.py:546-555 | pairing an ascending list gives nested intervals, outermost first, each with `lower <= upper` |
| `Intervals.FlattenPairUpMultiset` | confopt/estimation.py:549-555 | the pairs hold every element of the list except the unpaired middle one of an odd length |
| `Intervals.RoundTripSorted` | confopt/estimation.py:537-555 | pairing an ascending list of even length, then flattening and sorting, gives the list back |
| `Intervals.ToFromFlattened` | confopt/estimation.py:537-559 | `to_flattened_list(from_flattened_list(l))` is `sorted(l)` for every even-length `l` |
| `Intervals.FromToFlattened` | confopt/estimation.py:537-559 | `from_flattened_list(to_flattened_list(qs))` gives back `qs` exactly when `qs` is nested |
| `Intervals.OddDropsMiddle` | confopt/estimation.py:547-555 | on an odd length exactly the middle element of the sorted list is lost |
| `Intervals.QuantileIntervalSequence.constructor` | confopt/estimation.py:526-529 | the sequence holds the given optional list |
| `Intervals.QuantileIntervalSequence.Append` | confopt/estimation.py:531-532 | adds one interval at the end, or raises on a missing list and leaves it missing |
| `Intervals.QuantileIntervalSequence.Extend` | confopt/estimation.py:534-535 | adds the intervals at the end, or raises on a missing list |
| `Intervals.QuantileIntervalSequence.ToFlattenedList` | confopt/estimation.py:537-544 | a missing list raises; otherwise the result is the ascending permutation of every interval's two levels |
| `Intervals.QuantileIntervalSequence.FromFlattenedList` | confopt/estimation.py:546-559 | the caller's list is left sorted; the new sequence pairs it ends inwards into `floor(n / 2)` nested intervals |
| `Intervals.PairEnds` | confopt/estimation.py:548-555 | the loop pairs position `i` with position `n - 1 - i` for `i < n / 2` |
| `Samplers.SymmetricPair` | confopt/estimation.py:584-584 | the pair sums to one, is `1 - alpha` wide and, for `alpha` in [0, 1], brackets the median |
| `Samplers.BetaAfterLast` | confopt/estimation.py:593-598 | after one step or more, the exploration weight depends only on the last counter |
| `Samplers.UcbSampler.constructor` | confopt/estimation.py:573-585 | `alpha = 1 - interval_width`, the pair is symmetric about it, and `t = 1` |
| `Samplers.UcbSampler.FetchQuantiles` | confopt/estimation.py:590-591 | the fetched interval starts at `alpha / 2`, sums to one and is `1 - alpha` wide |
| `Samplers.UcbSampler.UpdateExplorationStep` | confopt/estimation.py:593-598 | `t` advances by exactly one, `beta` follows the schedule at the old `t`, and nothing else changes |
| `Samplers.UcbSampler.UpdateIntervalWidth` | confopt/estimation.py:600-602 | a missing adapter raises; otherwise the adapter's step decides: on success `alpha` becomes its level and the pair stays symmetric about it, and on failure nothing but the adapter's own unchanged state is touched |
| `Samplers.CreateUcbSampler` | confopt/estimation.py:563-585 | fails, with `AlphaOutOfRange`, exactly when a DtACI adapter is asked for with `1 - interval_width` outside (0, 1); otherwise a valid sampler at `alpha = 1 - interval_width` with an adapter exactly when a framework was given, built for that framework at that `alpha` |
| `Samplers.InitialQuantiles` | confopt/estimation.py:615-618 | `n` levels for `n > 0`, none otherwise |
| `Samplers.InitialQuantilesSorted` | confopt/estimation.py:615-618 | the initial levels are ascending |
| `Samplers.PairAlphas` | confopt/estimation.py:620-624 | one alpha per level pair |
| `Samplers.PairAlphasArePairMiscoverage` | confopt/estimation.py:621-624 | `alphas[i] = 1 - (q[n - 1 - i] - q[i])`, one minus the width of pair `i` |
| `Samplers.PairAlphasOrdered` | confopt/estimation.py:620-624 | on ascending levels, outer pairs have the smaller alphas and all alphas are at most one |
| `Samplers.ComputeAlphas` | confopt/estimation.py:620-624 | the loop computes `PairAlphas` of the levels |
| `Samplers.LevelsAreFlattenedIntervals` | confopt/estimation.py:648-651 | the update loop's level list is the flattening of each alpha's central interval |
| `Samplers.LevelsSortMultiset` | confopt/estimation.py:651-653 | the levels of sorted alphas are a permutation of the levels |
| `Samplers.CentredNested` | confopt/estimation.py:648-654 | central intervals of ascending alphas in [0, 1] are nested |
| `Samplers.FetchAfterUpdate` | confopt/estimation.py:639-654 | after an update, fetching the levels gives the central intervals of the alphas in ascending order |
| `Samplers.ThompsonSampler.constructor` | confopt/estimation.py:613-634 | the sampler holds the given levels, alphas and adapters |
| `Samplers.ThompsonSampler.FetchQuantiles` | confopt/estimation.py:639-643 | a fresh sequence of the levels paired ends inwards, nested, whose flattening sorts back to the levels |
| `Samplers.ThompsonSampler.UpdateIntervalWidth` | confopt/estimation.py:645-654 | missing adapters raise; otherwise adapter `k` takes breach `k` as far as the shorter list reaches; on success the alphas are the returned levels and the level list is their sorted symmetric pairs; a failing adapter stops the loop, with the earlier adapters updated and alphas and levels unchanged |
| `Samplers.ThompsonSampler.SetLevels` | confopt/estimation.py:652-654 | the alphas and the sorted levels are replaced and the adapters are left alone |
| `Samplers.StepAdapters` | confopt/estimation.py:648-651 | the loop feeds breach `k` to adapter `k` and collects the levels, stopping at the first failure, with the adapters after it untouched |
| `Samplers.StepAdapterAt` | confopt/estimation.py:649-649 | one adapter takes its step and the others keep their state |
| `Samplers.CreateThompsonSampler` | confopt/estimation.py:606-634 | fails exactly for an odd count (`OddQuantileCount`) or for DtACI with a pair alpha outside (0, 1) (`AlphaOutOfRange`); otherwise the levels are `InitialQuantiles(n)`, the alphas are their pair alphas, and there are adapters exactly when a framework was given, adapter `k` built for that framework at `alphas[k]` |
| `Samplers.BuildAdapters` | confopt/estimation.py:626-634 | fails, with `AlphaOutOfRange`, exactly for DtACI with some alpha outside (0, 1); otherwise one fresh valid adapter per alpha, adapter `k` built for the framework at `alphas[k]` |
| `Samplers.AppendAdapter` | confopt/estimation.py:629-634 | fails, with `AlphaOutOfRange`, exactly for DtACI with `alpha` outside (0, 1); otherwise keeps the adapters and adds one fresh valid adapter built for the framework at `alpha`, sharing nothing with the others |
| `Tuning.IndexOf` | confopt/estimation.py:371-371 | `list.index`: the first position holding the value |
| `Tuning.MinOf` | confopt/estimation.py:738-738 | `min` of a non-empty list is one of its elements and at most every element |
| `Tuning.DedupMembers` | confopt/estimation.py:368-377 | the aggregated configurations are exactly the input configurations |
| `Tuning.DedupDistinct` | confopt/estimation.py:368-377 | no configuration is aggregated twice |
| `Tuning.DedupFirstAppearance` | confopt/estimation.py:368-377 | the aggregated configurations keep the order of their first appearance |
| `Tuning.DedupOfDistinct` | confopt/estimation.py:368-377 | a list without repeats is kept as it is |
| `Tuning.Averages` | confopt/estimation.py:379-381 | one average per distinct configuration |
| `Tuning.DistinctAveragesUnchanged` | confopt/estimation.py:360-383 | without repeats every average is the configuration's single score |
| `Tuning.MeanWithinBounds` | confopt/estimation.py:379-381 | an average lies within any bounds that hold every score |
| `Tuning.AverageScoresAcrossFolds` | confopt/estimation.py:360-383 | as far as the shorter input reaches: the distinct configurations in order of first appearance, each with the mean of every score paired with an equal configuration |
| `Tuning.AddScore` | confopt/estimation.py:368-377 | one pass of the first loop keeps totals and counts per distinct configuration |
| `Tuning.FirstArgMin` | confopt/estimation.py:738-738 | the first position of a least score |
| `Tuning.FirstArgMinUnique` | confopt/estimation.py:738-738 | a position that is least and first among the least is the one chosen |
| `Tuning.SelectBest` | confopt/estimation.py:738-738 | no scores raise; otherwise the configuration at the first least score, when the configurations reach that far |
| `Tuning.Candidates` | confopt/estimation.py:725-727 | the sampled configurations followed by the default one |
| `Tuning.FoldPairs` | confopt/estimation.py:438-492 | a fold contributes at most one pair per configuration |
| `Tuning.FoldPairsComplete` | confopt/estimation.py:438-492 | when every scoring succeeds, a fold scores each configuration once, in order |
| `Tuning.ScoreFold` | confopt/estimation.py:438-492 | with at least one configuration, a quantile architecture without quantile levels raises `MissingQuantiles`; otherwise a failing fit or predict raises; otherwise the fold's scored pairs, skipping configurations whose scoring raised |
| `Tuning.CrossValidate` | confopt/estimation.py:386-498 | the missing-quantiles error; else the estimator's error when a fit or predict failed on any fold; else the distinct scored configurations with their mean scores over all folds |
| `Tuning.ScoredPairsFromCandidates` | confopt/estimation.py:432-492 | every scored configuration is one of the candidates |
| `Tuning.Tune` | confopt/estimation.py:720-740 | the missing-quantiles error; else the estimator's error when some candidate's fit or predict failed; else the first candidate of least mean score |
| `Tuning.TunedIsCandidate` | confopt/estimation.py:725-738 | the tuned configuration is a sampled one or the default |
| `Tuning.TunedIsBest` | confopt/estimation.py:729-738 | no scored candidate has a lower mean score than the tuned one |
| `Tuning.ComponentParameters` | confopt/estimation.py:779-790 | at most one tuning iteration gives the default configuration; otherwise exactly what `Tune` gives: `MissingQuantiles` for a quantile estimator without quantiles, `EstimatorFailed` when a fit or predict fails, else `TuneOutcome`, the first distinct scored candidate of least mean; an Ok result is always a candidate |
| `Conformal.PyIndex` | confopt/estimation.py:1253-1256 | Python indexing: defined exactly for `-len <= idx < len`, a negative index counting from the end |
| `Conformal.Column` | confopt/estimation.py:1211-1211 | `rows[:, j]`: entry `j` of every row |
| `Conformal.FloorVariance` | confopt/estimation.py:897-897 | the divisor is positive and is the prediction when that is positive |
| `Conformal.ClipVariance` | confopt/estimation.py:930-930 | the spread is non-negative and at least the prediction |
| `Conformal.LwScores` | confopt/estimation.py:896-901 | one non-negative score per validation point |
| `Conformal.LwScoreCoverage` | confopt/estimation.py:899-901 | a point's score is at most `q` exactly when the band of half-width `q` times its spread covers it |
| `Conformal.LwUcbRows` | confopt/estimation.py:936-943 | one two-column row per prediction |
| `Conformal.LwUcbRowsCentred` | confopt/estimation.py:936-943 | with non-negative weight and score quantile, the band is centred on the prediction and contains it |
| `Conformal.LwThompsonRow` | confopt/estimation.py:950-958 | two columns per alpha |
| `Conformal.LwThompsonRowPairs` | confopt/estimation.py:950-958 | columns `2k` and `2k + 1` are the prediction minus and plus the `k`-th score quantile times the spread |
| `Conformal.LwThompsonRows` | confopt/estimation.py:949-958 | one row of `2 * len(alphas)` columns per prediction |
| `Conformal.Hstack` | confopt/estimation.py:938-943 | `np.hstack` succeeds exactly for two one-dimensional arrays, or two two-dimensional ones with the same number of rows |
| `Conformal.LwUcbStackAsWrittenFails` | confopt/estimation.py:937-943 | stacking the bound vectors onto `np.empty((0, 0))` raises for every input |
| `Conformal.LwUcbRowsAreColumnStack` | confopt/estimation.py:936-944 | the rows used instead are the column stack of the lower and upper bounds |
| `Conformal.LwThompsonStackAsWrittenFails` | confopt/estimation.py:949-958 | started from `np.empty((0, 0))`, the stacking raises as soon as there is an alpha, and with no alphas leaves the `(0, 0)` array |
| `Conformal.QuantileScoreCoverage` | confopt/estimation.py:1134-1137 | a score is at most `s` exactly when the interval widened by `s` covers the point |
| `Conformal.QuantileScores` | confopt/estimation.py:1133-1137 | the score of each point against its predicted interval |
| `Conformal.PairScores` | confopt/estimation.py:1143-1159 | one score per validation point for the level pair `(i, n - 1 - i)` |
| `Conformal.UcbIndexedScores` | confopt/estimation.py:1125-1139 | keys 0 and -1 only, both holding the scores of the outer columns |
| `Conformal.PyColumn` | confopt/estimation.py:1149-1151 | numpy column indexing: defined exactly for `-w <= j < w` |
| `Conformal.PairTable` | confopt/estimation.py:1141-1165 | the only error that can stop the loop is an index out of range |
| `Conformal.PairTableStops` | confopt/estimation.py:1143-1165 | once the loop has raised, later pairs change nothing |
| `Conformal.PairTableFails` | confopt/estimation.py:1143-1165 | the loop raises exactly when an upper column `n - 1 - i` falls outside the predictions |
| `Conformal.PairTableMatched` | confopt/estimation.py:1141-1165 | when the level count equals the column count, nothing raises and exactly keys `i` and `n - 1 - i` of the first pairs are stored, both with pair `i`'s scores |
| `Conformal.ThompsonIndexedScores` | confopt/estimation.py:1141-1165 | the loop builds `PairTable` over all `w / 2` pairs |
| `Conformal.QcrUcbBand` | confopt/estimation.py:1210-1221 | one lower, upper and exploration bound per row |
| `Conformal.QcrUcbBandCoverage` | confopt/estimation.py:1203-1215 | the widened interval covers `y` exactly when `y`'s quantile score is at most the score quantile; with no adjustment it is the raw interval |
| `Conformal.QcrUcbBoundAboveMedian` | confopt/estimation.py:1216-1221 | with non-negative `beta` and score quantile, the exploration bound is at least the median prediction |
| `Conformal.ScoreAdjustments` | confopt/estimation.py:1225-1237 | one adjustment per level |
| `Conformal.SignedScores` | confopt/estimation.py:1226-1235 | the only errors are a missing key or a missing level |
| `Conformal.SignedScoresMeaning` | confopt/estimation.py:1226-1235 | the adjustments exist exactly when every level has a stored score list and a level, and are then the signed score quantiles |
| `Conformal.SignedScoresAreAdjustments` | confopt/estimation.py:1225-1237 | with every level covered, the loop's row is `ScoreAdjustments` of the raw score quantiles |
| `Conformal.ComputeSignedScores` | confopt/estimation.py:1226-1235 | the loop computes `SignedScores` over all levels |
| `Conformal.SignedScoresStop` | confopt/estimation.py:1227-1231 | once a level has raised, later levels change nothing |
| `Conformal.ScoreAdjustmentsOff` | confopt/estimation.py:1236-1237 | without conformalization every adjustment is zero |
| `Conformal.ScoreAdjustmentsWiden` | confopt/estimation.py:1232-1235 | for an even count with non-negative score quantiles, level `i` moves down and level `n - 1 - i` moves up |
| `Conformal.AdjustRows` | confopt/estimation.py:1239-1242 | every row gets the adjustment row added entry by entry |
| `Conformal.PickColumns` | confopt/estimation.py:1243-1247 | each row's entry at the column drawn for it |
| `Conformal.PickLowerBounds` | confopt/estimation.py:1243-1247 | the draw loop computes `PickColumns` |
| `Conformal.BreachIsPositiveScore` | confopt/estimation.py:1270-1277 | a breach is 0 or 1, and 0 exactly when the point's quantile score is not positive |
| `Conformal.Breaches` | confopt/estimation.py:1268-1278 | one breach per interval |
| `Conformal.CollectBreaches` | confopt/estimation.py:1268-1278 | the loop computes one breach per interval, in order |
| `Conformal.BreachesMonotone` | confopt/estimation.py:1269-1278 | on nested intervals, outermost first, the breaches never decrease |
| `Conformal.ThompsonRowBreaches` | confopt/estimation.py:1264-1278 | a row of `n` predictions yields `n / 2` breaches, outermost pair first and non-decreasing |
| `Engines.Count` | confopt/estimation.py:1227-1227 | `range(n)` has `max(n, 0)` elements |
| `Engines.UcbLevels` | confopt/estimation.py:1094-1096 | three levels: the interval with the median inserted between its ends |
| `Engines.UcbLevelsSorted` | confopt/estimation.py:1094-1096 | for `alpha` in [0, 1] the three levels ascend and the outer two sum to one |
| `Engines.UcbScoreQuantile` | confopt/estimation.py:1203-1209 | 0 when not conformalized; otherwise the score quantile under key 0 at the lower level, a missing table or key raising |
| `Engines.ThompsonAdjustments` | confopt/estimation.py:1225-1237 | zeros when not conformalized; with every level covered, the signed score quantiles |
| `Engines.FittedLevels` | confopt/estimation.py:1097-1099 | `fetch_quantiles().to_flattened_list()` is the sampler's own level list |
| `Engines.ThompsonPrediction` | confopt/estimation.py:1224-1247 | lower bounds exist only once the adjusted predictions are formed, one per row |
| `Engines.ThompsonPredictionWidens` | confopt/estimation.py:1225-1242 | without conformalization the predictions are kept as they are; with it, each level pair of every row is pushed apart |
| `Engines.ComputeThompsonPrediction` | confopt/estimation.py:1224-1247 | the two loops compute `ThompsonPrediction` |
| `Engines.RowBreaches` | confopt/estimation.py:1264-1278 | the sampled row is sorted, paired ends inwards and turned into one breach per pair |
| `Engines.QuantileConformalRegression.constructor` | confopt/estimation.py:1004-1014 | nothing fitted yet |
| `Engines.QuantileConformalRegression.FitUcb` | confopt/estimation.py:1093-1174 | records the three UCB levels; above the gate, conformalizes with the outer-column scores under keys 0 and -1; below it, does not conformalize and leaves the scores alone |
| `Engines.QuantileConformalRegression.FitThompson` | confopt/estimation.py:1097-1174 | records the sampler's sorted levels; above the gate, stores the pair score table and conformalizes unless the loop raised; below it, does not conformalize |
| `Engines.QuantileConformalRegression.PredictUcb` | confopt/estimation.py:1202-1223 | predicting before `fit` raises; otherwise stores the widened interval, returns the exploration bound and takes one exploration step |
| `Engines.QuantileConformalRegression.PredictThompson` | confopt/estimation.py:1224-1249 | predicting before `fit` raises; otherwise returns `ThompsonPrediction` of the stored scores and the sampler's levels, keeping the adjusted predictions once formed |
| `Engines.QuantileConformalRegression.UpdateUcb` | confopt/estimation.py:1252-1261 | missing bounds or an index out of range raise with the sampler untouched; otherwise the breach of the sampled interval goes to the sampler's adapter |
| `Engines.QuantileConformalRegression.UpdateThompson` | confopt/estimation.py:1263-1279 | no adjusted predictions or an index out of range raise with the sampler untouched; otherwise the sorted row is paired ends inwards, breach `k` goes to adapter `k` (missing adapters raise), a failing adapter stops the loop, and on success the alphas are the returned levels and the level list their sorted symmetric pairs |
| `Engines.LocallyWeightedConformalSearcher.constructor` | confopt/estimation.py:667-679 | nothing fitted yet |
| `Engines.LocallyWeightedConformalSearcher.Fit` | confopt/estimation.py:896-901 | stores the validation scores |
| `Engines.LocallyWeightedConformalSearcher.PredictUcb` | confopt/estimation.py:932-946 | predicting before `fit` raises; otherwise stores the two-column band, returns its lower column and takes one exploration step |
| `Engines.LocallyWeightedConformalSearcher.PredictThompson` | confopt/estimation.py:948-966 | predicting before `fit` raises; otherwise stores the band of two columns per alpha; a draw outside the columns raises; otherwise returns the drawn entries |
| `Engines.LocallyWeightedConformalSearcher.UpdateUcb` | confopt/estimation.py:969-978 | no band or an index out of range raise with the sampler untouched; otherwise the breach of the sampled row's band goes to the sampler |
| `Engines.LocallyWeightedConformalSearcher.UpdateThompson` | confopt/estimation.py:980-991 | only reads the sampled row, and raises exactly when there is no band or the index is out of range; the sampler is not updated |

## Left out

- Estimators are not modelled. Constructing, fitting and predicting with them is outside the model: `initialize_point_estimator`, `initialize_quantile_estimator`, `KFold`, `mean_pinball_loss` and `mean_squared_error`. Predictions enter as inputs; in cross-validation, whether fit and predict succeed enters as the `fits` parameter and the loss as the `score` parameter. All fit and predict failures are one error, `EstimatorFailed`, not the exception the estimator raised.
- Several imported pieces are not part of this model, because their modules are not in the source: `train_val_split`, `RuntimeTracker` (wall-clock timing, so `training_time` too) and `get_tuning_configurations`. The sampled configurations are an input.
- `SEARCH_MODEL_TUNING_SPACE` and `SEARCH_MODEL_DEFAULT_CONFIGURATIONS` are hyperparameter data. Configurations are a type parameter compared only for equality, and the default configuration is an input.
- The commented-out `BayesUCBSampler` is not modelled.
- Floating point is not modelled. All arithmetic is on exact reals, so rounding, overflow, NaN and underflow in the weight normalisation are not represented.
- `np.exp`, `np.log` and `np.quantile` are uninterpreted parameters. Only positivity of `exp` is assumed. Nothing is proved that depends on how a quantile is interpolated.
- `random.choice` draws are parameters (`picks`), one index per row in `range(n_quantiles)`.
- `BaseACI.update` always raises. There is no abstract controller in the model; `Controllers.Adapter` has exactly the two concrete variants.
- `Controllers.AciRunBounded` holds only after at least one update, not for every breach sequence. The initial `alpha_t` is `alpha`, which may lie outside [0.01, 0.99].
- `Controllers.AciMissesMonotone` states that `alpha_t` never increases under consecutive breaches. It does not state a strict decrease at every step. From `alpha = 0.1` and `gamma = 0.05` the code gives 0.055 and then 0.01, and stays at 0.01 from the second breach on (`Controllers.AciFiveMissesScenario`). The model follows the code.
- `Samplers.InitialQuantiles` rounds ties upwards. Python's `round` rounds the binary float value to the even neighbour, and that is not modelled.
- `Engines.ThompsonPrediction` reports every mismatch between the prediction columns and the level count as a shape error. numpy would broadcast an array with a single column or a single level.
- `Engines.FittedLevels` uses the value `ToFlattenedList` promises for a sequence that holds intervals, `Sort(Flatten(...))`, instead of calling that method.
- `Engines.ThompsonPrediction` reads `fetch_quantiles().to_flattened_list()[i]` as the sampler's own sorted level list. `Samplers.ThompsonSampler.FetchQuantiles` and `Intervals.RoundTripSorted` prove the two equal.
- `Engines.LocallyWeightedConformalSearcher.PredictUcb` builds the intended two-column band. As written, the source raises at line 938 before storing a band and before the exploration step of line 946 (see Findings).
- `Engines.LocallyWeightedConformalSearcher.PredictThompson` builds the intended column layout. As written, its first `np.hstack` raises whenever there is an alpha (see Findings). With no alphas the source returns an empty list, because the `(0, 0)` array has no rows. The intended layout has one empty row per prediction, so the model raises `IndexOutOfRange` at the first draw from `range(0)`.
- `Tuning.ScoreFold` folds the pinball-loss scoring, which reads only `quantiles[0]` and `quantiles[1]`, into the `score` parameter.
- Logging calls are not modelled.

## Findings

| source | as written | input that shows it | evidently intended | confidence | as-written member | corrected member |
|---|---|---|---|---|---|---|
| confopt/estimation.py:937-943 | the UCB branch of `LocallyWeightedConformalSearcher.predict` stacks the one-dimensional bound vectors onto the two-dimensional `np.empty((0, 0))`; `np.hstack` refuses arrays of different dimensions, so the branch always raises | any prediction, e.g. one row with prediction 0 and spread 1 | the lower and upper bounds as the two columns of an `n x 2` array, whose column 0 is returned | high (not executed) | `Conformal.LwUcbStackAsWrittenFails` | `Conformal.LwUcbRowsAreColumnStack` |
| confopt/estimation.py:953-958 | the Thompson branch of `LocallyWeightedConformalSearcher.predict` also starts from `np.empty((0, 0))` and stacks one-dimensional bound vectors onto it, so it raises whenever the sampler has an alpha; with no alphas it returns an empty list | any sampler with an alpha, e.g. one alpha and one prediction | for each alpha, the lower and upper bounds as two more columns of an `n x 2k` array | high (not executed) | `Conformal.LwThompsonStackAsWrittenFails` | `Conformal.LwThompsonRowPairs` |
