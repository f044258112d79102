# Candle prediction engines, modelled in Dafny

This project models the two analytic engines of a 15-minute candle trading
assistant.

- **The closing-price engine** (`PredictionEngine`, and its instrumented twin
  `PredictionEngineDebug`) works in these steps:
  - It classifies the candle history as phase 1 (prices near 0.9) or phase 2
    (prices near 9400) from the mean open.
  - For phase 1 it backtests four digit-based "key" functions over
    consecutive candles and keeps the one with the strictly best hit rate.
  - It predicts the close of a forming candle from its open, high and low. Phase 2
    uses the 0.618 retracement ("Fibonacci da Amplitude"); phase 1 uses a
    linear blend chosen by the key.
  - It derives the colour (green or red) and the trading position (CALL or PUT).
  - It computes an entry trigger 16 points from the prediction.
  - It keeps a ledger: the prediction history and hit/total counters,
    updated when a prediction is confirmed against the realised close.
- **The amplitude predictor** (`AmplitudePredictor`) works in these steps:
  - Once, from the history, it computes the mean, the variance and an
    interpolating percentile table (levels 10, 25, 50, 75, 90, 95) of the
    positive candle ranges.
  - For a forming candle it blends three estimates of the final range.
  - It derives a confidence, an expansion probability, the price's position
    in the range and the percentile bucket of the predicted range.
  - It runs two first-match rule cascades: the expected movement (pullback,
    gain strength, consolidate, reverse colour, neutral), then the entry
    strategy (high confidence, defence, wait, hedge, neutral).

Files and modules:

| file | module | contents |
|---|---|---|
| `market.dfy` | `Market` | candles, colour, position, `Option`, `Min`/`Max`/`Abs` |
| `key_functions.dfy` | `KeyFunctions` | the four phase-1 key functions over the decimal text of an open value |
| `prediction_engine.dfy` | `ClosePrediction` | phase rule, backtest, key selection, close formulas, trigger, ledger, class `PredictionEngine` |
| `prediction_engine_debug.dfy` | `ClosePredictionDebug` | class `PredictionEngineDebug` |
| `statistics.dfy` | `Statistics` | sum, mean, sample variance, insertion sort, interpolating percentile |
| `amplitude_predictor.dfy` | `Amplitude` | estimates, probability, cascades, forecast, class `AmplitudePredictor` |

Stateful parts are classes with `modifies` frames:
- the engines' phase, key, history and counters;
- the predictor's statistic fields;
- the backtest loops, the key-selection loop, the amplitude-collection loop,
  the percentile-storing loop and the bucket search.

Each of them is proved against a specification function. Pure formulas are
functions and lemmas.

Prices are Dafny `real`: every formula is exact rational arithmetic on the
inputs. The key functions read the decimal text of the prior open value.
That text is carried in each candle as `openText`; how a number is rendered
as text is not modelled. A character that is not a digit makes the key's
integer conversion fail. The model reports that as `None`, and the backtest
skips the pair.

Where the documentation and the code differ, the model follows the code:
- The backtest score is 0 when the history has fewer than 5 **candles**, not pairs.
- In the expansion probability the price-position factor
  `1 - 2*|position - 0.5|` is not clamped. Only the final sum is clamped to [0, 1].
- The growth-factor bands are tested on `elapsed/15` against 0.33, 0.67 and
  0.83. In minutes they end at 4.95, 10.05 and 12.45, not at 5, 10 and 12.5.
- With an empty history the phase is reported as 1 but is not recorded
  (prediction_engine.py:30-33). A following prediction keeps the phase an
  earlier feed recorded, and uses phase 2 only when none was ever recorded.
- A phase-1 history shorter than 10 candles reports the default key but does
  not store it (prediction_engine.py:51-55). A following prediction keeps the
  key an earlier feed stored, and uses the no-key fallback
  `(open + high + low) / 3` only when none was ever stored.
- The debug engine's statistics count the stored predictions. The main
  engine's count confirmations.

## Model

| member | source | states |
|---|---|---|
| Market.ColorOf | server/prediction/prediction_engine.py:223 | green exactly when the close is above the open |
| Market.PositionOf | server/prediction/prediction_engine.py:226 | CALL exactly for green |
| KeyFunctions.DigitSum | server/prediction/prediction_engine.py:59 | the sum of the digits of a digit string lies in [0, 9·length] |
| KeyFunctions.WithoutDots | server/prediction/prediction_engine.py:59-60 | `replace('.', '')`: no '.' remains, no longer than the text, identity on text without dots |
| KeyFunctions.WithoutDotsConcat | server/prediction/prediction_engine.py:59-60 | `replace('.', '')` works piece by piece: it drops each '.' and keeps every other character, in order |
| KeyFunctions.WithoutDotsSingle | server/prediction/prediction_engine.py:59-60 | a single character is dropped exactly when it is a '.' |
| KeyFunctions.AfterLastDot | server/prediction/prediction_engine.py:61 | `split('.')[-1]`: the result is a suffix of the text with no '.', preceded by a '.' when shorter than the text, and the whole text when it has no dots |
| KeyFunctions.LastThree | server/prediction/prediction_engine.py:59 | `[-3:]`: a suffix of the text, of three characters or all of a shorter text |
| KeyFunctions.TruncateTowardZero | server/prediction/prediction_engine.py:62 | `int(x)` truncates toward zero: the largest integer not above a nonnegative x, the smallest not below a negative x |
| KeyFunctions.KeyValue | server/prediction/prediction_engine.py:58-63 | each key's value lies in [0, 1]; it fails exactly when a converted character is not a digit; the integer-part key never fails |
| KeyFunctions.SumLast3PredictsGreen | server/prediction/prediction_engine.py:59 | `sum_last_3` predicts green exactly for an odd sum of the last three digits |
| KeyFunctions.DecimalPatternPredictsGreen | server/prediction/prediction_engine.py:61 | `decimal_pattern` predicts green exactly when the fraction's digit sum ends in 6 to 9 |
| KeyFunctions.LastIntegerDigitPredictsGreen | server/prediction/prediction_engine.py:62 | `last_integer_digit` predicts green exactly for an odd integer part |
| KeyFunctions.NegativeTextFailsFirstDigit | server/prediction/prediction_engine.py:60 | the text "-0.5" makes `1st_digit_parity` fail |
| KeyFunctions.FirstDigitParityPredictsGreen | server/prediction/prediction_engine.py:60 | whenever `1st_digit_parity` is defined, it predicts green exactly when the first digit of the dotless text is odd |
| KeyFunctions.ExponentTextFailsSumLast3 | server/prediction/prediction_engine.py:59-61 | the exponent text "1e-05" makes `sum_last_3` and `decimal_pattern` fail |
| ClosePrediction.PhaseOf | server/prediction/prediction_engine.py:30-48 | phase 1 for no data; otherwise phase 2 exactly when the mean open exceeds 1000 |
| ClosePrediction.SumOpenAbove | server/prediction/prediction_engine.py:36-37 | opens all above a bound give a sum above bound·n |
| ClosePrediction.SumOpenAtMost | server/prediction/prediction_engine.py:36-37 | opens all at most a bound give a sum at most bound·n |
| ClosePrediction.UniformScalePhase | server/prediction/prediction_engine.py:39-43 | a history quoted entirely above 1000 is phase 2; one entirely at or below 1000 is phase 1 |
| ClosePrediction.PairHit | server/prediction/prediction_engine.py:92-114 | a pair is skipped exactly when the key fails on the prior open; otherwise it is a hit exactly when "value > 0.5" matches the current candle being green |
| ClosePrediction.TallyUpTo | server/prediction/prediction_engine.py:88-114 | hits never exceed usable pairs, and at most n − 1 pairs over n candles |
| ClosePrediction.LastIntegerDigitUsesEveryPair | server/prediction/prediction_engine.py:91-114 | the integer-part key skips no pair: all n − 1 pairs count |
| ClosePrediction.HitRate | server/prediction/prediction_engine.py:116 | hits/total lies in [0, 1]; 0 with no usable pair; 1 when every pair hits |
| ClosePrediction.Score | server/prediction/prediction_engine.py:83-116 | a key function's score lies in [0, 1] and is 0 below 5 candles |
| ClosePrediction.TestKey | server/prediction/prediction_engine.py:83-116 | the pair-by-pair loop computes exactly the key function's score |
| ClosePrediction.KeyIndex | server/prediction/prediction_engine.py:58-63 | every key has its place in the evaluation order |
| ClosePrediction.BestOfIsFirstMaximum | server/prediction/prediction_engine.py:65-76 | for any nonnegative scoring, after n keys the running best holds its own score, is among the first n keys, scores at least every one of them, and strictly more than every key before it |
| ClosePrediction.DiscoveredKeyIsFirstBest | server/prediction/prediction_engine.py:50-81 | with 10 or more candles the chosen key has the greatest score, ties go to the earliest key, and all-zero scores give `sum_last_3` |
| ClosePrediction.SelectBestKey | server/prediction/prediction_engine.py:65-76 | the selection loop computes the running best over all four keys |
| ClosePrediction.FibonacciAmplitude | server/prediction/prediction_engine.py:118-145 | for an open within the range the close lies in the range; below the midpoint it rises towards the high, at or above the midpoint it falls towards the low |
| ClosePrediction.FibonacciColourFollowsMidpoint | server/prediction/prediction_engine.py:130-139 | for an open within the range the phase-2 colour is green exactly when the open is below the midpoint |
| ClosePrediction.FibonacciExamples | server/prediction/prediction_engine.py:130-139 | an open at the midpoint takes the bearish branch (10 in [0, 20] gives 3.82); 9 gives 15.798, 15 gives 5.73 |
| ClosePrediction.PredictPhase1 | server/prediction/prediction_engine.py:147-162 | for an ordered range every key's close lies in [min(open, low), max(high, open)]; no key gives (o + h + l)/3 |
| ClosePrediction.RangeKeysStayInRange | server/prediction/prediction_engine.py:152-154 | the `sum_last_3` and `decimal_pattern` blends lie in [low, high] whatever the open, and the second never exceeds the first |
| ClosePrediction.EffectivePhase | server/prediction/prediction_engine.py:204 | a detected phase is used as is; none gives phase 2 |
| ClosePrediction.PredictionFor | server/prediction/prediction_engine.py:201-238 | the prediction's close is the phase's formula; green exactly when it exceeds the open; CALL exactly for green; it records the phase, algorithm and inputs |
| ClosePrediction.PredictionWithinRange | server/prediction/prediction_engine.py:213-220 | for an open within the range, the predicted close lies in the range in either phase with any key |
| ClosePrediction.EntryTriggerFor | server/prediction/prediction_engine.py:259-296 | green gives CALL with the trigger `offset` below the prediction; red gives PUT with it `offset` above |
| ClosePrediction.TriggerMatchesPosition | server/prediction/prediction_engine.py:274-283 | the trigger's direction is the prediction's position, and with a positive offset the trigger lies below a CALL and above a PUT |
| ClosePrediction.AccuracyOf | server/prediction/prediction_engine.py:325 | accuracy is 0 with no confirmation, lies in [0, 100] when hits ≤ total, and is 100 when every confirmation hit |
| ClosePrediction.ConfirmationFor | server/prediction/prediction_engine.py:304-336 | realised colour against the stored open; a hit exactly when the colours agree; the absolute error is nonnegative and 0 exactly when the close was predicted exactly; the percent error is nonnegative and 0 for a realised close of 0 |
| ClosePrediction.PredictionEngine.constructor | server/prediction/prediction_engine.py:18-26 | no phase, no key, empty history, zero counters |
| ClosePrediction.PredictionEngine.DetectPhase | server/prediction/prediction_engine.py:30-48 | returns the phase of the data; records it unless the data is empty |
| ClosePrediction.PredictionEngine.DiscoverKey | server/prediction/prediction_engine.py:50-81 | returns the discovered key; stores it only with 10 or more candles |
| ClosePrediction.PredictionEngine.Feed | server/prediction/prediction_engine.py:168-192 | detects the phase, discovers and stores the key only in phase 1, and reports the stored key for phase 1 |
| ClosePrediction.PredictionEngine.MakePrediction | server/prediction/prediction_engine.py:201-248 | the prediction is a function of the stored phase and key and the three inputs only; exactly one entry is appended to the history |
| ClosePrediction.PredictionEngine.ConfirmResult | server/prediction/prediction_engine.py:298-350 | empty history: nothing to confirm, counters unchanged; otherwise one more confirmation, one more hit exactly when the colours agree, accuracy the hit percentage, hits ≤ total kept, history untouched |
| ClosePrediction.PredictionEngine.Statistics | server/prediction/prediction_engine.py:352-361 | reports the phase, key and counters, and the history length separately |
| ClosePrediction.RepeatedPredictionsAgree | server/prediction/prediction_engine.py:201-248 | two predictions from the same partial candle agree although the history grew between them |
| ClosePrediction.EnginesWithSameStateAgree | server/prediction/prediction_engine.py:204-220 | two engines with the same phase and key predict alike whatever their histories and counters |
| ClosePredictionDebug.BotIdOf | server/prediction/prediction_engine_debug.py:20 | a missing or empty bot identifier becomes "UNKNOWN"; any other is kept |
| ClosePredictionDebug.PredictionEngineDebug.constructor | server/prediction/prediction_engine_debug.py:19-28 | the bot identifier, no phase, no key, empty history, zero counters |
| ClosePredictionDebug.PredictionEngineDebug.DetectPhase | server/prediction/prediction_engine_debug.py:32-76 | as the main engine: the data's phase, recorded unless the data is empty |
| ClosePredictionDebug.PredictionEngineDebug.DiscoverKey | server/prediction/prediction_engine_debug.py:78-116 | as the main engine: the strict best, earliest on ties, stored only with 10 or more candles |
| ClosePredictionDebug.PredictionEngineDebug.Feed | server/prediction/prediction_engine_debug.py:222-252 | as the main engine's feed |
| ClosePredictionDebug.PredictionEngineDebug.MakePrediction | server/prediction/prediction_engine_debug.py:261-321 | the main engine's prediction for the stored phase and key, stamped with the bot identifier and appended to the history |
| ClosePredictionDebug.PredictionEngineDebug.Statistics | server/prediction/prediction_engine_debug.py:333-342 | the reported total is the number of stored predictions |
| ClosePredictionDebug.EnginesAgreeOnPrediction | server/prediction/prediction_engine_debug.py:333-342 | fed and asked alike, both engines predict the same; after one unconfirmed prediction the main engine reports 0 and the debug engine 1 |
| Statistics.SumBounds | server/prediction/amplitude_predictor.py:39 | common element bounds bound the sum by n·lo and n·hi |
| Statistics.SumPositive | server/prediction/amplitude_predictor.py:39 | a sum of positive values is positive |
| Statistics.MeanPositive | server/prediction/amplitude_predictor.py:39 | the mean of positive amplitudes is positive |
| Statistics.MeanBounds | server/prediction/amplitude_predictor.py:39 | the mean lies within any common bounds of the values |
| Statistics.SquaredDeviations | server/prediction/amplitude_predictor.py:40 | the sum of squared deviations is nonnegative |
| Statistics.NoDeviationAtCentre | server/prediction/amplitude_predictor.py:40 | values all at the centre have no deviation |
| Statistics.Variance | server/prediction/amplitude_predictor.py:40 | the sample variance is nonnegative and 0 for one value |
| Statistics.ConstantSample | server/prediction/amplitude_predictor.py:39-40 | a constant sample has that constant as mean and variance 0 |
| Statistics.Insert | server/prediction/amplitude_predictor.py:49 | inserting keeps a sequence sorted and adds exactly the one value |
| Statistics.Sort | server/prediction/amplitude_predictor.py:49 | `sorted`: an ascending permutation of its input |
| Statistics.InsertLargest | server/prediction/amplitude_predictor.py:49 | inserting a value no smaller than all appends it |
| Statistics.SortOfSorted | server/prediction/amplitude_predictor.py:49 | sorting a sorted sequence changes nothing |
| Statistics.Ceiling | server/prediction/amplitude_predictor.py:52 | `math.ceil`: the least integer not below x |
| Statistics.Rank | server/prediction/amplitude_predictor.py:50 | the rank p/100·(n − 1) lies in [0, n − 1] |
| Statistics.InterpolateAtWhole | server/prediction/amplitude_predictor.py:54-55 | at a whole index the value is the element there |
| Statistics.InterpolateBetween | server/prediction/amplitude_predictor.py:51-57 | over a sorted sequence: the element at a whole index, otherwise a value between the two neighbours |
| Statistics.InterpolateLinear | server/prediction/amplitude_predictor.py:57 | between whole indices the two-term formula is the linear interpolation |
| Statistics.InterpolateMonotone | server/prediction/amplitude_predictor.py:51-57 | over a sorted sequence the interpolated value never decreases with the index |
| Statistics.Percentile | server/prediction/amplitude_predictor.py:47-57 | the percentile lies between the smallest and largest sorted values |
| Statistics.SortedEnds | server/prediction/amplitude_predictor.py:49 | the first and last sorted values are the sample's minimum and maximum |
| Statistics.PercentileWithinSample | server/prediction/amplitude_predictor.py:47-57 | some sample value lies at or below the percentile and some at or above it |
| Statistics.PercentileBounds | server/prediction/amplitude_predictor.py:47-57 | common bounds of the sample bound every percentile |
| Statistics.RankAsRatio | server/prediction/amplitude_predictor.py:50 | the rank is the integer ratio p·(n − 1)/100 |
| Statistics.RankFloor | server/prediction/amplitude_predictor.py:50-54 | the floor of the rank is p·(n − 1) div 100; the rank is not whole when the division leaves a remainder |
| Statistics.RankIndex | server/prediction/amplitude_predictor.py:50-51 | the whole part k of the rank is a position in the sample, with 100·k ≤ p·(n − 1) < 100·(k + 1) |
| Statistics.RankMonotone | server/prediction/amplitude_predictor.py:50 | a higher level never has a lower rank |
| Statistics.PercentileAtWholeRank | server/prediction/amplitude_predictor.py:54-55 | when p·(n − 1)/100 is a whole k, the percentile is the k-th smallest value |
| Statistics.PercentileBetweenOrderStatistics | server/prediction/amplitude_predictor.py:57 | otherwise it lies between the k-th and (k+1)-th smallest values |
| Statistics.PercentileInterpolates | server/prediction/amplitude_predictor.py:50-57 | at a fractional rank it is the linear interpolation between the k-th and (k+1)-th smallest values, weighted by the rank's fractional part |
| Statistics.PercentileMonotone | server/prediction/amplitude_predictor.py:47-57 | a higher p never gives a smaller percentile |
| Statistics.OneToFiveSorted | server/prediction/amplitude_predictor.py:49 | the sample 1..5 sorts to itself |
| Statistics.PercentileWholeRankExamples | server/prediction/amplitude_predictor.py:54-55 | the 50th percentile of 1..5 is 3 and the 75th is 4 |
| Statistics.PercentileInterpolatedExample | server/prediction/amplitude_predictor.py:57 | the 90th percentile of 1..5 is 4.6 |
| Statistics.PercentileLowExample | server/prediction/amplitude_predictor.py:57 | the 10th percentile of 1..5 is 1.4 |
| Amplitude.LevelsListed | server/prediction/amplitude_predictor.py:43 | the levels are exactly those listed, in either order |
| Amplitude.PositiveAmplitudes | server/prediction/amplitude_predictor.py:30-34 | every amplitude kept is positive, and at most one per candle |
| Amplitude.Ranges | server/prediction/amplitude_predictor.py:32 | the range of each candle, in order |
| Amplitude.SampleIsThePositiveRanges | server/prediction/amplitude_predictor.py:30-34 | exactly the positive ranges enter the sample |
| Amplitude.MeanAmplitudeOf | server/prediction/amplitude_predictor.py:36-39 | the stored mean is nonnegative, and 0 exactly when no range is positive |
| Amplitude.VarianceAmplitudeOf | server/prediction/amplitude_predictor.py:40 | the stored variance is nonnegative, and 0 for a sample of at most one |
| Amplitude.TableOfExtend | server/prediction/amplitude_predictor.py:43-45 | computing one more level adds exactly that level, with its percentile, to the table of the levels before it |
| Amplitude.PercentileTable | server/prediction/amplitude_predictor.py:36-45 | the table is empty exactly when the sample is |
| Amplitude.PercentileTableContents | server/prediction/amplitude_predictor.py:43-45 | with a sample the table holds the six levels and only those, each with its percentile |
| Amplitude.PercentileTableOrdered | server/prediction/amplitude_predictor.py:43-57 | a higher level never holds a smaller value |
| Amplitude.MeanZeroIffTableEmpty | server/prediction/amplitude_predictor.py:36-45 | a zero mean and an empty table go together |
| Amplitude.FirstLevelReached | server/prediction/amplitude_predictor.py:244-247 | the search always returns a level |
| Amplitude.PercentilePosition | server/prediction/amplitude_predictor.py:239-247 | the bucket is always a level, and 50 for an empty table |
| Amplitude.FirstLevelReachedIsFirst | server/prediction/amplitude_predictor.py:244-247 | the result is reached (or is 10 with nothing reached), and no higher level searched is reached |
| Amplitude.PercentilePositionIsHighestReached | server/prediction/amplitude_predictor.py:239-247 | over a nonempty table the bucket is the highest level the amplitude reaches, else 10 |
| Amplitude.FirstLevelReachedMonotone | server/prediction/amplitude_predictor.py:244-247 | a larger amplitude never finds a lower level |
| Amplitude.FirstLevelReachedBelow | server/prediction/amplitude_predictor.py:244-247 | a search started later finds at most the level before it |
| Amplitude.PercentilePositionMonotone | server/prediction/amplitude_predictor.py:239-247 | a larger amplitude never falls into a lower bucket |
| Amplitude.CurrentAmplitude | server/prediction/amplitude_predictor.py:82-85 | the range, with a zero range replaced by 0.01; never 0 |
| Amplitude.GrowthFactor | server/prediction/amplitude_predictor.py:91-98 | the growth factor lies in [1.15, 1.8] |
| Amplitude.GrowthFactorNonIncreasing | server/prediction/amplitude_predictor.py:91-98 | later in the candle the growth factor never grows |
| Amplitude.GrowthFactorBands | server/prediction/amplitude_predictor.py:88-98 | 1.8 below 4.95 minutes, 1.4 to 10.05, 1.2 to 12.45, then 1.15 |
| Amplitude.LinearEstimate | server/prediction/amplitude_predictor.py:100 | for a positive range the linear estimate lies between 1.15 and 1.8 ranges |
| Amplitude.MeanEstimate | server/prediction/amplitude_predictor.py:103-113 | without a positive mean the estimate is the linear one |
| Amplitude.MeanEstimateBounds | server/prediction/amplitude_predictor.py:103-111 | with a mean the estimate lies between 0.8 means and the larger of 1.05 ranges and one mean |
| Amplitude.CloseEstimate | server/prediction/amplitude_predictor.py:122-127 | 1.05 ranges for a close inside; the distance from the opposite end plus 10% for a close outside |
| Amplitude.BreakoutStretchesRange | server/prediction/amplitude_predictor.py:122-125 | a close outside an ordered range gives more than 1.1 ranges |
| Amplitude.BlendedAmplitude | server/prediction/amplitude_predictor.py:130-135 | the 0.3/0.3/0.4 blend lies between the smallest and largest estimate |
| Amplitude.Confidence | server/prediction/amplitude_predictor.py:138 | at most 95, and at least 40 for a nonnegative time |
| Amplitude.ConfidenceProfile | server/prediction/amplitude_predictor.py:138 | 40 at 0 minutes, 95 at 15 and from 13.75 on, never decreasing with time |
| Amplitude.GrowthPotential | server/prediction/amplitude_predictor.py:202 | nonnegative when the prediction is no smaller than a positive range; 0 for a range that is not positive |
| Amplitude.RangePosition | server/prediction/amplitude_predictor.py:206-209 | in [0, 1] for a price within a positive range; 0.5 for a range that is not positive |
| Amplitude.PriceLabelOf | server/prediction/amplitude_predictor.py:154 | TOP exactly above 0.7, BOTTOM exactly below 0.3 |
| Amplitude.TimeFactor | server/prediction/amplitude_predictor.py:214-220 | the time factor lies in [0.45, 0.85] |
| Amplitude.PredictionFactor | server/prediction/amplitude_predictor.py:224-227 | 0.9 exactly for a close strictly outside the range, 0.5 exactly for one inside |
| Amplitude.ExpansionProbability | server/prediction/amplitude_predictor.py:188-237 | the probability lies in [0, 1] |
| Amplitude.ExpansionWithinRangeBounds | server/prediction/amplitude_predictor.py:201-237 | for a price within a positive range no clamping happens: the probability lies in [0.26, 0.93] |
| Amplitude.BreakoutNeverLowersExpansion | server/prediction/amplitude_predictor.py:224-237 | a close predicted outside the range never lowers the probability |
| Amplitude.LaterNeverLowersExpansion | server/prediction/amplitude_predictor.py:214-237 | later in the candle the probability never drops |
| Amplitude.ExpectationConfidence | server/prediction/amplitude_predictor.py:345-359 | confidences lie in [0.5, 0.8]; only gaining strength exceeds 0.75 |
| Amplitude.DistanceRatio | server/prediction/amplitude_predictor.py:316-318 | the distance ratio is nonnegative |
| Amplitude.AnalyzeMovement | server/prediction/amplitude_predictor.py:302-368 | the four flags are their conditions; the expectation is the first flag that holds in the order pullback, gain strength, consolidate, reverse colour, each with its confidence |
| Amplitude.PullbackWinsExample | server/prediction/amplitude_predictor.py:322-347 | price position 0.9 with predicted position 0.5 is a pullback whatever the probability |
| Amplitude.NeutralWhenNothingHolds | server/prediction/amplitude_predictor.py:357-359 | neutral exactly when no flag holds |
| Amplitude.PlanFor | server/prediction/amplitude_predictor.py:386-431 | each strategy's modifier, stake and risk: only high confidence raises confidence; defence and wait are high risk |
| Amplitude.DetermineEntry | server/prediction/amplitude_predictor.py:370-431 | first match wins: high confidence, defence, wait, hedge, neutral, each exactly under its condition with the earlier ones failing |
| Amplitude.Recommend | server/prediction/amplitude_predictor.py:249-300 | the entry strategy is chosen from the movement analysis's expectation and confidence |
| Amplitude.RecommendationCascade | server/prediction/amplitude_predictor.py:268-286 | chained, the movement-confidence test is redundant: high confidence exactly for gain strength, probability over 0.75 and over 12.5 minutes; a hedge never follows a pullback, consolidation or reversal; a positive modifier only after 12.5 minutes |
| Amplitude.Forecast | server/prediction/amplitude_predictor.py:59-186 | the forecast's fields are the blended estimate, the confidence, the probability in [0, 1], `will_expand` exactly above 0.6, a level as bucket, the growth potential of current to predicted, the positions of price and predicted close in the current range, the label of the price's position and the chained recommendation |
| Amplitude.ForecastWithoutHistory | server/prediction/amplitude_predictor.py:103-135 | without a positive range in the history the blend is 0.6·linear + 0.4·close and the bucket is 50 |
| Amplitude.ForecastInsideRange | server/prediction/amplitude_predictor.py:126-135 | a close predicted inside the range contributes 0.4·1.05 ranges to the blend |
| Amplitude.AmplitudePredictor.constructor | server/prediction/amplitude_predictor.py:18-23 | keeps the history and leaves the statistics in agreement with it |
| Amplitude.AmplitudePredictor.CalculateStatistics | server/prediction/amplitude_predictor.py:25-45 | no positive range: nothing changes; otherwise the mean, the variance and the six percentiles over the positive ranges are stored |
| Amplitude.AmplitudePredictor.CollectAmplitudes | server/prediction/amplitude_predictor.py:30-34 | the loop collects exactly the positive ranges in order |
| Amplitude.AmplitudePredictor.StorePercentiles | server/prediction/amplitude_predictor.py:43-45 | the loop stores each level's percentile, keeping any other entry |
| Amplitude.AmplitudePredictor.GetPercentilePosition | server/prediction/amplitude_predictor.py:239-247 | the loop with early return computes the bucket of the stored table |
| Amplitude.AmplitudePredictor.PredictFinalAmplitude | server/prediction/amplitude_predictor.py:59-186 | the forecast from the stored mean and table; nothing changes |
| Amplitude.BucketsOfFreshPredictor | server/prediction/amplitude_predictor.py:239-247 | for a freshly built predictor a larger amplitude never gets a lower bucket, both buckets are levels, and with no positive range both are 50 |

## Left out

- Logging, `datetime.now()` timestamps and the numpy minimum and maximum are left out. They are computed only for log lines.
- `round(…, 4)` and the other roundings of returned values are left out. They are presentation only. The stored predicted close is therefore the exact value, and confirmation compares against it.
- The `try`/`except` fallbacks of the prediction formulas, `alimentar_dados`, `fazer_predicao` and `confirmar_resultado` are left out. With typed real inputs the float conversions they guard cannot fail. This covers the debug engine's error record with "Erro"/"NENHUMA", which appends nothing. The per-pair skip of the backtest is modelled.
- The rendering of a float as text (`str(x)`) is left out. Each candle carries the text its key functions read, as `openText`.
- Digits outside ASCII are left out. They do not occur in the rendering of a float.
- The text fields are left out: the algorithm label, the strategy text, the `sucesso` flag, entry reasons and error messages. They are represented by datatypes.
- `statistics.stdev` is modelled by its square, the sample variance, because it needs a square root. No prediction reads it.
- Floating-point rounding error is left out. Prices are exact reals.
- `main()` of the amplitude predictor, the HTTP server around the engines and the diagnostic scripts are left out. They are I/O only.
- The predicted direction that the source passes to the expansion probability is not used there, so the model does not take it as a parameter.
- Amplitude.AmplitudePredictor.GetPercentilePosition: walks the six fixed levels in descending order rather than the table's own sorted keys. The two agree whenever the statistics match the history, because a stored table is empty or holds exactly those six levels.
- The debug engine's `estatisticas['total_predicoes']` counter is never updated, and it has no confirmation. So the model keeps only the hits and accuracy it reports, which stay 0.
