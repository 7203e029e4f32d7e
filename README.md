# ETH price prediction: accuracy ledgers, adaptive ensemble and trading signals

This project models in Dafny the decision core of an Ethereum price
prediction service and proves properties of it.

- **The enhanced accuracy ledger** (`EnhancedAccuracyTracker`).
  - It records a prediction with one forecast per horizon: the ensemble
    price plus the three models' prices and weights.
  - A validation pass compares every horizon that has fallen due with the
    current price and appends one validation record for each, with the
    ensemble's and each model's absolute error, percentage error and
    direction.
  - It keeps running per-(market condition, model) statistics and a global
    summary.
  - It derives model weights for a market condition. It takes the last
    `recent_window` validations of the whole log, keeps those of the
    condition, and turns their errors into inverse-error, exponentially
    decayed and normalised weights. Fewer than five matching validations
    give a uniform cold start.
- **The legacy ledger** (`AccuracyTracker`). Its records hold one price per
  horizon. It is marked validated as soon as one horizon is due, and its
  summary names the best horizon.
- **The ensemble.**
  - Three fitters' forecast paths are blended with score-proportional
    weights, or with the learned weights in the pipeline with learning
    enabled.
  - The report's weighted R² and its 4h/8h/24h/48h key predictions.
  - The trend classification of the latest candle.
- **The pipeline with learning** (`make_predictions_with_rl`). It validates
  the ledger, forecasts four horizons (15, 30, 60, 120 minutes) with the
  learned weights of the detected condition, and records the forecasts.
- **The trading signals** (`TradingSignals`):
  - the five-condition market trend;
  - support and resistance from clustered local extremes;
  - the buy/sell/short scores;
  - the chosen signal with its confidence;
  - entry, stop-loss, target and risk/reward.

Functions describe what each operation computes. Where the source changes
state step by step, the model uses methods and classes whose loops are
proved against those functions:

- the two trackers are classes whose fields are the ledger, the validation
  log, the buckets and the summary;
- the weight computation and the signal scoring keep their loops and
  accumulations.

The model follows the code as written. In one place the code does less than
its own comment says. The comment at src/track_accuracy_enhanced.py:199 reads
"Mark prediction as validated if all horizons are validated", but the code
keeps only one flag per record and does not remember which horizons were
validated. A record with a horizon still pending therefore has its
already-due horizons validated again on every later pass. The model
reproduces this behaviour and proves the repeat
(`EnhancedRecords.RevalidatedWhilePending`). A separate corrected pass
(`DedupVariant`) remembers the validated horizons of each record; see
Findings.

Modules, one per file: `Basics`, `Timestamps`, `SeqMath` (shared helpers),
`EnhancedRecords`, `Performance`, `WeightSolver`, `EnhancedTracker`,
`DedupVariant`, `LegacyTracker`, `Ensemble`, `RlPipeline`, `Trend`,
`Signals`.

## Model

| member | source | states |
|---|---|---|
| Timestamps.EnsureUtcAware | src/track_accuracy_enhanced.py:103-112 | The result is aware and has the same wall-clock reading. An aware value is returned unchanged. A naive value is read as UTC. |
| Timestamps.EnsureUtcAwareIdempotent | src/track_accuracy.py:64-68 | Normalising twice is the same as normalising once. |
| Timestamps.AddMinutes | src/predict_rl.py:311 | Adding minutes keeps the offset and moves the UTC instant by exactly that many minutes. |
| EnhancedRecords.NewRecord | src/track_accuracy_enhanced.py:76-95 | The stored record is unvalidated, keyed by its timestamp and carries the base price. A given non-empty condition is stored as is, and a missing or empty one becomes "unknown". Given weights are stored as is, and missing weights become empty. Each horizon keeps its name, target time and ensemble price, in the caller's order. Missing models or weights become empty dictionaries. |
| EnhancedRecords.ErrorOf | src/track_accuracy_enhanced.py:148-169 | The absolute error is non-negative and equals ±(predicted − actual). The percentage times the actual price is 100 times the absolute error. The direction is correct iff the forecast and the actual are on the same side of the base price, a tie counting as down. |
| EnhancedRecords.ErrorsFor | src/track_accuracy_enhanced.py:158-187 | There is exactly one entry per model of the horizon plus "ensemble". Each is that price's error, and a model named "ensemble" replaces the ensemble entry. |
| EnhancedRecords.ValidationOf | src/track_accuracy_enhanced.py:172-188 | The validation carries the record's id, time and condition, the horizon name and the actual price. Its validation and target times are `now` and the horizon's timestamp made UTC-aware. Its errors are ErrorsFor the horizon against the actual and the record's base price, so they always hold the ensemble entry. |
| EnhancedRecords.AfterScan | src/track_accuracy_enhanced.py:137-201 | A pass changes only the record's flag. The record is marked iff it was already marked or every horizon is due in this pass. |
| EnhancedRecords.MarkedAfter | src/track_accuracy_enhanced.py:130-201 | The ledger after a pass has the same length, and every record is updated by AfterScan. |
| EnhancedRecords.HorizonValidationsShape | src/track_accuracy_enhanced.py:140-197 | A pass appends exactly one validation per due horizon and no more than there are horizons. Each validation is the ValidationOf of some due horizon of that record. |
| EnhancedRecords.EachDueHorizonOnce | src/track_accuracy_enhanced.py:140-197 | Within one pass over a record with distinct horizon names, each horizon is validated once if it is due and otherwise not at all. |
| EnhancedRecords.RevalidatedWhilePending | src/track_accuracy_enhanced.py:196-201 | If a record still has a horizon pending, the pass leaves it unmarked. Any later pass then validates each already-due horizon again. |
| EnhancedRecords.FullyValidatedStaysSilent | src/track_accuracy_enhanced.py:130-132 | A record that a pass marks contributes nothing to any later pass. |
| EnhancedRecords.SingleHorizonScenario | src/track_accuracy_enhanced.py:146-201 | A worked example. A single 15-minute horizon (base 3000, ensemble 3020, models 3015/3025/3020) is validated at minute 16 against 3010. The ensemble error is 10 (1000/3010 %), the linear error 5 and the polynomial error 15, all in the right direction, and the record is marked. |
| EnhancedRecords.ScanCount | src/track_accuracy_enhanced.py:195-208 | The count a pass returns is the number of due horizons of the records that were not yet marked. |
| EnhancedRecords.ScanSound | src/track_accuracy_enhanced.py:130-190 | Every validation a pass appends comes from a record that was not yet marked, carries that record's id and condition, and has the ensemble entry. |
| Performance.Bump | src/track_accuracy_enhanced.py:228-235 | Folding one error entry adds one prediction, its percentage and its direction to the totals. It keeps the averages consistent with the totals. |
| Performance.MergeIntoStep | src/track_accuracy_enhanced.py:218-235 | Folding one more model of the validation bumps that model's bucket from its value before the update (a fresh bucket for a new model) and leaves the other buckets as they were. |
| Performance.UpdatePerfEffect | src/track_accuracy_enhanced.py:210-235 | `_update_model_performance(v)` moves by one validation exactly the buckets of v's condition and v's error entries. Every other bucket is unchanged. |
| Performance.UpdatePerfValid | src/track_accuracy_enhanced.py:228-235 | After an update every bucket still has its averages derived from its totals, and at most as many correct directions as predictions. |
| Performance.ReplayMatchesLog | src/track_accuracy_enhanced.py:210-235 | The buckets hold no hidden state. Replaying a validation log adds to each (condition, model) bucket exactly the log's count, error total and correct-direction count for that pair. |
| Performance.SummaryBounds | src/track_accuracy_enhanced.py:237-268 | The summary counts the whole log and its directional accuracy is a percentage in [0, 100]. With non-negative errors every average is non-negative. |
| Performance.SummaryAgreesWithBucket | src/track_accuracy_enhanced.py:210-268 | For a log under one condition, the summary's ensemble average equals that condition's ensemble bucket average when replayed from no buckets. |
| WeightSolver.Matching | src/track_accuracy_enhanced.py:282-285 | The filter keeps exactly the validations of the condition. |
| WeightSolver.ColdStart | src/track_accuracy_enhanced.py:287-293 | Fewer than 5 matching validations in the window give exactly 1/3 to each model. |
| WeightSolver.WindowBeforeFilter | src/track_accuracy_enhanced.py:282-285 | The window is cut from the whole log before filtering. If the last `window` validations are of other conditions, the weights are uniform however many earlier ones match. |
| WeightSolver.InverseScoresErrIff | src/track_accuracy_enhanced.py:298-304 | Computing `1/(1 + pct)` fails with ZeroDivisionError exactly when some percentage for the model is −1. |
| WeightSolver.InverseScoresBounds | src/track_accuracy_enhanced.py:298-304 | With every percentage above −1 the scores exist and are positive. With non-negative percentages they are also at most 1. |
| WeightSolver.WeightedSumNewestFirst | src/track_accuracy_enhanced.py:308-315 | In the decayed sum the newest score has weight 1 and each older one 0.95 times the weight of the next newer. |
| WeightSolver.DecayedMeanBounds | src/track_accuracy_enhanced.py:306-317 | The decayed mean of scores in [lo, hi] lies in [lo, hi]. |
| WeightSolver.ModelScores | src/track_accuracy_enhanced.py:296-319 | There is one score per model, each the model's decayed score (1/3 without data). A failure of any model aborts the computation. |
| WeightSolver.NormaliseSumsToOne | src/track_accuracy_enhanced.py:321-326 | The normalised weights cover the three models and sum to 1. |
| WeightSolver.NormalisePreservesOrder | src/track_accuracy_enhanced.py:321-326 | Normalising keeps the order: a model scored at least as high as another gets at least its weight. |
| WeightSolver.WeightsNormalised | src/track_accuracy_enhanced.py:295-328 | Whenever the weights exist they name exactly the three models and sum to 1. |
| WeightSolver.WeightsErrIff | src/track_accuracy_enhanced.py:287-328 | The weight computation fails exactly when the window holds at least 5 samples and some model has a percentage of −1 there. |
| WeightSolver.WeightsInUnitInterval | src/track_accuracy_enhanced.py:295-328 | With all percentages above −1 the weights exist and each lies in [0, 1]. |
| WeightSolver.DecayedMeanMonotone | src/track_accuracy_enhanced.py:306-317 | Raising scores one by one never lowers the decayed mean. |
| WeightSolver.ModelScoreLowered | src/track_accuracy_enhanced.py:296-319 | When only model m's percentages are lowered (staying above −1), m's decayed score rises or stays and the other models' scores are unchanged. |
| WeightSolver.NormaliseMonotone | src/track_accuracy_enhanced.py:321-326 | With positive scores, raising one model's score while the others stay never lowers its normalised weight. |
| WeightSolver.WeightsMonotone | src/track_accuracy_enhanced.py:281-328 | Monotonic scoring. Take two logs that are identical except that model m's percentage errors are lower in the second, all above −1. For every condition and window both weight computations succeed, and m's weight under the second log is at least its weight under the first. |
| WeightSolver.ModelScorePositive | src/track_accuracy_enhanced.py:306-319 | A model whose percentages are all above −1 gets a positive score. |
| WeightSolver.CollectRecent | src/track_accuracy_enhanced.py:282-285 | The comprehension over `validations[-window:]` computes the filtered window as defined, with Python's slice semantics. |
| WeightSolver.CollectScores | src/track_accuracy_enhanced.py:298-304 | The score loop computes the inverse scores, or their error. |
| WeightSolver.DecayedScore | src/track_accuracy_enhanced.py:306-317 | The loop over `reversed(errors)` computes the decayed mean. |
| WeightSolver.ScoreModels | src/track_accuracy_enhanced.py:296-319 | The loop over the three models fills the scores as ModelScores defines them. |
| WeightSolver.ComputeWeights | src/track_accuracy_enhanced.py:270-328 | The whole method computes WeightsFor, with its cold start, scores, decay and normalisation. |
| EnhancedTracker.EnhancedAccuracyTracker.constructor | src/track_accuracy_enhanced.py:19-53 | The tracker holds the stored history and table when they exist. Otherwise it starts with an empty ledger, an empty log, the initial summary and no buckets. |
| EnhancedTracker.EnhancedAccuracyTracker.RecordPrediction | src/track_accuracy_enhanced.py:65-100 | It appends exactly NewRecord to the ledger and returns the timestamp as the id. The log, summary and buckets are unchanged. |
| EnhancedTracker.EnhancedAccuracyTracker.UpdateModelPerformance | src/track_accuracy_enhanced.py:210-235 | The buckets become UpdatePerf of the old ones. Nothing else changes. |
| EnhancedTracker.EnhancedAccuracyTracker.UpdateSummary | src/track_accuracy_enhanced.py:237-268 | It does nothing on an empty log. Otherwise the summary becomes the summary of the whole log. |
| EnhancedTracker.EnhancedAccuracyTracker.ValidateHorizons | src/track_accuracy_enhanced.py:137-197 | The horizon loop appends exactly the record's due validations and folds them into the buckets. It reports whether all horizons were due. |
| EnhancedTracker.EnhancedAccuracyTracker.ValidateRecord | src/track_accuracy_enhanced.py:130-201 | For one record: it is skipped when already marked. Otherwise its due horizons are validated and it is marked iff all were due. |
| EnhancedTracker.EnhancedAccuracyTracker.ScanLedger | src/track_accuracy_enhanced.py:130-201 | After the record loop, the log has grown by the pass's validations, the ledger is MarkedAfter, the buckets have absorbed the new validations and the count is their number. |
| EnhancedTracker.EnhancedAccuracyTracker.ValidatePredictions | src/track_accuracy_enhanced.py:114-208 | One pass keeps the tracker consistent. It appends the pass's validations, marks the records, updates the buckets and returns the count. The summary is recomputed iff the count is positive. |
| EnhancedTracker.EnhancedAccuracyTracker.GetModelWeightsForCondition | src/track_accuracy_enhanced.py:270-328 | It returns the weights the log yields for the condition and window. |
| DedupVariant.DedupAfterScan | src/track_accuracy_enhanced.py:199-201 | In the corrected pass, the validated-horizon set only grows, and a record is marked iff every one of its horizons has been validated. |
| DedupVariant.PendingSound | src/track_accuracy_enhanced.py:140-190 | The corrected pass validates only due horizons that were not validated before, each for its own record. |
| DedupVariant.PendingComplete | src/track_accuracy_enhanced.py:140-190 | The corrected pass is also complete. The horizons it validates are exactly the due ones minus those validated before. With distinct horizon names, each appears once. |
| DedupVariant.NoHorizonTwice | src/track_accuracy_enhanced.py:140-201 | For a record with distinct horizon names and passes with non-zero actual prices: over any sequence of corrected passes, the validations appended for a record name each horizon at most once. They name exactly the horizons the passes added to its validated set, and that set only grows. |
| DedupVariant.DoneStaysSilent | src/track_accuracy_enhanced.py:199-201 | Once all horizons are validated the record is marked and appends nothing more. |
| DedupVariant.RepeatedHorizonWitness | src/track_accuracy_enhanced.py:137-201 | A concrete ledger with horizons of 15 and 30 minutes, passed at minutes 20 and 25. As written, "15min" is validated in both passes. The corrected pass validates it once. |
| LegacyTracker.ActualOf | src/track_accuracy.py:98-120 | The actual record holds the horizon, the predicted and actual prices, a non-negative error ±(predicted − actual), and a percentage that scales the error to the actual price. Its direction is correct iff both prices are on the same side of the base price. |
| LegacyTracker.LegacyAfterPass | src/track_accuracy.py:83-123 | A pass changes only the flag. The record is marked iff it was marked already or any one of its horizons is due. |
| LegacyTracker.DueActualsCount | src/track_accuracy.py:92-124 | A record yields one actual per due horizon, each the ActualOf of a due horizon. |
| LegacyTracker.MarkedIffAppended | src/track_accuracy.py:92-124 | A pass appends something for a record exactly when it marks it. |
| LegacyTracker.PendingHorizonsLost | src/track_accuracy.py:83-123 | Once one horizon of a legacy record has been validated, its other horizons are never validated, however late the next pass. |
| LegacyTracker.Best | src/track_accuracy.py:144 | The chosen name is among the candidates and ranks before every one of them: the smallest mean percent error, then the first by name. |
| LegacyTracker.BestHorizonMinimal | src/track_accuracy.py:144 | The best horizon appears in the log and has the minimal group mean, ties going to the name that sorts first. It is the only horizon with that property. |
| LegacyTracker.LegacySummaryBounds | src/track_accuracy.py:132-146 | The summary counts the actuals, its averages are non-negative and its directional accuracy lies in [0, 100]. |
| LegacyTracker.AccuracyTracker.constructor | src/track_accuracy.py:18-38 | The tracker holds the stored history when it exists. Otherwise it starts with an empty ledger, no actuals and the initial summary. |
| LegacyTracker.AccuracyTracker.RecordPrediction | src/track_accuracy.py:45-61 | It appends one unmarked record with the horizons and price as given. The actuals and summary are unchanged. |
| LegacyTracker.AccuracyTracker.ValidateRecord | src/track_accuracy.py:83-124 | For one record it appends the record's due actuals, counts them and marks the record by LegacyAfterPass. |
| LegacyTracker.AccuracyTracker.PassLedger | src/track_accuracy.py:83-124 | The record loop appends every pass actual, counts them and marks every record. |
| LegacyTracker.AccuracyTracker.UpdateSummary | src/track_accuracy.py:132-146 | It does nothing on an empty log. Otherwise the summary becomes the summary of all actuals. |
| LegacyTracker.AccuracyTracker.ValidatePredictions | src/track_accuracy.py:70-130 | One pass appends the actuals, marks the records and returns their count. The summary is recomputed iff the count is positive. |
| Ensemble.ScoreWeightsSumToOne | src/predict.py:177-183 | The weights always sum to 1. When the score total is positive, each weight times the total is that model's score. |
| Ensemble.ScoreWeightsDistributionIff | src/predict.py:177-183 | The score weights are a distribution (non-negative) iff every score is non-negative or the total is not positive. |
| Ensemble.Convex | src/predict.py:185-187 | A distribution blend of three values lies between their minimum and maximum. |
| Ensemble.BlendBetweenModels | src/predict.py:185-187 | With distribution weights every blended point lies between the three models' forecasts at that point. |
| Ensemble.BlendOfAgreement | src/predict.py:185-187 | Where all three models agree, the blend returns their common value. |
| Ensemble.EnsemblePrediction | src/predict.py:168-204 | The result keeps the fits, has the paths' length and has weights summing to 1. |
| Ensemble.WeightsMap | src/predict.py:199-203 | The weights dictionary has exactly the keys linear, polynomial and ml_features, with the blend's weights. |
| Ensemble.EnsembleR2AtLeastMean | src/predict.py:326-328 | Weighting the scores by themselves never gives less than their plain mean. |
| Ensemble.EnsembleR2AtMostBest | src/predict.py:326-328 | With non-negative scores the ensemble R² never exceeds the best model's score. |
| Ensemble.ChangePctRoundTrip | src/predict.py:318-321 | The change percentage recovers the forecast from the current price. For a positive price it is positive iff the forecast is above the price. |
| Ensemble.ChangePctFormsAgree | src/predict_rl.py:317 | The pipeline's `(price − current)/current·100` equals the report's `(price/current − 1)·100`. |
| Ensemble.KeyPredictions | src/predict.py:309-314 | There are four key predictions, named 4h, 8h, 24h and 48h in that order. |
| Ensemble.KeyPredictionsAligned | src/predict.py:338-360 | Key prediction k is the path point at index 0, 1, 5 or 11, stamped 4·(index + 1) hours after the last candle. Its change percentage recovers its price. |
| RlPipeline.EnsembleAdaptive | src/predict_rl.py:171-239 | The adaptive ensemble fails iff a learned-weights lookup happens and fails. Otherwise it keeps the fits and the paths' length, has weights summing to 1, and is "adaptive" iff a tracker and a condition are both present. |
| RlPipeline.AdaptiveSumToOne | src/predict_rl.py:192-201 | The learned weights name all three models, so no `.get` default is used, and they sum to 1. |
| RlPipeline.FallbackIsClassic | src/predict_rl.py:206-216 | Without a tracker or a condition the adaptive ensemble equals the classic `ensemble_prediction`, weights and path alike. |
| RlPipeline.AdaptiveColdStart | src/predict_rl.py:192-203 | Before 5 matching validations exist the learned weights are 1/3 each, whatever the fit scores. |
| RlPipeline.AdaptiveBlendBetweenModels | src/predict_rl.py:192-221 | With all percentages in the window above −1, every adaptive blended point lies between the three models' forecasts. |
| RlPipeline.EnsemblePredictionAdaptive | src/predict_rl.py:171-239 | Asking the tracker for its weights gives EnsembleAdaptive over the tracker's log. |
| RlPipeline.Forecasts | src/predict_rl.py:289-325 | There are four entries, or the weight lookup's error exactly when it fails. |
| RlPipeline.EntryMeaning | src/predict_rl.py:311-325 | An entry is stamped its minutes after `now` and priced at the last ensemble point. Its change percentage recovers that price. Its models are the paths' last points and its weights are the blend's. |
| RlPipeline.ForecastsMeaning | src/predict_rl.py:289-325 | Each of the four entries has its horizon's name and time, a change percentage that recovers its price, and weights summing to 1. It is "adaptive" iff learning is on. |
| RlPipeline.RecordedHorizonsFallDue | src/predict_rl.py:327-336 | The recorded horizons have distinct names and the 15-minute weights. Horizon k falls due exactly when the clock is its minutes past `now`. |
| RlPipeline.ForecastHorizons | src/predict_rl.py:296-325 | The horizon loop computes Forecasts for the tracker's log and stops at the first lookup error. |
| RlPipeline.MakePredictionsWithRl | src/predict_rl.py:241-351 | With learning on, the tracker first validates its ledger, so its log, buckets, marks and summary change as in ValidatePredictions. The forecasts then use the post-validation log, and exactly one record is appended last, unless the lookup fails. With learning off nothing is validated or recorded. The result echoes the time, the price, the entries, the condition, the flag and the summary. |
| Trend.AnalyzeTrend | src/predict.py:206-252 | The analysis reports the candle's RSI and MACD values, and passes through its close, 20-period average and Bollinger bands. |
| Trend.AnalyzeTrendMirror | src/predict.py:213-239 | Mirroring the candle swaps bullish and bearish, overbought and oversold, above and below the bands: the classification favours neither direction. |
| Trend.TrendMonotoneInClose | src/predict.py:213-239 | A higher close never gives a more bearish trend or a lower band position. |
| Trend.SignalsMonotone | src/predict.py:220-232 | A higher RSI never gives a lower RSI signal, and a higher MACD never gives a more bearish MACD signal. |
| Signals.BullishCount | src/trading_signals.py:83-89 | At most five bullish conditions are counted. |
| Signals.TrendOfCountMonotone | src/trading_signals.py:91-105 | More bullish conditions never give a more bearish trend. Confidence is high exactly at the two ends of the scale. |
| Signals.BearishMomentumCapsTrend | src/trading_signals.py:83-160 | Bearish momentum rules out RSI above 50, so at most three conditions hold and the trend is not a bull market. |
| Signals.ShortHistoryCapsTrend | src/trading_signals.py:117-120 | Without a 200-period average and a bullish price verdict, the trend cannot be a bull market. |
| Signals.BullMarketNeedsTwoVerdicts | src/trading_signals.py:83-92 | A bull market needs at least two bullish verdicts among the moving-average, price-action and momentum checks. |
| Signals.ClusterLevels | src/trading_signals.py:188-205 | The result is Clusters of the levels: sort them, then merge greedily, a level joining the cluster in progress iff it lies within 1% of that cluster's mean. No levels give no clusters. Otherwise there are between 1 and as many clusters as levels, ascending, each within the levels' range. |
| Signals.ClusterSorted | src/trading_signals.py:193-205 | The loop over the sorted levels computes the greedy running-mean clustering ClustersFrom. It yields ascending cluster means between the first and last level. |
| Signals.ClustersOfNarrowBand | src/trading_signals.py:188-205 | Levels all within a band narrower than 1% of its positive lower end form a single cluster inside the band. |
| Signals.ClustersOfSpreadLevels | src/trading_signals.py:188-205 | Positive levels each at least 1% above the previous one are never merged: the clusters are the levels themselves. |
| Signals.Above | src/trading_signals.py:177 | The filter keeps only levels above the price, and it is empty iff no level is above. |
| Signals.Below | src/trading_signals.py:178 | The filter keeps only levels below the price, and it is empty iff no level is below. |
| Signals.FindSupportResistance | src/trading_signals.py:162-186 | The result is SupportResistance: the clusters of the local highs above the price and of the local lows below it, the three nearest of each, and the nearest resistance (lowest cluster) and support (highest cluster). There are at most three resistances, ascending and above the price, and at most three supports, descending and below it. The nearest resistance and support exist iff some local high or low is on that side, and each is the first of its list. |
| Signals.ClusterSelection | src/trading_signals.py:182-184 | The resistance list is ascending and above the price, its first element is the lowest cluster, and it is empty only without clusters. |
| Signals.ClusterSelectionDesc | src/trading_signals.py:183-185 | The support list is descending and below the price, its first element is the highest cluster, and it is empty only without clusters. |
| Signals.TrendPoints | src/trading_signals.py:223-227 | A bullish trend awards 3 to buy only and a bearish trend 3 to short only. |
| Signals.RsiPoints | src/trading_signals.py:229-235 | RSI awards at most 2 per score, and awards short only in a bearish trend. |
| Signals.MacdPoints | src/trading_signals.py:237-242 | MACD awards at most 2 to buy or sell and at most 1 to short. |
| Signals.BandPoints | src/trading_signals.py:244-249 | Band position awards at most 2 to buy or sell and at most 1 to short. |
| Signals.SupportPoints | src/trading_signals.py:252-256 | Being near support awards only buy points, at most 2. |
| Signals.ResistancePoints | src/trading_signals.py:258-262 | Being near resistance awards sell and short points only. |
| Signals.ScoreSignals | src/trading_signals.py:218-272 | The accumulated scores equal the sum of every rule's points plus the volume point. |
| Signals.AddVolumePoint | src/trading_signals.py:264-272 | The volume step applies the high-volume bonus exactly as WithVolume defines it. |
| Signals.RulePointsBounds | src/trading_signals.py:223-262 | Before volume: buy ≤ 11, sell ≤ 8, short ≤ 8. A bullish trend keeps short ≤ 3 and a bearish trend keeps buy ≤ 8. |
| Signals.VolumeAddsAtMostOne | src/trading_signals.py:264-272 | Volume never lowers a score and adds at most one point in all. Below the threshold it changes nothing. |
| Signals.ChooseSignalMeaning | src/trading_signals.py:274-292 | WAIT is chosen iff every score is below 5. Otherwise the chosen signal has the top score, beats every signal listed before it, and has high confidence iff that score is at least 7. |
| Signals.VolumeTurnsShortIntoSell | src/trading_signals.py:207-292 | A concrete input: a candle, a bearish price action and one local high 0.5% above the close. It is detected as a bear market with resistance at that high, and scores (0, 4, 5), which chooses a medium SHORT. The volume point goes to sell, giving (0, 5, 5) and a medium SELL. |
| Signals.LeaderBonusKeepsDirection | src/trading_signals.py:264-272 | Giving the point only to a strict leader never changes the chosen direction. It differs from the rule as written only when sell beats buy and short is at least sell. |
| Signals.RiskRewardMeaning | src/trading_signals.py:339-342 | The ratio is non-negative. With risk it times the risk is the reward, and with no risk it is 0. |
| Signals.EntryLevelsBracket | src/trading_signals.py:314-333 | With a positive ATR and levels on their proper sides, a buy has stop < entry < target and a short has target < entry < stop. A sell has target = entry < stop, with ratio 0. |
| Signals.FallbackRatios | src/trading_signals.py:319-342 | Without levels, a buy or short risks 2 ATR for 3 (ratio 1.5). A WAIT risks 3 % for 3 % (ratio 1). |
| Signals.GenerateEntrySignals | src/trading_signals.py:207-312 | The signal and confidence are ChooseSignal of the scores, and the trend context is the detected trend. The scores are the rule and volume points, and the levels are EntryLevelsFor, both with the nearest support and resistance of SupportResistance over the local extremes. A non-WAIT entry is the close, and buys and shorts are bracketed when the ATR is positive. |

## Left out

- File I/O and JSON persistence (`load_*`, `save_*`) are left out. The
  constructors take the loaded documents as optional parameters, and saving
  is not modelled.
- The clock is a parameter. `datetime.now()` stamps appear as `stampedAt`,
  `now` and `validationTime`. ISO strings are represented by the date-time
  they format, so parsing and formatting are the identity.
- The fitters are not part of this model: the linear and polynomial trends,
  the feature model and its manager. Their paths and scores are inputs
  (`Fits`).
- Indicator computation and the market-condition detector are not part of
  this model; the detector's label is an input. The same holds for
  `_check_price_trend` and the centred-window local highs and lows, which
  are inputs.
- `_generate_reasoning`, the action texts and every printed message are left
  out, because they are text for people.
- Rounding to two decimals in `_calculate_entry_levels` is left out. The
  model gives the unrounded values.
- Prices, errors and weights are real numbers. The model has no
  floating-point rounding, no NaN and no infinity.
  - The validators and the change percentages divide by the current price,
    so they require it to be nonzero. The source would raise or produce
    infinity there.
  - The `abs(level − mean)/mean` and distance tests treat a zero
    denominator as numpy does (`QuotientBelow`).
- Reports, plots, the dashboard, the glossary and notifications are left
  out. This includes `generate_performance_report`,
  `generate_accuracy_report`, `plot_accuracy_over_time` and the 24-period
  visual path.
- `detect_trend` is modelled for its `'current'` timeframe only. The other
  timeframes leave the result unbound in the source.
- Counters are `nat`. The source only ever stores non-negative counts.
- Signals.GenerateEntrySignals: the `reasoning` field is left out.
- Trend.AnalyzeTrend: its ensures only states the values it copies from the
  candle. The classifications are stated by AnalyzeTrendMirror,
  TrendMonotoneInClose and SignalsMonotone.

## Findings

| source | as written | input that shows it | evidently intended | confidence | as-written member | corrected member |
|---|---|---|---|---|---|---|
| src/track_accuracy_enhanced.py:137-201 | Only whole records are marked validated. A record with a pending horizon is re-scanned, and its already-due horizons are appended again, counted twice in the buckets and the summary. | A record at minute 0 with horizons due at minutes 15 and 30, passed at minutes 20 and 25: "15min" is validated twice | Each horizon is validated once, and the record is marked when all horizons are validated (the comment at line 199) | not executed | DedupVariant.RepeatedHorizonWitness | DedupVariant.NoHorizonTwice |
| src/trading_signals.py:264-272 | On high volume the point goes to sell whenever sell beats buy, even when short is higher. | Close 100, SMA20 101, SMA50 102, no SMA200, RSI 45, MACD −1 under signal 0, histogram −1, band position 0.4, volume ratio 2, bearish price action, one local high at 100.5 and no local lows. The trend is a bear market and the resistance is 100.5. The scores (0, 4, 5) choose SHORT, and the bonus makes (0, 5, 5), choosing SELL | "Amplify strongest signal": the point goes to the strict leader, so the chosen direction never changes | not executed | Signals.VolumeTurnsShortIntoSell | Signals.LeaderBonusKeepsDirection |
