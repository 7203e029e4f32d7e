/** The prediction pipeline with learned weights: `ensemble_prediction_adaptive`
    and `make_predictions_with_rl`.

    With learning enabled the pipeline first validates the tracker's past
    predictions against the current price, then forecasts four horizons
    (15, 30, 60 and 120 minutes) blending the three models with the weights
    the tracker has learned for the detected market condition, and finally
    records the new forecasts for later validation. With learning disabled
    the blend falls back to the fit scores and nothing is validated or
    recorded.

    The fitters, the market-condition detector and the clock are inputs
    here: `fits[k]` is what the three fitters produce for the k-th horizon,
    `condition` is the label the detector reports, and the two clock reads
    of the source are the parameters `validationTime` and `now`. */
module RlPipeline {
  import opened Basics
  import opened Timestamps
  import opened Ensemble
  import opened EnhancedRecords
  import opened Performance
  import WeightSolver
  import opened EnhancedTracker

  datatype WeightSource = Adaptive | R2Scores

  datatype AdaptiveResult = AdaptiveResult(ensemble: seq<real>, fits: Fits, weights: Weights, source: WeightSource)

  /** `adaptive_weights.get(name, 1/3)` for the linear, polynomial and
      random-forest model. */
  function FromAdaptive(m: map<string, real>): Weights
  {
    Weights(
      GetOr(m, WeightSolver.Linear, Third),
      GetOr(m, WeightSolver.Polynomial, Third),
      GetOr(m, WeightSolver.RandomForest, Third))
  }

  /** The learned weights for `condition` when a tracker (its validation log)
      and a condition are at hand; `None` when the score weights apply. */
  function LearnedWeights(log: Option<seq<ValidationRecord>>, condition: Option<string>): Option<Result<map<string, real>>>
  {
    if log.Some? && condition.Some? then
      Some(WeightSolver.WeightsFor(log.value, condition.value, WeightSolver.DefaultWindow))
    else None
  }

  /** `ensemble_prediction_adaptive` on the fitters' outputs. `log` is the
      validation log of the tracker when there is one. Looking up the learned
      weights can fail with the tracker's ZeroDivisionError. */
  function EnsembleAdaptive(f: Fits, log: Option<seq<ValidationRecord>>, condition: Option<string>): (r: Result<AdaptiveResult>)
    requires Aligned(f)
    ensures r.Err? <==> LearnedWeights(log, condition).Some? && LearnedWeights(log, condition).value.Err?
    ensures r.Ok? ==> r.value.fits == f && |r.value.ensemble| == |f.linear.path|
    ensures r.Ok? ==> (r.value.source == Adaptive <==> log.Some? && condition.Some?)
    ensures r.Ok? ==> r.value.weights.linear + r.value.weights.polynomial + r.value.weights.ml == 1.0
  {
    match LearnedWeights(log, condition)
    case Some(Err(e)) => Err(e)
    case Some(Ok(m)) =>
      AdaptiveSumToOne(log.value, condition.value);
      var w := FromAdaptive(m);
      Ok(AdaptiveResult(Blend(w, f), f, w, Adaptive))
    case None =>
      ScoreWeightsSumToOne(f);
      var w := ScoreWeights(f);
      Ok(AdaptiveResult(Blend(w, f), f, w, R2Scores))
  }

  /** The learned weights name exactly the three models, so no default of
      `.get` is ever used, and they add up to one. */
  lemma AdaptiveSumToOne(log: seq<ValidationRecord>, condition: string)
    requires WeightSolver.WeightsFor(log, condition, WeightSolver.DefaultWindow).Ok?
    ensures var m := WeightSolver.WeightsFor(log, condition, WeightSolver.DefaultWindow).value;
      && FromAdaptive(m) == Weights(m[WeightSolver.Linear], m[WeightSolver.Polynomial], m[WeightSolver.RandomForest])
      && FromAdaptive(m).linear + FromAdaptive(m).polynomial + FromAdaptive(m).ml == 1.0
  {
    WeightSolver.WeightsNormalised(WeightSolver.RecentForCondition(log, condition, WeightSolver.DefaultWindow));
  }

  /** Without a tracker or a condition the adaptive ensemble is the classic
      one of `ensemble_prediction`. */
  lemma FallbackIsClassic(f: Fits, log: Option<seq<ValidationRecord>>, condition: Option<string>)
    requires Aligned(f)
    requires log.None? || condition.None?
    ensures EnsembleAdaptive(f, log, condition).Ok?
    ensures EnsembleAdaptive(f, log, condition).value.source == R2Scores
    ensures EnsembleAdaptive(f, log, condition).value.ensemble == EnsemblePrediction(f).ensemble
    ensures EnsembleAdaptive(f, log, condition).value.weights == EnsemblePrediction(f).weights
  {
  }

  /** Before five matching validations exist the learned weights are a third
      each, whatever the fit scores, and the source says "adaptive". */
  lemma AdaptiveColdStart(f: Fits, log: seq<ValidationRecord>, condition: string)
    requires Aligned(f)
    requires |WeightSolver.RecentForCondition(log, condition, WeightSolver.DefaultWindow)| < WeightSolver.MinSamples
    ensures EnsembleAdaptive(f, Some(log), Some(condition)) == Ok(AdaptiveResult(Blend(Uniform, f), f, Uniform, Adaptive))
  {
    WeightSolver.ColdStart(log, condition, WeightSolver.DefaultWindow);
  }

  /** When no percentage error of the tracker's window is -1 or below, the
      learned weights are a distribution, so every blended point lies between
      the three models' forecasts. */
  lemma AdaptiveBlendBetweenModels(f: Fits, log: seq<ValidationRecord>, condition: string)
    requires Aligned(f)
    requires var recent := WeightSolver.RecentForCondition(log, condition, WeightSolver.DefaultWindow);
      forall i, m :: 0 <= i < |recent| && m in recent[i].errors ==> recent[i].errors[m].percentage > -1.0
    ensures EnsembleAdaptive(f, Some(log), Some(condition)).Ok?
    ensures var r := EnsembleAdaptive(f, Some(log), Some(condition)).value;
      forall i :: 0 <= i < |f.linear.path| ==>
        Min3(f.linear.path[i], f.polynomial.path[i], f.ml.path[i]) <= r.ensemble[i]
        <= Max3(f.linear.path[i], f.polynomial.path[i], f.ml.path[i])
  {
    var recent := WeightSolver.RecentForCondition(log, condition, WeightSolver.DefaultWindow);
    WeightSolver.WeightsInUnitInterval(recent);
    AdaptiveSumToOne(log, condition);
    var m := WeightSolver.WeightsFor(log, condition, WeightSolver.DefaultWindow).value;
    assert Distribution(FromAdaptive(m));
    BlendBetweenModels(FromAdaptive(m), f);
  }

  /** `ensemble_prediction_adaptive` as the pipeline calls it, asking the
      tracker for its weights. */
  method EnsemblePredictionAdaptive(f: Fits, tracker: EnhancedAccuracyTracker?, condition: Option<string>)
    returns (r: Result<AdaptiveResult>)
    requires Aligned(f)
    ensures r == EnsembleAdaptive(f, if tracker != null then Some(tracker.validations) else None, condition)
  {
    if tracker != null && condition.Some? {
      var learned := tracker.GetModelWeightsForCondition(condition.value, WeightSolver.DefaultWindow);
      match learned
      case Err(e) =>
        return Err(e);
      case Ok(m) =>
        AdaptiveSumToOne(tracker.validations, condition.value);
        var w := FromAdaptive(m);
        return Ok(AdaptiveResult(Blend(w, f), f, w, Adaptive));
    }
    ScoreWeightsSumToOne(f);
    var w := ScoreWeights(f);
    r := Ok(AdaptiveResult(Blend(w, f), f, w, R2Scores));
  }

  // ---------------------------------------------------------------------
  // make_predictions_with_rl

  /** The horizons of the pipeline, in the order of its dictionary. */
  const Horizons: seq<(string, nat)> := [("15min", 15), ("30min", 30), ("60min", 60), ("120min", 120)]

  /** One entry of the `predictions` dictionary. */
  datatype HorizonEntry = HorizonEntry(
    timestamp: DateTime,
    price: real,
    changePct: real,
    models: map<string, real>,
    weights: map<string, real>,
    source: WeightSource)

  /** The pipeline's result; `marketCondition` is the detected label and
      `accuracySummary` the tracker's summary, both absent without learning. */
  datatype RlResult = RlResult(
    timestamp: DateTime,
    currentPrice: real,
    predictions: seq<(string, HorizonEntry)>,
    marketCondition: Option<string>,
    rlEnabled: bool,
    accuracySummary: Option<Summary>)

  /** Fitter outputs a horizon can be forecast from: three paths of one
      positive length. */
  predicate Usable(f: Fits)
  {
    Aligned(f) && |f.linear.path| > 0
  }

  function Last(s: seq<real>): real
    requires |s| > 0
  {
    s[|s| - 1]
  }

  /** The entry for a horizon `minutes` ahead of `now`. */
  function EntryOf(r: AdaptiveResult, minutes: nat, now: DateTime, currentPrice: real): HorizonEntry
    requires Usable(r.fits) && |r.ensemble| == |r.fits.linear.path| && currentPrice != 0.0
  {
    var price := Last(r.ensemble);
    HorizonEntry(
      AddMinutes(now, minutes),
      price,
      (price - currentPrice) / currentPrice * 100.0,
      map[WeightSolver.Linear := Last(r.fits.linear.path),
          WeightSolver.Polynomial := Last(r.fits.polynomial.path),
          WeightSolver.RandomForest := Last(r.fits.ml.path)],
      WeightsMap(r.weights),
      r.source)
  }

  predicate AllUsable(fits: seq<Fits>)
  {
    |fits| == |Horizons| && forall k :: 0 <= k < |fits| ==> Usable(fits[k])
  }

  /** The four entries, or the error of the weight lookup. */
  function Forecasts(fits: seq<Fits>, log: Option<seq<ValidationRecord>>, condition: Option<string>, now: DateTime, currentPrice: real)
    : (r: Result<seq<(string, HorizonEntry)>>)
    requires AllUsable(fits) && currentPrice != 0.0
    ensures r.Err? <==> LearnedWeights(log, condition).Some? && LearnedWeights(log, condition).value.Err?
    ensures r.Ok? ==> |r.value| == |Horizons|
  {
    if LearnedWeights(log, condition).Some? && LearnedWeights(log, condition).value.Err? then
      Err(LearnedWeights(log, condition).value.error)
    else
      Ok(seq(|Horizons|, k requires 0 <= k < |Horizons| =>
        (Horizons[k].0, EntryOf(EnsembleAdaptive(fits[k], log, condition).value, Horizons[k].1, now, currentPrice))))
  }

  /** What `record_prediction` is handed for one entry. */
  function InputOf(e: HorizonEntry): HorizonInput
  {
    HorizonInput(e.timestamp, e.price, Some(e.models), Some(e.weights))
  }

  function Inputs(entries: seq<(string, HorizonEntry)>): (r: seq<(string, HorizonInput)>)
    ensures |r| == |entries|
    ensures forall k :: 0 <= k < |entries| ==> r[k] == (entries[k].0, InputOf(entries[k].1))
  {
    seq(|entries|, k requires 0 <= k < |entries| => (entries[k].0, InputOf(entries[k].1)))
  }

  /** The record the pipeline appends: its horizons and the 15-minute
      weights. */
  function RecordOf(entries: seq<(string, HorizonEntry)>, now: DateTime, currentPrice: real, condition: Option<string>): PredictionRecord
    requires |entries| > 0
  {
    NewRecord(now, Inputs(entries), currentPrice, condition, Some(entries[0].1.weights))
  }

  /** The change percentage `pct` takes the current price to `price`. */
  predicate RecoversPrice(current: real, pct: real, price: real)
  {
    current * (1.0 + pct / 100.0) == price
  }

  /** One entry is stamped its horizon's minutes after `now`, its change
      percentage recovers its price from the current price, its models are
      the last points of the three paths and its weights are the blend's. */
  lemma EntryMeaning(r: AdaptiveResult, minutes: nat, now: DateTime, currentPrice: real)
    requires Usable(r.fits) && |r.ensemble| == |r.fits.linear.path| && currentPrice != 0.0
    ensures var e := EntryOf(r, minutes, now, currentPrice);
      && e.timestamp == AddMinutes(now, minutes)
      && e.price == Last(r.ensemble)
      && RecoversPrice(currentPrice, e.changePct, e.price)
      && e.models[WeightSolver.Linear] == Last(r.fits.linear.path)
      && e.models[WeightSolver.Polynomial] == Last(r.fits.polynomial.path)
      && e.models[WeightSolver.RandomForest] == Last(r.fits.ml.path)
      && e.weights == WeightsMap(r.weights)
      && e.source == r.source
  {
    var price := Last(r.ensemble);
    ChangePctFormsAgree(price, currentPrice);
    ChangePctRoundTrip(price, currentPrice);
  }

  /** Every entry of the four is the one for its horizon; its weights add up
      to one, and its source is "adaptive" exactly when learning is on. */
  lemma ForecastsMeaning(fits: seq<Fits>, log: Option<seq<ValidationRecord>>, condition: Option<string>, now: DateTime, currentPrice: real)
    requires AllUsable(fits) && currentPrice != 0.0
    requires Forecasts(fits, log, condition, now, currentPrice).Ok?
    ensures var es := Forecasts(fits, log, condition, now, currentPrice).value;
      forall k :: 0 <= k < |Horizons| ==>
        && es[k].0 == Horizons[k].0
        && es[k].1.timestamp == AddMinutes(now, Horizons[k].1)
        && RecoversPrice(currentPrice, es[k].1.changePct, es[k].1.price)
        && es[k].1.weights["linear"] + es[k].1.weights["polynomial"] + es[k].1.weights[MlFeatures] == 1.0
        && (es[k].1.source == Adaptive <==> log.Some? && condition.Some?)
  {
    var es := Forecasts(fits, log, condition, now, currentPrice).value;
    forall k | 0 <= k < |Horizons|
      ensures && es[k].0 == Horizons[k].0
        && es[k].1.timestamp == AddMinutes(now, Horizons[k].1)
        && RecoversPrice(currentPrice, es[k].1.changePct, es[k].1.price)
        && es[k].1.weights["linear"] + es[k].1.weights["polynomial"] + es[k].1.weights[MlFeatures] == 1.0
        && (es[k].1.source == Adaptive <==> log.Some? && condition.Some?)
    {
      var a := EnsembleAdaptive(fits[k], log, condition).value;
      assert es[k] == (Horizons[k].0, EntryOf(a, Horizons[k].1, now, currentPrice));
      EntryMeaning(a, Horizons[k].1, now, currentPrice);
    }
  }

  /** The four horizon names are distinct. */
  lemma HorizonNamesDistinct()
    ensures UniqueKeys(Horizons)
  {
  }

  /** The recorded forecast for the k-th horizon falls due exactly when the
      clock has run that horizon's minutes past `now`; the record's horizon
      names are distinct and its weights are the 15-minute ones. */
  lemma RecordedHorizonsFallDue(entries: seq<(string, HorizonEntry)>, fits: seq<Fits>, log: Option<seq<ValidationRecord>>,
      condition: Option<string>, now: DateTime, currentPrice: real, later: DateTime)
    requires AllUsable(fits) && currentPrice != 0.0 && IsAware(now)
    requires Forecasts(fits, log, condition, now, currentPrice) == Ok(entries)
    ensures var rec := RecordOf(entries, now, currentPrice, condition);
      && UniqueKeys(rec.predictions)
      && rec.modelWeights == entries[0].1.weights
      && forall k :: 0 <= k < |Horizons| ==>
        rec.predictions[k].0 == Horizons[k].0
        && (Due(rec.predictions[k].1, later) <==> UtcInstant(EnsureUtcAware(later)) >= UtcInstant(now) + Horizons[k].1)
  {
    ForecastsMeaning(fits, log, condition, now, currentPrice);
    RecordDue(entries, now, currentPrice, condition, later);
  }

  lemma RecordDue(entries: seq<(string, HorizonEntry)>, now: DateTime, currentPrice: real, condition: Option<string>, later: DateTime)
    requires |entries| == |Horizons| && IsAware(now)
    requires forall k :: 0 <= k < |Horizons| ==>
      entries[k].0 == Horizons[k].0 && entries[k].1.timestamp == AddMinutes(now, Horizons[k].1)
    ensures var rec := RecordOf(entries, now, currentPrice, condition);
      && UniqueKeys(rec.predictions)
      && rec.modelWeights == entries[0].1.weights
      && forall k :: 0 <= k < |Horizons| ==>
        rec.predictions[k].0 == Horizons[k].0
        && (Due(rec.predictions[k].1, later) <==> UtcInstant(EnsureUtcAware(later)) >= UtcInstant(now) + Horizons[k].1)
  {
    var rec := RecordOf(entries, now, currentPrice, condition);
    var ins := Inputs(entries);
    forall k | 0 <= k < |Horizons|
      ensures rec.predictions[k].0 == Horizons[k].0
      ensures rec.predictions[k].1.timestamp == AddMinutes(now, Horizons[k].1)
    {
      assert ins[k] == (entries[k].0, InputOf(entries[k].1));
    }
    HorizonNamesDistinct();
  }

  /** The loop over the horizons: the tracker is only read. */
  method ForecastHorizons(fits: seq<Fits>, tracker: EnhancedAccuracyTracker?, condition: Option<string>, now: DateTime, currentPrice: real)
    returns (r: Result<seq<(string, HorizonEntry)>>)
    requires AllUsable(fits) && currentPrice != 0.0
    ensures r == Forecasts(fits, if tracker != null then Some(tracker.validations) else None, condition, now, currentPrice)
  {
    var log := if tracker != null then Some(tracker.validations) else None;
    var entries: seq<(string, HorizonEntry)> := [];
    var k := 0;
    while k < |Horizons|
      invariant 0 <= k <= |Horizons|
      invariant |entries| == k
      invariant forall j :: 0 <= j < k ==>
        EnsembleAdaptive(fits[j], log, condition).Ok?
        && entries[j] == (Horizons[j].0, EntryOf(EnsembleAdaptive(fits[j], log, condition).value, Horizons[j].1, now, currentPrice))
    {
      var (name, minutes) := Horizons[k];
      var result := EnsemblePredictionAdaptive(fits[k], tracker, condition);
      if result.Err? {
        assert Forecasts(fits, log, condition, now, currentPrice) == Err(ZeroDivisionError);
        return Err(result.error);
      }
      entries := entries + [(name, EntryOf(result.value, minutes, now, currentPrice))];
      k := k + 1;
    }
    ghost var expected := Forecasts(fits, log, condition, now, currentPrice);
    assert EnsembleAdaptive(fits[0], log, condition).Ok?;
    assert forall j :: 0 <= j < |Horizons| ==> entries[j] == expected.value[j];
    assert entries == expected.value;
    r := Ok(entries);
  }

  /** `make_predictions_with_rl`. With learning on (`tracker` present) the
      tracker first validates its ledger at `validationTime`, the forecasts
      then use the weights learned from the log as it stands after that
      validation, and the new record is appended last; a failing weight
      lookup ends the run after the validation and before any recording. */
  method MakePredictionsWithRl(
      enableRl: bool, tracker: EnhancedAccuracyTracker?, condition: Option<string>,
      validationTime: DateTime, now: DateTime, currentPrice: real, stampedAt: int, fits: seq<Fits>)
    returns (r: Result<RlResult>)
    requires enableRl <==> tracker != null
    requires enableRl <==> condition.Some?
    requires tracker != null ==> tracker.Valid()
    requires AllUsable(fits) && currentPrice != 0.0
    modifies tracker
    ensures tracker != null ==> tracker.Valid()
    ensures tracker != null ==>
      tracker.validations == old(tracker.validations) + ScanValidations(old(tracker.predictions), validationTime, currentPrice)
    ensures tracker != null ==>
      tracker.modelPerformance == ApplyAll(old(tracker.modelPerformance), ScanValidations(old(tracker.predictions), validationTime, currentPrice))
    ensures tracker != null ==>
      tracker.summary == if |ScanValidations(old(tracker.predictions), validationTime, currentPrice)| > 0
        then SummaryOf(|old(tracker.predictions)|, tracker.validations, stampedAt)
        else old(tracker.summary)
    ensures var log := if tracker != null then Some(tracker.validations) else None;
      var expected := Forecasts(fits, log, condition, now, currentPrice);
      && (r.Err? <==> expected.Err?)
      && (r.Ok? ==> r.value == RlResult(now, currentPrice, expected.value, condition, enableRl,
                                        if tracker != null then Some(tracker.summary) else None))
    ensures tracker != null && r.Err? ==> tracker.predictions == MarkedAfter(old(tracker.predictions), validationTime)
    ensures tracker != null && r.Ok? ==>
      tracker.predictions == MarkedAfter(old(tracker.predictions), validationTime) + [RecordOf(r.value.predictions, now, currentPrice, condition)]
  {
    if tracker != null {
      var validatedCount := tracker.ValidatePredictions(validationTime, currentPrice, stampedAt);
    }
    var forecasts := ForecastHorizons(fits, tracker, condition, now, currentPrice);
    if forecasts.Err? {
      return Err(forecasts.error);
    }
    var entries := forecasts.value;
    if tracker != null {
      var id := tracker.RecordPrediction(now, Inputs(entries), currentPrice, condition, Some(entries[0].1.weights));
    }
    r := Ok(RlResult(now, currentPrice, entries, condition, enableRl,
                     if tracker != null then Some(tracker.summary) else None));
  }
}
