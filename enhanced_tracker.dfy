/** `EnhancedAccuracyTracker`: the ledger of predictions, the validation log,
    the global summary and the per-(condition, model) buckets, updated in place
    by recording and validating. Loading and saving the two JSON documents are
    represented by the constructor's optional stored state and by nothing,
    respectively. */
module EnhancedTracker {
  import opened Basics
  import SeqMath
  import opened Timestamps
  import opened EnhancedRecords
  import opened Performance
  import opened WeightSolver

  /** The content of the history document. */
  datatype History = History(predictions: seq<PredictionRecord>, validations: seq<ValidationRecord>, summary: Summary)

  /** Validations of the first i records, as one pass appends them. */
  lemma ScanStep(preds: seq<PredictionRecord>, i: nat, now: DateTime, actual: real)
    requires actual != 0.0 && i < |preds|
    ensures ScanValidations(preds[..i + 1], now, actual) == ScanValidations(preds[..i], now, actual) + RecordValidations(preds[i], now, actual)
  {
    assert preds[..i + 1][..i] == preds[..i];
  }

  lemma HorizonStep(rec: PredictionRecord, hs: seq<(string, HorizonForecast)>, j: nat, now: DateTime, actual: real)
    requires actual != 0.0 && j < |hs|
    ensures Due(hs[j].1, now) ==>
      HorizonValidations(rec, hs[..j + 1], now, actual) == HorizonValidations(rec, hs[..j], now, actual) + [ValidationOf(rec, hs[j].0, hs[j].1, now, actual)]
    ensures !Due(hs[j].1, now) ==>
      HorizonValidations(rec, hs[..j + 1], now, actual) == HorizonValidations(rec, hs[..j], now, actual)
  {
    assert hs[..j + 1][..j] == hs[..j];
    assert HorizonValidations(rec, hs[..j], now, actual) + [] == HorizonValidations(rec, hs[..j], now, actual);
  }

  lemma AllDueStep(hs: seq<(string, HorizonForecast)>, j: nat, now: DateTime)
    requires j < |hs|
    ensures AllDue(hs[..j + 1], now) <==> AllDue(hs[..j], now) && Due(hs[j].1, now)
  {
    assert hs[..j + 1][j] == hs[j];
    assert forall k :: 0 <= k < j ==> hs[..j + 1][k] == hs[..j][k];
  }

  lemma WellFormedSnoc(vs: seq<ValidationRecord>, v: ValidationRecord)
    requires WellFormedLog(vs) && EnsembleKey in v.errors
    ensures WellFormedLog(vs + [v])
  {
  }

  class EnhancedAccuracyTracker {
    var predictions: seq<PredictionRecord>
    var validations: seq<ValidationRecord>
    var summary: Summary
    var modelPerformance: PerformanceTable

    /** The buckets are consistent and every logged validation has its
        ensemble entry, as the tracker itself writes them. */
    ghost predicate Valid()
      reads this
    {
      AllValid(modelPerformance) && WellFormedLog(validations)
    }

    /** `__init__`: the stored documents when they exist, the empty ledger,
        the initial summary and no buckets otherwise. */
    constructor (stored: Option<History>, storedPerformance: Option<PerformanceTable>)
      requires stored.Some? ==> WellFormedLog(stored.value.validations)
      requires storedPerformance.Some? ==> AllValid(storedPerformance.value)
      ensures Valid()
      ensures stored.Some? ==>
        predictions == stored.value.predictions && validations == stored.value.validations && summary == stored.value.summary
      ensures stored.None? ==> predictions == [] && validations == [] && summary == InitialSummary
      ensures modelPerformance == if storedPerformance.Some? then storedPerformance.value else map[]
    {
      if stored.Some? {
        predictions := stored.value.predictions;
        validations := stored.value.validations;
        summary := stored.value.summary;
      } else {
        predictions := [];
        validations := [];
        summary := InitialSummary;
      }
      modelPerformance := if storedPerformance.Some? then storedPerformance.value else map[];
    }

    /** `record_prediction`: appends exactly one record and returns its id. */
    method RecordPrediction(
      timestamp: DateTime, horizons: seq<(string, HorizonInput)>, currentPrice: real,
      condition: Option<string>, weights: Option<map<string, real>>) returns (id: DateTime)
      requires Valid()
      modifies this
      ensures Valid()
      ensures id == timestamp
      ensures predictions == old(predictions) + [NewRecord(timestamp, horizons, currentPrice, condition, weights)]
      ensures validations == old(validations) && summary == old(summary) && modelPerformance == old(modelPerformance)
    {
      id := timestamp;
      var stored: seq<(string, HorizonForecast)> := [];
      var k := 0;
      while k < |horizons|
        invariant 0 <= k <= |horizons|
        invariant |stored| == k
        invariant forall j :: 0 <= j < k ==> stored[j] == (horizons[j].0, ToForecast(horizons[j].1))
      {
        var (name, h) := horizons[k];
        stored := stored + [(name, HorizonForecast(h.timestamp, h.price, OrEmpty(h.models), OrEmpty(h.weights)))];
        k := k + 1;
      }
      var rec := PredictionRecord(timestamp, timestamp, currentPrice, ConditionOrUnknown(condition), stored, OrEmpty(weights), false);
      assert rec == NewRecord(timestamp, horizons, currentPrice, condition, weights);
      predictions := predictions + [rec];
    }

    /** `_update_model_performance`: folds every error entry of v into its
        bucket of v's condition. */
    method UpdateModelPerformance(v: ValidationRecord)
      modifies this
      ensures modelPerformance == UpdatePerf(old(modelPerformance), v)
      ensures predictions == old(predictions) && validations == old(validations) && summary == old(summary)
    {
      var cond := v.marketCondition;
      var inner: map<string, Stats> := if cond in modelPerformance then modelPerformance[cond] else map[];
      ghost var inner0 := inner;
      MergeIntoNothing(inner0, v.errors);
      var remaining := v.errors.Keys;
      ghost var done: set<string> := {};
      while remaining != {}
        invariant remaining + done == v.errors.Keys && remaining !! done
        invariant inner == MergeInto(inner0, v.errors, done)
        invariant unchanged(this)
        decreases remaining
      {
        var m :| m in remaining;
        MergeIntoStep(inner0, v.errors, done, m);
        var stats := if m in inner then inner[m] else FreshStats;
        stats := Bump(stats, v.errors[m]);
        inner := inner[m := stats];
        remaining := remaining - {m};
        done := done + {m};
      }
      assert done == v.errors.Keys;
      modelPerformance := modelPerformance[cond := inner];
    }

    /** `update_summary`: a no-op on an empty log, otherwise the summary of the
        whole log stamped with `stampedAt`. */
    method UpdateSummary(stampedAt: int)
      requires WellFormedLog(validations)
      modifies this
      ensures predictions == old(predictions) && validations == old(validations) && modelPerformance == old(modelPerformance)
      ensures |validations| == 0 ==> summary == old(summary)
      ensures |validations| > 0 ==> summary == SummaryOf(|predictions|, validations, stampedAt)
    {
      if |validations| == 0 {
        return;
      }
      summary := SummaryOf(|predictions|, validations, stampedAt);
    }

    /** Appends one validation to the log and folds it into the buckets. */
    method LogValidation(v: ValidationRecord)
      requires WellFormedLog(validations) && EnsembleKey in v.errors
      modifies this
      ensures WellFormedLog(validations)
      ensures validations == old(validations) + [v]
      ensures modelPerformance == UpdatePerf(old(modelPerformance), v)
      ensures predictions == old(predictions) && summary == old(summary)
    {
      WellFormedSnoc(validations, v);
      validations := validations + [v];
      UpdateModelPerformance(v);
    }

    /** Where the inner loop of `validate_predictions` stands after the first
        j horizons of rec: the log and the buckets have grown by their
        validations, `added` counts them and `allValidated` says whether all
        of them were due. */
    ghost predicate HorizonsDone(rec: PredictionRecord, j: nat, currentTime: DateTime, currentPrice: real,
                                 log0: seq<ValidationRecord>, perf0: PerformanceTable, added: nat, allValidated: bool)
      requires currentPrice != 0.0 && j <= |rec.predictions|
      reads this
    {
      var done := HorizonValidations(rec, rec.predictions[..j], currentTime, currentPrice);
      && validations == log0 + done
      && modelPerformance == ApplyAll(perf0, done)
      && WellFormedLog(validations)
      && added == |done|
      && (allValidated <==> AllDue(rec.predictions[..j], currentTime))
    }

    /** One turn of the inner loop of `validate_predictions`: horizon j of rec
        is validated and counted when it is due; otherwise the record is no
        longer fully validated. */
    method ValidateHorizon(rec: PredictionRecord, j: nat, currentTime: DateTime, currentPrice: real,
                           ghost log0: seq<ValidationRecord>, ghost perf0: PerformanceTable,
                           added: nat, allValidated: bool) returns (added': nat, allValidated': bool)
      requires currentPrice != 0.0 && j < |rec.predictions|
      requires HorizonsDone(rec, j, currentTime, currentPrice, log0, perf0, added, allValidated)
      modifies this
      ensures HorizonsDone(rec, j + 1, currentTime, currentPrice, log0, perf0, added', allValidated')
      ensures predictions == old(predictions) && summary == old(summary)
    {
      ghost var done := HorizonValidations(rec, rec.predictions[..j], currentTime, currentPrice);
      HorizonStep(rec, rec.predictions, j, currentTime, currentPrice);
      AllDueStep(rec.predictions, j, currentTime);
      var (horizon, forecast) := rec.predictions[j];
      if Due(forecast, currentTime) {
        var v := ValidationOf(rec, horizon, forecast, currentTime, currentPrice);
        ApplyAllSnoc(perf0, done, v);
        SeqMath.AppendAssoc(log0, done, [v]);
        LogValidation(v);
        added', allValidated' := added + 1, allValidated;
      } else {
        added', allValidated' := added, false;
      }
    }

    /** The inner loop of `validate_predictions` over the horizons of one
        record not yet marked: appends a validation for each due horizon and
        folds it into the buckets; reports whether every horizon was due. */
    method ValidateHorizons(rec: PredictionRecord, currentTime: DateTime, currentPrice: real) returns (added: nat, allValidated: bool)
      requires WellFormedLog(validations) && currentPrice != 0.0
      modifies this
      ensures WellFormedLog(validations)
      ensures validations == old(validations) + HorizonValidations(rec, rec.predictions, currentTime, currentPrice)
      ensures added == |HorizonValidations(rec, rec.predictions, currentTime, currentPrice)|
      ensures modelPerformance == ApplyAll(old(modelPerformance), HorizonValidations(rec, rec.predictions, currentTime, currentPrice))
      ensures allValidated <==> AllDue(rec.predictions, currentTime)
      ensures predictions == old(predictions) && summary == old(summary)
    {
      ghost var log0 := validations;
      ghost var perf0 := modelPerformance;
      assert rec.predictions[..0] == [];
      assert log0 + [] == log0;
      added := 0;
      allValidated := true;
      var j := 0;
      while j < |rec.predictions|
        invariant 0 <= j <= |rec.predictions|
        invariant HorizonsDone(rec, j, currentTime, currentPrice, log0, perf0, added, allValidated)
        invariant predictions == old(predictions) && summary == old(summary)
      {
        added, allValidated := ValidateHorizon(rec, j, currentTime, currentPrice, log0, perf0, added, allValidated);
        j := j + 1;
      }
      assert rec.predictions[..j] == rec.predictions;
    }

    /** The body of the outer loop of `validate_predictions` for record i:
        skipped when already marked, otherwise its due horizons are validated
        and it is marked when all of them were due. */
    method ValidateRecord(i: nat, currentTime: DateTime, currentPrice: real) returns (added: nat)
      requires WellFormedLog(validations) && currentPrice != 0.0 && i < |predictions|
      modifies this
      ensures WellFormedLog(validations)
      ensures predictions == old(predictions)[i := AfterScan(old(predictions)[i], currentTime)]
      ensures validations == old(validations) + RecordValidations(old(predictions)[i], currentTime, currentPrice)
      ensures added == |RecordValidations(old(predictions)[i], currentTime, currentPrice)|
      ensures modelPerformance == ApplyAll(old(modelPerformance), RecordValidations(old(predictions)[i], currentTime, currentPrice))
      ensures summary == old(summary)
    {
      var rec := predictions[i];
      if rec.validated {
        added := 0;
        assert validations == old(validations) + [];
        return;
      }
      var allValidated;
      added, allValidated := ValidateHorizons(rec, currentTime, currentPrice);
      if allValidated {
        predictions := predictions[i := rec.(validated := true)];
      } else {
        assert predictions == predictions[i := rec];
      }
    }

    /** The outer loop of `validate_predictions`: every record in turn. */
    method ScanLedger(currentTime: DateTime, currentPrice: real) returns (count: nat)
      requires WellFormedLog(validations) && currentPrice != 0.0
      modifies this
      ensures WellFormedLog(validations)
      ensures validations == old(validations) + ScanValidations(old(predictions), currentTime, currentPrice)
      ensures count == |ScanValidations(old(predictions), currentTime, currentPrice)|
      ensures predictions == MarkedAfter(old(predictions), currentTime)
      ensures modelPerformance == ApplyAll(old(modelPerformance), ScanValidations(old(predictions), currentTime, currentPrice))
      ensures summary == old(summary)
    {
      ghost var preds0 := predictions;
      ghost var log0 := validations;
      ghost var perf0 := modelPerformance;
      ghost var done: seq<ValidationRecord> := [];
      count := 0;
      var i := 0;
      while i < |predictions|
        invariant |predictions| == |preds0|
        invariant 0 <= i <= |predictions|
        invariant forall k :: 0 <= k < i ==> predictions[k] == AfterScan(preds0[k], currentTime)
        invariant forall k :: i <= k < |predictions| ==> predictions[k] == preds0[k]
        invariant done == ScanValidations(preds0[..i], currentTime, currentPrice)
        invariant validations == log0 + done
        invariant count == |done|
        invariant modelPerformance == ApplyAll(perf0, done)
        invariant WellFormedLog(validations)
        invariant summary == old(summary)
      {
        ScanStep(preds0, i, currentTime, currentPrice);
        ghost var newOnes := RecordValidations(preds0[i], currentTime, currentPrice);
        var added := ValidateRecord(i, currentTime, currentPrice);
        ApplyAllConcat(perf0, done, newOnes);
        count := count + added;
        SeqMath.AppendAssoc(log0, done, newOnes);
        done := done + newOnes;
        assert predictions[i] == AfterScan(preds0[i], currentTime);
        i := i + 1;
      }
      assert preds0[..i] == preds0;
    }

    /** `validate_predictions`: one pass over the ledger. Returns the number of
        validations appended; the summary is recomputed only when it is
        positive. */
    method ValidatePredictions(currentTime: DateTime, currentPrice: real, stampedAt: int) returns (count: nat)
      requires Valid() && currentPrice != 0.0
      modifies this
      ensures Valid()
      ensures validations == old(validations) + ScanValidations(old(predictions), currentTime, currentPrice)
      ensures count == |ScanValidations(old(predictions), currentTime, currentPrice)|
      ensures predictions == MarkedAfter(old(predictions), currentTime)
      ensures modelPerformance == ApplyAll(old(modelPerformance), ScanValidations(old(predictions), currentTime, currentPrice))
      ensures count == 0 ==> summary == old(summary)
      ensures count > 0 ==> summary == SummaryOf(|predictions|, validations, stampedAt)
    {
      ApplyAllValid(modelPerformance, ScanValidations(predictions, currentTime, currentPrice));
      count := ScanLedger(currentTime, currentPrice);
      if count > 0 {
        UpdateSummary(stampedAt);
      }
    }

    /** `get_model_weights_for_condition`, reading the validation log. */
    method GetModelWeightsForCondition(cond: string, window: int) returns (weights: Result<map<string, real>>)
      ensures weights == WeightsFor(validations, cond, window)
    {
      weights := ComputeWeights(validations, cond, window);
    }
  }
}
