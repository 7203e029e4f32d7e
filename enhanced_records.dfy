/** The records of the enhanced accuracy ledger and the pure rules that turn
    a due horizon into a validation: what `record_prediction` stores and what
    one pass of `validate_predictions` appends and marks, as functions of the
    ledger before the pass. The class that performs the pass step by step is
    in EnhancedTracker. */
module EnhancedRecords {
  import opened Basics
  import opened Timestamps

  const EnsembleKey := "ensemble"
  const UnknownCondition := "unknown"

  /** One horizon as the caller hands it to `record_prediction`; keys other
      than these four (change_pct, weight_source) are not read. `models` and
      `weights` may be absent. */
  datatype HorizonInput = HorizonInput(
    timestamp: DateTime,
    price: real,
    models: Option<map<string, real>>,
    weights: Option<map<string, real>>)

  /** One horizon as stored in a prediction record. */
  datatype HorizonForecast = HorizonForecast(
    timestamp: DateTime,
    ensemblePrice: real,
    models: map<string, real>,
    weights: map<string, real>)

  /** A ledger entry. `predictions` keeps the horizons in the order of the
      caller's dictionary. */
  datatype PredictionRecord = PredictionRecord(
    id: DateTime,
    predictionTime: DateTime,
    currentPrice: real,
    marketCondition: string,
    predictions: seq<(string, HorizonForecast)>,
    modelWeights: map<string, real>,
    validated: bool)

  datatype Direction = Up | Down

  datatype ErrorEntry = ErrorEntry(absolute: real, percentage: real, directionCorrect: bool)

  datatype ValidationRecord = ValidationRecord(
    predictionId: DateTime,
    predictionTime: DateTime,
    validationTime: DateTime,
    targetTime: DateTime,
    horizon: string,
    actualPrice: real,
    marketCondition: string,
    errors: map<string, ErrorEntry>)

  /** A Python dictionary has each key once. */
  predicate UniqueKeys<V>(kvs: seq<(string, V)>)
  {
    forall i, j :: 0 <= i < j < |kvs| ==> kvs[i].0 != kvs[j].0
  }

  // ---------------------------------------------------------------------
  // record_prediction

  /** `market_condition or 'unknown'`: a missing or empty label becomes "unknown". */
  function ConditionOrUnknown(c: Option<string>): string
  {
    if c.Some? && c.value != "" then c.value else UnknownCondition
  }

  function ToForecast(h: HorizonInput): HorizonForecast
  {
    HorizonForecast(h.timestamp, h.price, OrEmpty(h.models), OrEmpty(h.weights))
  }

  /** The record `record_prediction` appends. */
  function NewRecord(
    timestamp: DateTime, horizons: seq<(string, HorizonInput)>, currentPrice: real,
    condition: Option<string>, weights: Option<map<string, real>>): (r: PredictionRecord)
    ensures r.id == r.predictionTime == timestamp
    ensures !r.validated
    ensures r.currentPrice == currentPrice
    ensures r.marketCondition != ""
    ensures condition.None? || condition == Some("") ==> r.marketCondition == UnknownCondition
    ensures condition.Some? && condition.value != "" ==> r.marketCondition == condition.value
    ensures weights.None? ==> r.modelWeights == map[]
    ensures weights.Some? ==> r.modelWeights == weights.value
    ensures |r.predictions| == |horizons|
    ensures forall k :: 0 <= k < |horizons| ==>
      var (name, h) := horizons[k];
      && r.predictions[k].0 == name
      && r.predictions[k].1.timestamp == h.timestamp
      && r.predictions[k].1.ensemblePrice == h.price
      && (h.models.None? ==> r.predictions[k].1.models == map[])
      && (h.weights.None? ==> r.predictions[k].1.weights == map[])
      && (h.models.Some? ==> r.predictions[k].1.models == h.models.value)
      && (h.weights.Some? ==> r.predictions[k].1.weights == h.weights.value)
  {
    PredictionRecord(
      timestamp, timestamp, currentPrice, ConditionOrUnknown(condition),
      seq(|horizons|, k requires 0 <= k < |horizons| => (horizons[k].0, ToForecast(horizons[k].1))),
      OrEmpty(weights), false)
  }

  // ---------------------------------------------------------------------
  // validate_predictions: one horizon

  /** 'up' only when strictly above the base price; a tie counts as 'down'. */
  function DirectionOf(price: real, base: real): Direction
  {
    if price > base then Up else Down
  }

  /** Error of one predicted price against the actual price, relative to the
      record's base price. */
  function ErrorOf(predicted: real, actual: real, base: real): (e: ErrorEntry)
    requires actual != 0.0
    ensures e.absolute >= 0.0
    ensures e.absolute == predicted - actual || e.absolute == actual - predicted
    ensures e.percentage * actual == e.absolute * 100.0
    ensures e.directionCorrect <==> ((predicted > base) <==> (actual > base))
  {
    var err := Abs(predicted - actual);
    ErrorEntry(err, err / actual * 100.0, DirectionOf(predicted, base) == DirectionOf(actual, base))
  }

  /** `{'ensemble': ..., **model_errors}`: one entry per model of the horizon
      plus the ensemble; a model named "ensemble" would replace the ensemble
      entry, as the later key wins in the Python literal. */
  function ErrorsFor(f: HorizonForecast, actual: real, base: real): (errs: map<string, ErrorEntry>)
    requires actual != 0.0
    ensures errs.Keys == f.models.Keys + {EnsembleKey}
    ensures EnsembleKey !in f.models ==> errs[EnsembleKey] == ErrorOf(f.ensemblePrice, actual, base)
    ensures forall m :: m in f.models ==> errs[m] == ErrorOf(f.models[m], actual, base)
  {
    map[EnsembleKey := ErrorOf(f.ensemblePrice, actual, base)]
      + map m | m in f.models :: ErrorOf(f.models[m], actual, base)
  }

  /** `current_time >= target_time` after both are made UTC-aware. */
  predicate Due(f: HorizonForecast, now: DateTime)
  {
    UtcInstant(EnsureUtcAware(now)) >= UtcInstant(EnsureUtcAware(f.timestamp))
  }

  /** The validation record appended for a due horizon. */
  function ValidationOf(rec: PredictionRecord, name: string, f: HorizonForecast, now: DateTime, actual: real): (v: ValidationRecord)
    requires actual != 0.0
    ensures v.predictionId == rec.id && v.predictionTime == rec.predictionTime
    ensures v.horizon == name && v.marketCondition == rec.marketCondition
    ensures v.actualPrice == actual
    ensures v.validationTime == EnsureUtcAware(now) && v.targetTime == EnsureUtcAware(f.timestamp)
    ensures IsAware(v.validationTime) && IsAware(v.targetTime)
    ensures v.errors == ErrorsFor(f, actual, rec.currentPrice)
    ensures EnsembleKey in v.errors
  {
    ValidationRecord(
      rec.id, rec.predictionTime, EnsureUtcAware(now), EnsureUtcAware(f.timestamp),
      name, actual, rec.marketCondition, ErrorsFor(f, actual, rec.currentPrice))
  }

  // ---------------------------------------------------------------------
  // validate_predictions: one record, one pass

  /** Validations for the due horizons among `hs`, in order. */
  function HorizonValidations(rec: PredictionRecord, hs: seq<(string, HorizonForecast)>, now: DateTime, actual: real): seq<ValidationRecord>
    requires actual != 0.0
  {
    if hs == [] then []
    else
      var last := hs[|hs| - 1];
      HorizonValidations(rec, hs[..|hs| - 1], now, actual)
        + (if Due(last.1, now) then [ValidationOf(rec, last.0, last.1, now, actual)] else [])
  }

  /** A record already marked validated is skipped. */
  function RecordValidations(rec: PredictionRecord, now: DateTime, actual: real): seq<ValidationRecord>
    requires actual != 0.0
  {
    if rec.validated then [] else HorizonValidations(rec, rec.predictions, now, actual)
  }

  /** Everything one pass appends, record by record. */
  function ScanValidations(preds: seq<PredictionRecord>, now: DateTime, actual: real): seq<ValidationRecord>
    requires actual != 0.0
  {
    if preds == [] then []
    else ScanValidations(preds[..|preds| - 1], now, actual) + RecordValidations(preds[|preds| - 1], now, actual)
  }

  predicate AllDue(hs: seq<(string, HorizonForecast)>, now: DateTime)
  {
    forall k :: 0 <= k < |hs| ==> Due(hs[k].1, now)
  }

  /** The record after the pass: marked validated iff it was not yet and every
      horizon was due in this pass. */
  function AfterScan(rec: PredictionRecord, now: DateTime): (r: PredictionRecord)
    ensures r == rec.(validated := r.validated)
    ensures r.validated <==> rec.validated || AllDue(rec.predictions, now)
  {
    if !rec.validated && AllDue(rec.predictions, now) then rec.(validated := true) else rec
  }

  function MarkedAfter(preds: seq<PredictionRecord>, now: DateTime): (r: seq<PredictionRecord>)
    ensures |r| == |preds|
    ensures forall i :: 0 <= i < |preds| ==> r[i] == AfterScan(preds[i], now)
  {
    seq(|preds|, i requires 0 <= i < |preds| => AfterScan(preds[i], now))
  }

  // ---------------------------------------------------------------------
  // Facts about one pass

  /** Number of due horizons. */
  function DueCount(hs: seq<(string, HorizonForecast)>, now: DateTime): nat
  {
    if hs == [] then 0
    else DueCount(hs[..|hs| - 1], now) + (if Due(hs[|hs| - 1].1, now) then 1 else 0)
  }

  /** Number of validations in `vs` for the horizon called `name`. */
  function HorizonCount(vs: seq<ValidationRecord>, name: string): nat
  {
    if vs == [] then 0
    else HorizonCount(vs[..|vs| - 1], name) + (if vs[|vs| - 1].horizon == name then 1 else 0)
  }

  lemma {:induction false} HorizonCountAppend(a: seq<ValidationRecord>, b: seq<ValidationRecord>, name: string)
    ensures HorizonCount(a + b, name) == HorizonCount(a, name) + HorizonCount(b, name)
    decreases |b|
  {
    if b == [] {
      assert a + b == a;
    } else {
      var b' := b[..|b| - 1];
      assert (a + b)[..|a + b| - 1] == a + b';
      HorizonCountAppend(a, b', name);
    }
  }

  /** One validation per due horizon, each for that horizon, the record and its
      condition. */
  lemma {:induction false} HorizonValidationsShape(rec: PredictionRecord, hs: seq<(string, HorizonForecast)>, now: DateTime, actual: real)
    requires actual != 0.0
    ensures |HorizonValidations(rec, hs, now, actual)| == DueCount(hs, now) <= |hs|
    ensures forall v :: v in HorizonValidations(rec, hs, now, actual) ==>
      v.predictionId == rec.id && v.marketCondition == rec.marketCondition && EnsembleKey in v.errors
      && exists k :: 0 <= k < |hs| && Due(hs[k].1, now) && v == ValidationOf(rec, hs[k].0, hs[k].1, now, actual)
  {
    if hs != [] {
      var front := hs[..|hs| - 1];
      HorizonValidationsShape(rec, front, now, actual);
      forall v | v in HorizonValidations(rec, hs, now, actual)
        ensures exists k :: 0 <= k < |hs| && Due(hs[k].1, now) && v == ValidationOf(rec, hs[k].0, hs[k].1, now, actual)
      {
        if v in HorizonValidations(rec, front, now, actual) {
          var k :| 0 <= k < |front| && Due(front[k].1, now) && v == ValidationOf(rec, front[k].0, front[k].1, now, actual);
          assert hs[k] == front[k];
        } else {
          assert v == ValidationOf(rec, hs[|hs| - 1].0, hs[|hs| - 1].1, now, actual);
        }
      }
    }
  }

  /** In a record whose horizon names are distinct, a pass validates each
      horizon exactly once when it is due and not at all otherwise. */
  lemma {:induction false} EachDueHorizonOnce(rec: PredictionRecord, hs: seq<(string, HorizonForecast)>, now: DateTime, actual: real, k: nat)
    requires actual != 0.0
    requires UniqueKeys(hs) && k < |hs|
    ensures HorizonCount(HorizonValidations(rec, hs, now, actual), hs[k].0) == if Due(hs[k].1, now) then 1 else 0
  {
    var n := |hs| - 1;
    var front := hs[..n];
    var last := if Due(hs[n].1, now) then [ValidationOf(rec, hs[n].0, hs[n].1, now, actual)] else [];
    assert HorizonValidations(rec, hs, now, actual) == HorizonValidations(rec, front, now, actual) + last;
    HorizonCountAppend(HorizonValidations(rec, front, now, actual), last, hs[k].0);
    if last != [] {
      assert last[..0] == [];
    }
    if k == n {
      assert forall j :: 0 <= j < |front| ==> front[j].0 != hs[k].0;
      NameAbsent(rec, front, now, actual, hs[k].0);
    } else {
      assert front[k] == hs[k];
      EachDueHorizonOnce(rec, front, now, actual, k);
      assert hs[n].0 != hs[k].0;
    }
  }

  lemma {:induction false} NameAbsent(rec: PredictionRecord, hs: seq<(string, HorizonForecast)>, now: DateTime, actual: real, name: string)
    requires actual != 0.0
    requires forall k :: 0 <= k < |hs| ==> hs[k].0 != name
    ensures HorizonCount(HorizonValidations(rec, hs, now, actual), name) == 0
  {
    if hs != [] {
      var n := |hs| - 1;
      var front := hs[..n];
      var last := if Due(hs[n].1, now) then [ValidationOf(rec, hs[n].0, hs[n].1, now, actual)] else [];
      NameAbsent(rec, front, now, actual, name);
      HorizonCountAppend(HorizonValidations(rec, front, now, actual), last, name);
      assert HorizonValidations(rec, hs, now, actual) == HorizonValidations(rec, front, now, actual) + last;
      if last != [] {
        assert last[..0] == [] && last[0].horizon == hs[n].0;
      }
      assert HorizonCount(last, name) == 0;
    }
  }

  /** The quirk of the code as written: a record with a horizon still pending
      stays unmarked, so at any later pass every horizon that was already due is
      validated again. */
  lemma RevalidatedWhilePending(rec: PredictionRecord, now: DateTime, later: DateTime, actual: real, k: nat)
    requires actual != 0.0
    requires !rec.validated && UniqueKeys(rec.predictions) && k < |rec.predictions|
    requires !AllDue(rec.predictions, now)
    requires Due(rec.predictions[k].1, now)
    requires UtcInstant(EnsureUtcAware(later)) >= UtcInstant(EnsureUtcAware(now))
    ensures HorizonCount(RecordValidations(rec, now, actual), rec.predictions[k].0) == 1
    ensures AfterScan(rec, now) == rec
    ensures HorizonCount(RecordValidations(AfterScan(rec, now), later, actual), rec.predictions[k].0) == 1
  {
    EachDueHorizonOnce(rec, rec.predictions, now, actual, k);
    EachDueHorizonOnce(rec, rec.predictions, later, actual, k);
  }

  /** A record the pass marks validated contributes nothing to any later pass. */
  lemma FullyValidatedStaysSilent(rec: PredictionRecord, now: DateTime, later: DateTime, actual: real)
    requires actual != 0.0
    requires AllDue(rec.predictions, now)
    ensures RecordValidations(AfterScan(rec, now), later, actual) == []
  {
  }

  /** A record made at minute 0 (UTC) with base price 3000 and one horizon,
      due at minute 15, forecasting 3020 for the ensemble and 3015, 3025 and
      3020 for the three models. */
  const ScenarioRecord := PredictionRecord(
    DateTime(0, Some(0)), DateTime(0, Some(0)), 3000.0, UnknownCondition,
    [("15min", HorizonForecast(DateTime(15, Some(0)),  3020.0,
       map["linear" := 3015.0, "polynomial" := 3025.0, "random_forest" := 3020.0], map[]))],
    map[], false)

  /** Validating the scenario record at minute 16 against 3010 appends one
      validation: the ensemble is off by 10 (1000/3010 percent) and both it
      and the price moved up from 3000; the linear model is off by 5 and the
      polynomial one by 15; the record is then marked validated. */
  lemma SingleHorizonScenario()
    ensures |RecordValidations(ScenarioRecord, DateTime(16, Some(0)), 3010.0)| == 1
    ensures var v := RecordValidations(ScenarioRecord, DateTime(16, Some(0)), 3010.0)[0];
      && v.horizon == "15min" && v.actualPrice == 3010.0
      && v.errors.Keys == {EnsembleKey, "linear", "polynomial", "random_forest"}
      && v.errors[EnsembleKey] == ErrorEntry(10.0, 1000.0 / 3010.0, true)
      && v.errors["linear"] == ErrorEntry(5.0, 500.0 / 3010.0, true)
      && v.errors["polynomial"] == ErrorEntry(15.0, 1500.0 / 3010.0, true)
    ensures AfterScan(ScenarioRecord, DateTime(16, Some(0))).validated
  {
    var hs := ScenarioRecord.predictions;
    assert hs[..0] == [];
    assert Due(hs[0].1, DateTime(16, Some(0)));
  }

  /** The count a pass returns: the due horizons of the records not yet marked. */
  function PendingDueCount(preds: seq<PredictionRecord>, now: DateTime): nat
  {
    if preds == [] then 0
    else
      var rec := preds[|preds| - 1];
      PendingDueCount(preds[..|preds| - 1], now) + (if rec.validated then 0 else DueCount(rec.predictions, now))
  }

  lemma {:induction false} ScanCount(preds: seq<PredictionRecord>, now: DateTime, actual: real)
    requires actual != 0.0
    ensures |ScanValidations(preds, now, actual)| == PendingDueCount(preds, now)
  {
    if preds != [] {
      ScanCount(preds[..|preds| - 1], now, actual);
      HorizonValidationsShape(preds[|preds| - 1], preds[|preds| - 1].predictions, now, actual);
    }
  }

  /** Every validation a pass appends comes from a record that was not yet
      marked, and carries the ensemble entry. */
  lemma {:induction false} ScanSound(preds: seq<PredictionRecord>, now: DateTime, actual: real)
    requires actual != 0.0
    ensures forall v :: v in ScanValidations(preds, now, actual) ==>
      EnsembleKey in v.errors &&
      exists i :: 0 <= i < |preds| && !preds[i].validated && v.predictionId == preds[i].id
        && v.marketCondition == preds[i].marketCondition
  {
    if preds != [] {
      var n := |preds| - 1;
      ScanSound(preds[..n], now, actual);
      HorizonValidationsShape(preds[n], preds[n].predictions, now, actual);
      forall v | v in ScanValidations(preds, now, actual)
        ensures exists i :: (0 <= i < |preds| && !preds[i].validated && v.predictionId == preds[i].id
          && v.marketCondition == preds[i].marketCondition)
      {
        if v in ScanValidations(preds[..n], now, actual) {
          var i :| 0 <= i < n && !preds[..n][i].validated && v.predictionId == preds[..n][i].id
            && v.marketCondition == preds[..n][i].marketCondition;
          assert preds[..n][i] == preds[i];
        } else {
          assert v in RecordValidations(preds[n], now, actual);
        }
      }
    }
  }
}
