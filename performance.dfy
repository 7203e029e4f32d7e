/** Running per-(market condition, model) statistics kept by
    `_update_model_performance`, and the global summary `update_summary`
    recomputes from the whole validation log. */
module Performance {
  import opened Basics
  import opened SeqMath
  import opened EnhancedRecords

  /** One (condition, model) bucket. The counters are the non-negative
      integers the tracker writes. */
  datatype Stats = Stats(
    totalPredictions: nat,
    totalErrorPct: real,
    totalDirectionCorrect: nat,
    avgErrorPct: real,
    directionalAccuracy: real)

  /** A bucket as created on first use. */
  const FreshStats := Stats(0, 0.0, 0, 0.0, 0.0)

  type PerformanceTable = map<string, map<string, Stats>>

  /** The counters are consistent and the averages derive from them. */
  predicate ValidStats(s: Stats)
  {
    && s.totalDirectionCorrect <= s.totalPredictions
    && (s.totalPredictions > 0 ==>
          && s.avgErrorPct == s.totalErrorPct / s.totalPredictions as real
          && s.directionalAccuracy == s.totalDirectionCorrect as real / s.totalPredictions as real * 100.0)
  }

  predicate ValidInner(inner: map<string, Stats>)
  {
    forall m :: m in inner ==> ValidStats(inner[m])
  }

  predicate AllValid(table: PerformanceTable)
  {
    forall c :: c in table ==> ValidInner(table[c])
  }

  /** The bucket of (c, m), or a fresh one if the table has none yet. */
  function BucketOf(table: PerformanceTable, c: string, m: string): Stats
  {
    if c in table && m in table[c] then table[c][m] else FreshStats
  }

  /** One error entry folded into its bucket. */
  function Bump(s: Stats, e: ErrorEntry): (r: Stats)
    ensures r.totalPredictions == s.totalPredictions + 1
    ensures r.totalErrorPct == s.totalErrorPct + e.percentage
    ensures r.totalDirectionCorrect == s.totalDirectionCorrect + (if e.directionCorrect then 1 else 0)
    ensures s.totalDirectionCorrect <= s.totalPredictions ==> ValidStats(r)
  {
    var count := s.totalPredictions + 1;
    var total := s.totalErrorPct + e.percentage;
    var correct := s.totalDirectionCorrect + (if e.directionCorrect then 1 else 0);
    Stats(count, total, correct, total / count as real, correct as real / count as real * 100.0)
  }

  /** `inner.get(m)` with a fresh bucket for a model seen for the first time. */
  function StatsOrFresh(inner: map<string, Stats>, m: string): Stats
  {
    if m in inner then inner[m] else FreshStats
  }

  /** The inner table of condition c after folding the entries of `errs` whose
      model is in `done`. */
  function MergeInto(inner: map<string, Stats>, errs: map<string, ErrorEntry>, done: set<string>): (r: map<string, Stats>)
    requires done <= errs.Keys
    ensures r.Keys == inner.Keys + done
  {
    map m | m in inner.Keys + done :: if m in done then Bump(StatsOrFresh(inner, m), errs[m]) else inner[m]
  }

  lemma MergeIntoValid(inner: map<string, Stats>, errs: map<string, ErrorEntry>, done: set<string>)
    requires done <= errs.Keys
    requires ValidInner(inner)
    ensures ValidInner(MergeInto(inner, errs, done))
  {
    forall m | m in MergeInto(inner, errs, done)
      ensures ValidStats(MergeInto(inner, errs, done)[m])
    {
      if m in done {
        assert ValidStats(StatsOrFresh(inner, m));
      }
    }
  }

  lemma MergeIntoNothing(inner: map<string, Stats>, errs: map<string, ErrorEntry>)
    ensures MergeInto(inner, errs, {}) == inner
  {
  }

  /** Folding one more model: its bucket is bumped from what it was before the
      update began. */
  lemma MergeIntoStep(inner: map<string, Stats>, errs: map<string, ErrorEntry>, done: set<string>, m: string)
    requires done <= errs.Keys && m in errs && m !in done
    ensures StatsOrFresh(MergeInto(inner, errs, done), m) == StatsOrFresh(inner, m)
    ensures MergeInto(inner, errs, done + {m}) == MergeInto(inner, errs, done)[m := Bump(StatsOrFresh(inner, m), errs[m])]
  {
  }

  /** `_update_model_performance(v)` as a function of the table. */
  function UpdatePerf(table: PerformanceTable, v: ValidationRecord): PerformanceTable
  {
    var inner := if v.marketCondition in table then table[v.marketCondition] else map[];
    table[v.marketCondition := MergeInto(inner, v.errors, v.errors.Keys)]
  }

  /** Updating keeps every bucket consistent. */
  lemma UpdatePerfValid(table: PerformanceTable, v: ValidationRecord)
    requires AllValid(table)
    ensures AllValid(UpdatePerf(table, v))
  {
    var inner := if v.marketCondition in table then table[v.marketCondition] else map[];
    MergeIntoValid(inner, v.errors, v.errors.Keys);
  }

  /** Each error entry of v moves its own bucket of v's condition by one
      validation; every other bucket is left as it was. */
  lemma UpdatePerfEffect(table: PerformanceTable, v: ValidationRecord, c: string, m: string)
    ensures c == v.marketCondition && m in v.errors ==>
      BucketOf(UpdatePerf(table, v), c, m) == Bump(BucketOf(table, c, m), v.errors[m])
    ensures !(c == v.marketCondition && m in v.errors) ==>
      BucketOf(UpdatePerf(table, v), c, m) == BucketOf(table, c, m)
    ensures c != v.marketCondition ==> (c in UpdatePerf(table, v) <==> c in table)
  {
  }

  /** Folding a sequence of validations, oldest first. */
  function ApplyAll(table: PerformanceTable, vs: seq<ValidationRecord>): PerformanceTable
  {
    if vs == [] then table else UpdatePerf(ApplyAll(table, vs[..|vs| - 1]), vs[|vs| - 1])
  }

  lemma {:induction false} ApplyAllValid(table: PerformanceTable, vs: seq<ValidationRecord>)
    requires AllValid(table)
    ensures AllValid(ApplyAll(table, vs))
  {
    if vs != [] {
      ApplyAllValid(table, vs[..|vs| - 1]);
      UpdatePerfValid(ApplyAll(table, vs[..|vs| - 1]), vs[|vs| - 1]);
    }
  }

  lemma ApplyAllSnoc(table: PerformanceTable, vs: seq<ValidationRecord>, v: ValidationRecord)
    ensures ApplyAll(table, vs + [v]) == UpdatePerf(ApplyAll(table, vs), v)
  {
    assert (vs + [v])[..|vs|] == vs;
  }

  lemma {:induction false} ApplyAllConcat(table: PerformanceTable, a: seq<ValidationRecord>, b: seq<ValidationRecord>)
    ensures ApplyAll(table, a + b) == ApplyAll(ApplyAll(table, a), b)
    decreases |b|
  {
    if b == [] {
      assert a + b == a;
    } else {
      var b' := b[..|b| - 1];
      assert (a + b)[..|a + b| - 1] == a + b';
      ApplyAllConcat(table, a, b');
    }
  }

  /** Validations of the log that carry an entry for model m under condition c. */
  function LogCount(vs: seq<ValidationRecord>, c: string, m: string): nat
  {
    if vs == [] then 0
    else
      var v := vs[|vs| - 1];
      LogCount(vs[..|vs| - 1], c, m) + (if v.marketCondition == c && m in v.errors then 1 else 0)
  }

  function LogErrorTotal(vs: seq<ValidationRecord>, c: string, m: string): real
  {
    if vs == [] then 0.0
    else
      var v := vs[|vs| - 1];
      LogErrorTotal(vs[..|vs| - 1], c, m) + (if v.marketCondition == c && m in v.errors then v.errors[m].percentage else 0.0)
  }

  function LogCorrect(vs: seq<ValidationRecord>, c: string, m: string): nat
  {
    if vs == [] then 0
    else
      var v := vs[|vs| - 1];
      LogCorrect(vs[..|vs| - 1], c, m) + (if v.marketCondition == c && m in v.errors && v.errors[m].directionCorrect then 1 else 0)
  }

  /** The buckets hold no hidden state: replaying a validation log adds to each
      bucket exactly the count, error total and correct-direction count of the
      log's entries for that (condition, model). */
  lemma {:induction false} ReplayMatchesLog(table: PerformanceTable, vs: seq<ValidationRecord>, c: string, m: string)
    ensures BucketOf(ApplyAll(table, vs), c, m).totalPredictions == BucketOf(table, c, m).totalPredictions + LogCount(vs, c, m)
    ensures BucketOf(ApplyAll(table, vs), c, m).totalErrorPct == BucketOf(table, c, m).totalErrorPct + LogErrorTotal(vs, c, m)
    ensures BucketOf(ApplyAll(table, vs), c, m).totalDirectionCorrect == BucketOf(table, c, m).totalDirectionCorrect + LogCorrect(vs, c, m)
  {
    if vs != [] {
      var front := vs[..|vs| - 1];
      ReplayMatchesLog(table, front, c, m);
      UpdatePerfEffect(ApplyAll(table, front), vs[|vs| - 1], c, m);
    }
  }

  // ---------------------------------------------------------------------
  // update_summary

  datatype Summary = Summary(
    totalPredictions: int,
    totalValidations: int,
    ensembleAvgErrorPct: real,
    linearAvgErrorPct: real,
    polynomialAvgErrorPct: real,
    randomForestAvgErrorPct: real,
    directionalAccuracy: real,
    lastUpdated: Option<int>)

  /** The summary of a history that has never been summarised. */
  const InitialSummary := Summary(0, 0, 0.0, 0.0, 0.0, 0.0, 0.0, None)

  /** Every validation carries the ensemble entry, as the validator writes it. */
  predicate WellFormedLog(vs: seq<ValidationRecord>)
  {
    forall i :: 0 <= i < |vs| ==> EnsembleKey in vs[i].errors
  }

  function EnsemblePcts(vs: seq<ValidationRecord>): (r: seq<real>)
    requires WellFormedLog(vs)
    ensures |r| == |vs|
    ensures forall i :: 0 <= i < |vs| ==> r[i] == vs[i].errors[EnsembleKey].percentage
  {
    seq(|vs|, i requires 0 <= i < |vs| => vs[i].errors[EnsembleKey].percentage)
  }

  function EnsembleDirections(vs: seq<ValidationRecord>): (r: seq<bool>)
    requires WellFormedLog(vs)
    ensures |r| == |vs|
    ensures forall i :: 0 <= i < |vs| ==> r[i] == vs[i].errors[EnsembleKey].directionCorrect
  {
    seq(|vs|, i requires 0 <= i < |vs| => vs[i].errors[EnsembleKey].directionCorrect)
  }

  /** Percent errors of model m, over the validations that contain it, in log order. */
  function ModelPcts(vs: seq<ValidationRecord>, m: string): seq<real>
  {
    if vs == [] then []
    else
      var v := vs[|vs| - 1];
      ModelPcts(vs[..|vs| - 1], m) + (if m in v.errors then [v.errors[m].percentage] else [])
  }

  /** `np.mean` of a model's percent errors, or 0 when no validation has it. */
  function ModelAvg(vs: seq<ValidationRecord>, m: string): real
  {
    var pcts := ModelPcts(vs, m);
    if |pcts| > 0 then Mean(pcts) else 0.0
  }

  /** The summary `update_summary` writes for a non-empty log. */
  function SummaryOf(predictionCount: nat, vs: seq<ValidationRecord>, stampedAt: int): Summary
    requires |vs| > 0 && WellFormedLog(vs)
  {
    Summary(
      predictionCount, |vs|,
      Mean(EnsemblePcts(vs)),
      ModelAvg(vs, "linear"), ModelAvg(vs, "polynomial"), ModelAvg(vs, "random_forest"),
      CountTrue(EnsembleDirections(vs)) as real / |vs| as real * 100.0,
      Some(stampedAt))
  }

  /** Percent errors of the log, ensemble and per model, are all non-negative. */
  predicate NonNegativeErrors(vs: seq<ValidationRecord>)
  {
    forall i, m :: 0 <= i < |vs| && m in vs[i].errors ==> vs[i].errors[m].percentage >= 0.0
  }

  lemma {:induction false} ModelPctsNonNegative(vs: seq<ValidationRecord>, m: string)
    requires NonNegativeErrors(vs)
    ensures forall i :: 0 <= i < |ModelPcts(vs, m)| ==> ModelPcts(vs, m)[i] >= 0.0
  {
    if vs != [] {
      var front := vs[..|vs| - 1];
      assert NonNegativeErrors(front) by {
        forall i, m' | 0 <= i < |front| && m' in front[i].errors
          ensures front[i].errors[m'].percentage >= 0.0
        {
          assert front[i] == vs[i];
        }
      }
      ModelPctsNonNegative(front, m);
    }
  }

  /** The summary's counts are the log's, its averages are non-negative when the
      errors are, and its directional accuracy is a percentage. */
  lemma SummaryBounds(predictionCount: nat, vs: seq<ValidationRecord>, stampedAt: int)
    requires |vs| > 0 && WellFormedLog(vs)
    ensures SummaryOf(predictionCount, vs, stampedAt).totalValidations == |vs|
    ensures 0.0 <= SummaryOf(predictionCount, vs, stampedAt).directionalAccuracy <= 100.0
    ensures NonNegativeErrors(vs) ==>
      var s := SummaryOf(predictionCount, vs, stampedAt);
      s.ensembleAvgErrorPct >= 0.0 && s.linearAvgErrorPct >= 0.0
      && s.polynomialAvgErrorPct >= 0.0 && s.randomForestAvgErrorPct >= 0.0
  {
    var dirs := EnsembleDirections(vs);
    CountTrueBound(dirs);
    QuotientBounds(0.0, 1.0, CountTrue(dirs) as real, |vs| as real);
    if NonNegativeErrors(vs) {
      MeanBounds(EnsemblePcts(vs), 0.0, MaxOf(EnsemblePcts(vs)));
      NonNegativeModelAvg(vs, "linear");
      NonNegativeModelAvg(vs, "polynomial");
      NonNegativeModelAvg(vs, "random_forest");
    }
  }

  lemma NonNegativeModelAvg(vs: seq<ValidationRecord>, m: string)
    requires NonNegativeErrors(vs)
    ensures ModelAvg(vs, m) >= 0.0
  {
    var pcts := ModelPcts(vs, m);
    if |pcts| > 0 {
      ModelPctsNonNegative(vs, m);
      MeanBounds(pcts, 0.0, MaxOf(pcts));
    }
  }

  lemma {:induction false} LogCountAll(vs: seq<ValidationRecord>, c: string)
    requires WellFormedLog(vs)
    requires forall i :: 0 <= i < |vs| ==> vs[i].marketCondition == c
    ensures LogCount(vs, c, EnsembleKey) == |vs|
    ensures LogErrorTotal(vs, c, EnsembleKey) == Sum(EnsemblePcts(vs))
  {
    if vs != [] {
      var front := vs[..|vs| - 1];
      LogCountAll(front, c);
      assert EnsemblePcts(vs) == EnsemblePcts(front) + [vs[|vs| - 1].errors[EnsembleKey].percentage];
      SumAppend(EnsemblePcts(front), vs[|vs| - 1].errors[EnsembleKey].percentage);
    }
  }

  /** When every validation of the log is under one condition and the buckets
      start empty, the summary's ensemble average equals that condition's
      ensemble bucket average: the two views of the log agree. */
  lemma SummaryAgreesWithBucket(predictionCount: nat, vs: seq<ValidationRecord>, c: string, stampedAt: int)
    requires |vs| > 0 && WellFormedLog(vs)
    requires forall i :: 0 <= i < |vs| ==> vs[i].marketCondition == c
    ensures BucketOf(ApplyAll(map[], vs), c, EnsembleKey).avgErrorPct == SummaryOf(predictionCount, vs, stampedAt).ensembleAvgErrorPct
  {
    ReplayMatchesLog(map[], vs, c, EnsembleKey);
    LogCountAll(vs, c);
    var t := ApplyAll(map[], vs);
    ApplyAllValid(map[], vs);
    var b := BucketOf(t, c, EnsembleKey);
    assert b.totalPredictions == |vs| > 0;
    assert c in t && EnsembleKey in t[c];
    assert ValidInner(t[c]);
    assert ValidStats(b);
  }
}
