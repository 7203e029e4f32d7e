/** The legacy single-model accuracy ledger (`AccuracyTracker`): prediction
    records with one price per horizon, the actuals a validation pass
    appends, and the summary with its best horizon.

    Unlike the enhanced ledger, a record is marked validated as soon as any
    of its horizons is due, so the horizons still pending at that pass are
    never validated. */
module LegacyTracker {
  import opened Basics
  import opened Timestamps
  import opened SeqMath
  import EnhancedRecords

  /** One horizon of a legacy record: its target time and predicted price. */
  datatype LegacyForecast = LegacyForecast(timestamp: DateTime, price: real)

  datatype LegacyRecord = LegacyRecord(
    predictionTime: DateTime,
    currentPrice: real,
    predictions: seq<(string, LegacyForecast)>,
    validated: bool)

  /** One validated horizon. */
  datatype Actual = Actual(
    predictionTime: DateTime,
    targetTime: DateTime,
    horizon: string,
    predictedPrice: real,
    actualPrice: real,
    error: real,
    errorPct: real,
    directionCorrect: bool,
    validationTime: DateTime)

  datatype LegacySummary = LegacySummary(
    totalPredictions: nat,
    avgError: real,
    avgErrorPct: real,
    directionalAccuracy: real,
    bestHorizon: Option<string>,
    lastUpdated: Option<int>)

  /** The summary of a history that has never been summarised. */
  const InitialLegacySummary := LegacySummary(0, 0.0, 0.0, 0.0, None, None)

  /** `current_time >= target_time` after both are made UTC-aware. */
  predicate LegacyDue(f: LegacyForecast, now: DateTime)
  {
    UtcInstant(EnsureUtcAware(now)) >= UtcInstant(EnsureUtcAware(f.timestamp))
  }

  /** The actual appended for a due horizon. */
  function ActualOf(rec: LegacyRecord, name: string, f: LegacyForecast, now: DateTime, actual: real): (a: Actual)
    requires actual != 0.0
    ensures a.horizon == name && a.predictedPrice == f.price && a.actualPrice == actual
    ensures a.error >= 0.0 && (a.error == f.price - actual || a.error == actual - f.price)
    ensures a.errorPct * actual == a.error * 100.0
    ensures a.directionCorrect <==> ((f.price > rec.currentPrice) <==> (actual > rec.currentPrice))
    ensures IsAware(a.targetTime) && IsAware(a.validationTime)
  {
    var err := Abs(f.price - actual);
    Actual(
      rec.predictionTime, EnsureUtcAware(f.timestamp), name, f.price, actual, err, err / actual * 100.0,
      EnhancedRecords.DirectionOf(f.price, rec.currentPrice) == EnhancedRecords.DirectionOf(actual, rec.currentPrice),
      EnsureUtcAware(now))
  }

  // ---------------------------------------------------------------------
  // One pass of validate_predictions, as functions of the ledger before it

  /** Actuals for the due horizons among `hs`, in order. */
  function DueActuals(rec: LegacyRecord, hs: seq<(string, LegacyForecast)>, now: DateTime, actual: real): seq<Actual>
    requires actual != 0.0
  {
    if hs == [] then []
    else
      var last := hs[|hs| - 1];
      DueActuals(rec, hs[..|hs| - 1], now, actual) + (if LegacyDue(last.1, now) then [ActualOf(rec, last.0, last.1, now, actual)] else [])
  }

  function RecordActuals(rec: LegacyRecord, now: DateTime, actual: real): seq<Actual>
    requires actual != 0.0
  {
    if rec.validated then [] else DueActuals(rec, rec.predictions, now, actual)
  }

  function PassActuals(preds: seq<LegacyRecord>, now: DateTime, actual: real): seq<Actual>
    requires actual != 0.0
  {
    if preds == [] then []
    else PassActuals(preds[..|preds| - 1], now, actual) + RecordActuals(preds[|preds| - 1], now, actual)
  }

  predicate AnyDue(hs: seq<(string, LegacyForecast)>, now: DateTime)
  {
    exists k :: 0 <= k < |hs| && LegacyDue(hs[k].1, now)
  }

  /** The record after the pass: marked as soon as one horizon was due. */
  function LegacyAfterPass(rec: LegacyRecord, now: DateTime): (r: LegacyRecord)
    ensures r == rec.(validated := r.validated)
    ensures r.validated <==> rec.validated || AnyDue(rec.predictions, now)
  {
    if !rec.validated && AnyDue(rec.predictions, now) then rec.(validated := true) else rec
  }

  function LegacyMarkedAfter(preds: seq<LegacyRecord>, now: DateTime): (r: seq<LegacyRecord>)
    ensures |r| == |preds|
    ensures forall i :: 0 <= i < |preds| ==> r[i] == LegacyAfterPass(preds[i], now)
  {
    seq(|preds|, i requires 0 <= i < |preds| => LegacyAfterPass(preds[i], now))
  }

  /** Number of due horizons. */
  function LegacyDueCount(hs: seq<(string, LegacyForecast)>, now: DateTime): nat
  {
    if hs == [] then 0
    else LegacyDueCount(hs[..|hs| - 1], now) + (if LegacyDue(hs[|hs| - 1].1, now) then 1 else 0)
  }

  lemma DueActualsStep(rec: LegacyRecord, hs: seq<(string, LegacyForecast)>, j: nat, now: DateTime, actual: real)
    requires actual != 0.0 && j < |hs|
    ensures LegacyDue(hs[j].1, now) ==>
      DueActuals(rec, hs[..j + 1], now, actual) == DueActuals(rec, hs[..j], now, actual) + [ActualOf(rec, hs[j].0, hs[j].1, now, actual)]
    ensures !LegacyDue(hs[j].1, now) ==> DueActuals(rec, hs[..j + 1], now, actual) == DueActuals(rec, hs[..j], now, actual)
    ensures AnyDue(hs[..j + 1], now) <==> AnyDue(hs[..j], now) || LegacyDue(hs[j].1, now)
  {
    assert hs[..j + 1][..j] == hs[..j];
    assert DueActuals(rec, hs[..j], now, actual) + [] == DueActuals(rec, hs[..j], now, actual);
    assert hs[..j + 1][j] == hs[j];
    if AnyDue(hs[..j + 1], now) && !LegacyDue(hs[j].1, now) {
      var k :| 0 <= k < j + 1 && LegacyDue(hs[..j + 1][k].1, now);
      assert hs[..j][k] == hs[..j + 1][k];
    }
    if AnyDue(hs[..j], now) {
      var k :| 0 <= k < j && LegacyDue(hs[..j][k].1, now);
      assert hs[..j + 1][k] == hs[..j][k];
    }
  }

  lemma PassStep(preds: seq<LegacyRecord>, i: nat, now: DateTime, actual: real)
    requires actual != 0.0 && i < |preds|
    ensures PassActuals(preds[..i + 1], now, actual) == PassActuals(preds[..i], now, actual) + RecordActuals(preds[i], now, actual)
  {
    assert preds[..i + 1][..i] == preds[..i];
  }

  /** A pass appends one actual per due horizon of each record not yet
      marked. */
  lemma {:induction false} DueActualsCount(rec: LegacyRecord, hs: seq<(string, LegacyForecast)>, now: DateTime, actual: real)
    requires actual != 0.0
    ensures |DueActuals(rec, hs, now, actual)| == LegacyDueCount(hs, now) <= |hs|
    ensures forall a :: a in DueActuals(rec, hs, now, actual) ==>
      exists k :: 0 <= k < |hs| && LegacyDue(hs[k].1, now) && a == ActualOf(rec, hs[k].0, hs[k].1, now, actual)
  {
    if hs != [] {
      var n := |hs| - 1;
      DueActualsCount(rec, hs[..n], now, actual);
      forall a | a in DueActuals(rec, hs, now, actual)
        ensures exists k :: 0 <= k < |hs| && LegacyDue(hs[k].1, now) && a == ActualOf(rec, hs[k].0, hs[k].1, now, actual)
      {
        if a in DueActuals(rec, hs[..n], now, actual) {
          var k :| 0 <= k < n && LegacyDue(hs[..n][k].1, now) && a == ActualOf(rec, hs[..n][k].0, hs[..n][k].1, now, actual);
          assert hs[k] == hs[..n][k];
        } else {
          assert a == ActualOf(rec, hs[n].0, hs[n].1, now, actual);
        }
      }
    }
  }

  /** A pass appends something for a record not yet marked exactly when it
      marks it. */
  lemma {:induction false} MarkedIffAppended(rec: LegacyRecord, hs: seq<(string, LegacyForecast)>, now: DateTime, actual: real)
    requires actual != 0.0
    ensures DueActuals(rec, hs, now, actual) != [] <==> AnyDue(hs, now)
  {
    if hs != [] {
      var n := |hs| - 1;
      MarkedIffAppended(rec, hs[..n], now, actual);
      DueActualsStep(rec, hs, n, now, actual);
      assert hs[..n + 1] == hs;
    }
  }

  /** The quirk of the legacy ledger: once one horizon of a record has been
      validated, its other horizons are never validated, however late the
      next pass. */
  lemma PendingHorizonsLost(rec: LegacyRecord, now: DateTime, later: DateTime, actual: real, laterActual: real)
    requires actual != 0.0 && laterActual != 0.0
    requires RecordActuals(rec, now, actual) != []
    ensures LegacyAfterPass(rec, now).validated
    ensures RecordActuals(LegacyAfterPass(rec, now), later, laterActual) == []
  {
    MarkedIffAppended(rec, rec.predictions, now, actual);
  }

  // ---------------------------------------------------------------------
  // update_summary and best_horizon

  /** Python's `<=` on strings: lexicographic by code point. */
  predicate StrLe(a: string, b: string)
  {
    a == [] || (b != [] && (a[0] < b[0] || (a[0] == b[0] && StrLe(a[1..], b[1..]))))
  }

  lemma {:induction false} StrLeTotal(a: string, b: string)
    ensures StrLe(a, b) || StrLe(b, a)
  {
    if a != [] && b != [] && a[0] == b[0] {
      StrLeTotal(a[1..], b[1..]);
    }
  }

  lemma {:induction false} StrLeTrans(a: string, b: string, c: string)
    requires StrLe(a, b) && StrLe(b, c)
    ensures StrLe(a, c)
  {
    if a != [] && b != [] && c != [] && a[0] == b[0] == c[0] {
      StrLeTrans(a[1..], b[1..], c[1..]);
    }
  }

  lemma {:induction false} StrLeAntisym(a: string, b: string)
    requires StrLe(a, b) && StrLe(b, a)
    ensures a == b
  {
    if a != [] && b != [] {
      StrLeAntisym(a[1..], b[1..]);
      assert a == [a[0]] + a[1..] && b == [b[0]] + b[1..];
    }
  }

  /** Percent errors of the actuals for horizon h, in log order. */
  function HorizonPcts(vs: seq<Actual>, h: string): seq<real>
  {
    if vs == [] then []
    else HorizonPcts(vs[..|vs| - 1], h) + (if vs[|vs| - 1].horizon == h then [vs[|vs| - 1].errorPct] else [])
  }

  /** The group mean of `error_pct` for horizon h (0 for a horizon without
      actuals, which never occurs for a horizon of the log). */
  function HorizonMean(vs: seq<Actual>, h: string): real
  {
    var pcts := HorizonPcts(vs, h);
    if |pcts| > 0 then Mean(pcts) else 0.0
  }

  /** h ranks before g: a smaller group mean, or the same mean and a name that
      sorts first (`groupby` sorts its keys and `idxmin` keeps the first
      minimum). */
  predicate RanksBefore(vs: seq<Actual>, h: string, g: string)
  {
    HorizonMean(vs, h) < HorizonMean(vs, g) || (HorizonMean(vs, h) == HorizonMean(vs, g) && StrLe(h, g))
  }

  /** The best of the names in `names`. */
  function Best(vs: seq<Actual>, names: seq<string>): (b: string)
    requires |names| > 0
    ensures b in names
    ensures forall k :: 0 <= k < |names| ==> RanksBefore(vs, b, names[k])
  {
    if |names| == 1 then
      StrLeTotal(names[0], names[0]);
      names[0]
    else
      var rest := Best(vs, names[1..]);
      assert forall k :: 1 <= k < |names| ==> names[k] == names[1..][k - 1];
      StrLeTotal(names[0], rest);
      if RanksBefore(vs, names[0], rest) then
        BestFirst(vs, names, rest);
        names[0]
      else
        rest
  }

  /** Ranking before the best of the tail ranks before all of the tail. */
  lemma BestFirst(vs: seq<Actual>, names: seq<string>, rest: string)
    requires |names| > 1 && RanksBefore(vs, names[0], rest)
    requires forall k :: 1 <= k < |names| ==> RanksBefore(vs, rest, names[k])
    ensures forall k :: 0 <= k < |names| ==> RanksBefore(vs, names[0], names[k])
  {
    StrLeTotal(names[0], names[0]);
    forall k | 1 <= k < |names|
      ensures RanksBefore(vs, names[0], names[k])
    {
      if HorizonMean(vs, names[0]) == HorizonMean(vs, rest) == HorizonMean(vs, names[k]) {
        StrLeTrans(names[0], rest, names[k]);
      }
    }
  }

  function Horizons(vs: seq<Actual>): (hs: seq<string>)
    ensures |hs| == |vs|
    ensures forall i :: 0 <= i < |vs| ==> hs[i] == vs[i].horizon
  {
    seq(|vs|, i requires 0 <= i < |vs| => vs[i].horizon)
  }

  /** `df.groupby('horizon')['error_pct'].mean().idxmin()` */
  function BestHorizon(vs: seq<Actual>): string
    requires |vs| > 0
  {
    Best(vs, Horizons(vs))
  }

  /** The best horizon is a horizon of the log whose mean percent error is
      minimal, the first by name among equal means; no other horizon has
      that property, so the answer does not depend on the order of the log. */
  lemma BestHorizonMinimal(vs: seq<Actual>, h: string)
    requires |vs| > 0
    ensures exists i :: 0 <= i < |vs| && vs[i].horizon == BestHorizon(vs)
    ensures forall i :: 0 <= i < |vs| ==> RanksBefore(vs, BestHorizon(vs), vs[i].horizon)
    ensures (exists i :: 0 <= i < |vs| && vs[i].horizon == h)
      && (forall i :: 0 <= i < |vs| ==> RanksBefore(vs, h, vs[i].horizon))
      ==> h == BestHorizon(vs)
  {
    var b := BestHorizon(vs);
    var hs := Horizons(vs);
    assert b in hs;
    var j :| 0 <= j < |hs| && hs[j] == b;
    assert vs[j].horizon == b;
    if (exists i :: 0 <= i < |vs| && vs[i].horizon == h) && (forall i :: 0 <= i < |vs| ==> RanksBefore(vs, h, vs[i].horizon)) {
      var i :| 0 <= i < |vs| && vs[i].horizon == h;
      assert RanksBefore(vs, b, h) && RanksBefore(vs, h, b);
      StrLeAntisym(b, h);
    }
  }

  function Errors(vs: seq<Actual>): (r: seq<real>)
    ensures |r| == |vs| && forall i :: 0 <= i < |vs| ==> r[i] == vs[i].error
  {
    seq(|vs|, i requires 0 <= i < |vs| => vs[i].error)
  }

  function ErrorPcts(vs: seq<Actual>): (r: seq<real>)
    ensures |r| == |vs| && forall i :: 0 <= i < |vs| ==> r[i] == vs[i].errorPct
  {
    seq(|vs|, i requires 0 <= i < |vs| => vs[i].errorPct)
  }

  function Directions(vs: seq<Actual>): (r: seq<bool>)
    ensures |r| == |vs| && forall i :: 0 <= i < |vs| ==> r[i] == vs[i].directionCorrect
  {
    seq(|vs|, i requires 0 <= i < |vs| => vs[i].directionCorrect)
  }

  /** The summary `update_summary` writes for a non-empty log. */
  function LegacySummaryOf(vs: seq<Actual>, stampedAt: int): LegacySummary
    requires |vs| > 0
  {
    LegacySummary(
      |vs|, Mean(Errors(vs)), Mean(ErrorPcts(vs)),
      CountTrue(Directions(vs)) as real / |vs| as real * 100.0,
      Some(BestHorizon(vs)), Some(stampedAt))
  }

  /** The summary counts the actuals, its averages are non-negative and its
      directional accuracy is a percentage. */
  lemma LegacySummaryBounds(vs: seq<Actual>, stampedAt: int)
    requires |vs| > 0
    requires forall i :: 0 <= i < |vs| ==> vs[i].error >= 0.0 && vs[i].errorPct >= 0.0
    ensures LegacySummaryOf(vs, stampedAt).totalPredictions == |vs|
    ensures LegacySummaryOf(vs, stampedAt).avgError >= 0.0
    ensures LegacySummaryOf(vs, stampedAt).avgErrorPct >= 0.0
    ensures 0.0 <= LegacySummaryOf(vs, stampedAt).directionalAccuracy <= 100.0
  {
    MeanBounds(Errors(vs), 0.0, MaxOf(Errors(vs)));
    MeanBounds(ErrorPcts(vs), 0.0, MaxOf(ErrorPcts(vs)));
    CountTrueBound(Directions(vs));
    QuotientBounds(0.0, 1.0, CountTrue(Directions(vs)) as real, |vs| as real);
  }

  // ---------------------------------------------------------------------
  // The tracker

  class AccuracyTracker {
    var predictions: seq<LegacyRecord>
    var actuals: seq<Actual>
    var summary: LegacySummary

    /** `__init__` / `load_history`: the stored history when there is one,
        otherwise the empty ledger with the initial summary. */
    constructor (stored: Option<(seq<LegacyRecord>, seq<Actual>, LegacySummary)>)
      ensures stored.Some? ==> predictions == stored.value.0 && actuals == stored.value.1 && summary == stored.value.2
      ensures stored.None? ==> predictions == [] && actuals == [] && summary == InitialLegacySummary
    {
      if stored.Some? {
        predictions, actuals, summary := stored.value.0, stored.value.1, stored.value.2;
      } else {
        predictions, actuals, summary := [], [], InitialLegacySummary;
      }
    }

    /** `record_prediction`: appends one unmarked record holding the horizons
        and the price as given. */
    method RecordPrediction(timestamp: DateTime, horizons: seq<(string, LegacyForecast)>, currentPrice: real)
      modifies this
      ensures predictions == old(predictions) + [LegacyRecord(timestamp, currentPrice, horizons, false)]
      ensures actuals == old(actuals) && summary == old(summary)
    {
      predictions := predictions + [LegacyRecord(timestamp, currentPrice, horizons, false)];
    }

    /** Where the horizon loop stands on record i after its first j horizons:
        their due ones are appended and counted, and the record is marked iff
        one of them was due. */
    ghost predicate HorizonsDone(i: nat, rec: LegacyRecord, j: nat, now: DateTime, actual: real,
                                 preds0: seq<LegacyRecord>, log0: seq<Actual>, added: nat)
      requires actual != 0.0 && j <= |rec.predictions| && i < |preds0|
      reads this
    {
      var done := DueActuals(rec, rec.predictions[..j], now, actual);
      && actuals == log0 + done
      && added == |done|
      && predictions == preds0[i := rec.(validated := AnyDue(rec.predictions[..j], now))]
    }

    /** One turn of the horizon loop: a due horizon appends its actual and
        marks the record. */
    method ValidateHorizon(i: nat, rec: LegacyRecord, j: nat, now: DateTime, actual: real,
                           ghost preds0: seq<LegacyRecord>, ghost log0: seq<Actual>, added: nat) returns (added': nat)
      requires actual != 0.0 && j < |rec.predictions| && i < |preds0| && !rec.validated
      requires HorizonsDone(i, rec, j, now, actual, preds0, log0, added)
      modifies this
      ensures HorizonsDone(i, rec, j + 1, now, actual, preds0, log0, added')
      ensures summary == old(summary)
    {
      ghost var done := DueActuals(rec, rec.predictions[..j], now, actual);
      DueActualsStep(rec, rec.predictions, j, now, actual);
      var (horizon, f) := rec.predictions[j];
      added' := added;
      if LegacyDue(f, now) {
        var a := ActualOf(rec, horizon, f, now, actual);
        SeqMath.AppendAssoc(log0, done, [a]);
        actuals := actuals + [a];
        predictions := predictions[i := rec.(validated := true)];
        added' := added + 1;
      }
    }

    /** The body of the record loop of `validate_predictions` for record i. */
    method ValidateRecord(i: nat, now: DateTime, actual: real) returns (added: nat)
      requires actual != 0.0 && i < |predictions|
      modifies this
      ensures predictions == old(predictions)[i := LegacyAfterPass(old(predictions)[i], now)]
      ensures actuals == old(actuals) + RecordActuals(old(predictions)[i], now, actual)
      ensures added == |RecordActuals(old(predictions)[i], now, actual)|
      ensures summary == old(summary)
    {
      var rec := predictions[i];
      if rec.validated {
        added := 0;
        assert actuals == old(actuals) + [];
        return;
      }
      ghost var preds0 := predictions;
      ghost var log0 := actuals;
      assert rec.predictions[..0] == [] && log0 + [] == log0;
      assert preds0 == preds0[i := rec];
      added := 0;
      var j := 0;
      while j < |rec.predictions|
        invariant 0 <= j <= |rec.predictions|
        invariant HorizonsDone(i, rec, j, now, actual, preds0, log0, added)
        invariant summary == old(summary)
      {
        added := ValidateHorizon(i, rec, j, now, actual, preds0, log0, added);
        j := j + 1;
      }
      assert rec.predictions[..j] == rec.predictions;
    }

    /** The record loop of `validate_predictions`. */
    method PassLedger(now: DateTime, actual: real) returns (count: nat)
      requires actual != 0.0
      modifies this
      ensures actuals == old(actuals) + PassActuals(old(predictions), now, actual)
      ensures count == |PassActuals(old(predictions), now, actual)|
      ensures predictions == LegacyMarkedAfter(old(predictions), now)
      ensures summary == old(summary)
    {
      ghost var preds0 := predictions;
      ghost var log0 := actuals;
      ghost var done: seq<Actual> := [];
      count := 0;
      var i := 0;
      while i < |predictions|
        invariant |predictions| == |preds0|
        invariant 0 <= i <= |predictions|
        invariant forall k :: 0 <= k < i ==> predictions[k] == LegacyAfterPass(preds0[k], now)
        invariant forall k :: i <= k < |predictions| ==> predictions[k] == preds0[k]
        invariant done == PassActuals(preds0[..i], now, actual)
        invariant actuals == log0 + done
        invariant count == |done|
        invariant summary == old(summary)
      {
        PassStep(preds0, i, now, actual);
        ghost var newOnes := RecordActuals(preds0[i], now, actual);
        var added := ValidateRecord(i, now, actual);
        count := count + added;
        SeqMath.AppendAssoc(log0, done, newOnes);
        done := done + newOnes;
        i := i + 1;
      }
      assert preds0[..i] == preds0;
    }

    /** `update_summary`: a no-op on an empty log. */
    method UpdateSummary(stampedAt: int)
      modifies this
      ensures predictions == old(predictions) && actuals == old(actuals)
      ensures |actuals| == 0 ==> summary == old(summary)
      ensures |actuals| > 0 ==> summary == LegacySummaryOf(actuals, stampedAt)
    {
      if |actuals| == 0 {
        return;
      }
      summary := LegacySummaryOf(actuals, stampedAt);
    }

    /** `validate_predictions`: one pass; the summary is recomputed only when
        something was validated. */
    method ValidatePredictions(now: DateTime, actual: real, stampedAt: int) returns (count: nat)
      requires actual != 0.0
      modifies this
      ensures actuals == old(actuals) + PassActuals(old(predictions), now, actual)
      ensures count == |PassActuals(old(predictions), now, actual)|
      ensures predictions == LegacyMarkedAfter(old(predictions), now)
      ensures count == 0 ==> summary == old(summary)
      ensures count > 0 ==> summary == LegacySummaryOf(actuals, stampedAt)
    {
      count := PassLedger(now, actual);
      if count > 0 {
        UpdateSummary(stampedAt);
      }
    }
  }
}
