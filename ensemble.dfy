/** The three-model ensemble of `ensemble_prediction` and of the classic
    report's key predictions.

    Each fitter (linear trend, quadratic trend, feature model) contributes a
    forecast path and a fit score (R²). The paths are blended point by point
    with one weight per model: the scores normalised by their total when that
    total is positive, otherwise a third each. The fitters themselves are not
    part of this model; their outputs are inputs here. */
module Ensemble {
  import opened Basics
  import opened Timestamps

  const Third: real := 1.0 / 3.0

  /** Key of the feature model in the `scores` and `weights` dictionaries. */
  const MlFeatures := "ml_features"

  /** One fitter's output: its forecast path and its score. */
  datatype Fit = Fit(path: seq<real>, score: real)

  /** The outputs of the three fitters for one forecast length. */
  datatype Fits = Fits(linear: Fit, polynomial: Fit, ml: Fit)

  /** Weights of the linear, polynomial and feature model, in that order. */
  datatype Weights = Weights(linear: real, polynomial: real, ml: real)

  /** The three paths have one length, as numpy needs to add them. */
  predicate Aligned(f: Fits)
  {
    |f.linear.path| == |f.polynomial.path| == |f.ml.path|
  }

  predicate Distribution(w: Weights)
  {
    w.linear >= 0.0 && w.polynomial >= 0.0 && w.ml >= 0.0
    && w.linear + w.polynomial + w.ml == 1.0
  }

  const Uniform := Weights(Third, Third, Third)

  // ---------------------------------------------------------------------
  // Weighting by score

  /** `scores / total_score` when the total is positive, else a third each. */
  function ScoreWeights(f: Fits): Weights
  {
    var total := f.linear.score + f.polynomial.score + f.ml.score;
    if total > 0.0 then Weights(f.linear.score / total, f.polynomial.score / total, f.ml.score / total)
    else Uniform
  }

  /** The score weights always add up to one, and each is proportional to its
      model's score whenever the total is positive. */
  lemma ScoreWeightsSumToOne(f: Fits)
    ensures var w := ScoreWeights(f); w.linear + w.polynomial + w.ml == 1.0
    ensures var total := f.linear.score + f.polynomial.score + f.ml.score;
      total > 0.0 ==> var w := ScoreWeights(f);
        w.linear * total == f.linear.score && w.polynomial * total == f.polynomial.score && w.ml * total == f.ml.score
  {
    var a, b, c := f.linear.score, f.polynomial.score, f.ml.score;
    var t := a + b + c;
    if t > 0.0 {
      assert a / t + b / t + c / t == t / t;
    }
  }

  /** The weights are a distribution exactly when no score is negative or
      the total is not positive: a negative R² next to a positive total gives
      its model a negative weight. */
  lemma ScoreWeightsDistributionIff(f: Fits)
    ensures Distribution(ScoreWeights(f)) <==>
      f.linear.score + f.polynomial.score + f.ml.score <= 0.0
      || (f.linear.score >= 0.0 && f.polynomial.score >= 0.0 && f.ml.score >= 0.0)
  {
    ScoreWeightsSumToOne(f);
    var a, b, c := f.linear.score, f.polynomial.score, f.ml.score;
    var t := a + b + c;
    if t > 0.0 {
      SignOfShare(a, t);
      SignOfShare(b, t);
      SignOfShare(c, t);
    }
  }

  lemma SignOfShare(a: real, t: real)
    requires t > 0.0
    ensures a / t >= 0.0 <==> a >= 0.0
  {
    assert (a / t) * t == a;
  }

  // ---------------------------------------------------------------------
  // Blending

  /** `w0 * linear + w1 * poly + w2 * ml`, point by point. */
  function Blend(w: Weights, f: Fits): (r: seq<real>)
    requires Aligned(f)
    ensures |r| == |f.linear.path|
  {
    seq(|f.linear.path|, i requires 0 <= i < |f.linear.path| =>
      w.linear * f.linear.path[i] + w.polynomial * f.polynomial.path[i] + w.ml * f.ml.path[i])
  }

  /** A convex combination of three values lies between their bounds. */
  lemma Convex(w: Weights, x: real, y: real, z: real, lo: real, hi: real)
    requires Distribution(w)
    requires lo <= x <= hi && lo <= y <= hi && lo <= z <= hi
    ensures lo <= w.linear * x + w.polynomial * y + w.ml * z <= hi
  {
    ConvexLow(w.linear, w.polynomial, w.ml, x, y, z, lo);
    ConvexLow(w.linear, w.polynomial, w.ml, -x, -y, -z, -hi);
    assert w.linear * -x + w.polynomial * -y + w.ml * -z == -(w.linear * x + w.polynomial * y + w.ml * z);
  }

  lemma ConvexLow(a: real, b: real, c: real, x: real, y: real, z: real, lo: real)
    requires a >= 0.0 && b >= 0.0 && c >= 0.0 && a + b + c == 1.0
    requires lo <= x && lo <= y && lo <= z
    ensures lo <= a * x + b * y + c * z
  {
    var (dx, dy, dz) := (x - lo, y - lo, z - lo);
    assert a * dx >= 0.0 && b * dy >= 0.0 && c * dz >= 0.0;
    assert a * x + b * y + c * z == a * dx + b * dy + c * dz + (a + b + c) * lo;
  }

  function Min3(x: real, y: real, z: real): (m: real)
    ensures m <= x && m <= y && m <= z
    ensures m == x || m == y || m == z
  {
    if x <= y && x <= z then x else if y <= z then y else z
  }

  function Max3(x: real, y: real, z: real): (m: real)
    ensures m >= x && m >= y && m >= z
    ensures m == x || m == y || m == z
  {
    if x >= y && x >= z then x else if y >= z then y else z
  }

  /** With distribution weights every blended point lies between the
      smallest and the largest of the three forecasts at that point. */
  lemma BlendBetweenModels(w: Weights, f: Fits)
    requires Aligned(f) && Distribution(w)
    ensures forall i :: 0 <= i < |f.linear.path| ==>
      var (x, y, z) := (f.linear.path[i], f.polynomial.path[i], f.ml.path[i]);
      Min3(x, y, z) <= Blend(w, f)[i] <= Max3(x, y, z)
  {
    forall i | 0 <= i < |f.linear.path|
      ensures var (x, y, z) := (f.linear.path[i], f.polynomial.path[i], f.ml.path[i]);
        Min3(x, y, z) <= Blend(w, f)[i] <= Max3(x, y, z)
    {
      var (x, y, z) := (f.linear.path[i], f.polynomial.path[i], f.ml.path[i]);
      Convex(w, x, y, z, Min3(x, y, z), Max3(x, y, z));
    }
  }

  /** Where the three models agree, the blend with weights adding up to one
      gives their common forecast, whatever the weights. */
  lemma BlendOfAgreement(w: Weights, f: Fits, i: nat)
    requires Aligned(f) && i < |f.linear.path|
    requires w.linear + w.polynomial + w.ml == 1.0
    requires f.linear.path[i] == f.polynomial.path[i] == f.ml.path[i]
    ensures Blend(w, f)[i] == f.linear.path[i]
  {
    var x := f.linear.path[i];
    assert w.linear * x + w.polynomial * x + w.ml * x == (w.linear + w.polynomial + w.ml) * x;
  }

  // ---------------------------------------------------------------------
  // `ensemble_prediction` and the report's ensemble R²

  datatype EnsembleResult = EnsembleResult(ensemble: seq<real>, fits: Fits, weights: Weights)

  function EnsemblePrediction(f: Fits): (r: EnsembleResult)
    requires Aligned(f)
    ensures r.fits == f && |r.ensemble| == |f.linear.path|
    ensures r.weights.linear + r.weights.polynomial + r.weights.ml == 1.0
  {
    ScoreWeightsSumToOne(f);
    EnsembleResult(Blend(ScoreWeights(f), f), f, ScoreWeights(f))
  }

  /** The `weights` dictionary of the result. */
  function WeightsMap(w: Weights): (m: map<string, real>)
    ensures m.Keys == {"linear", "polynomial", MlFeatures}
    ensures m["linear"] == w.linear && m["polynomial"] == w.polynomial && m[MlFeatures] == w.ml
  {
    map["linear" := w.linear, "polynomial" := w.polynomial, MlFeatures := w.ml]
  }

  /** `sum(scores[k] * weights[k])` over the three models. */
  function EnsembleR2(r: EnsembleResult): real
  {
    r.fits.linear.score * r.weights.linear + r.fits.polynomial.score * r.weights.polynomial
      + r.fits.ml.score * r.weights.ml
  }

  /** Weighting the scores by themselves never gives less than their plain
      mean (equality when the total is not positive, or all scores agree). */
  lemma EnsembleR2AtLeastMean(f: Fits)
    requires Aligned(f)
    ensures EnsembleR2(EnsemblePrediction(f)) >= (f.linear.score + f.polynomial.score + f.ml.score) / 3.0
  {
    var a, b, c := f.linear.score, f.polynomial.score, f.ml.score;
    var t := a + b + c;
    if t > 0.0 {
      SelfWeightedMean(a, b, c);
    }
  }

  lemma SelfWeightedMean(a: real, b: real, c: real)
    requires a + b + c > 0.0
    ensures var t := a + b + c; a * (a / t) + b * (b / t) + c * (c / t) >= t / 3.0
  {
    var t := a + b + c;
    var sq := a * a + b * b + c * c;
    assert a * (a / t) + b * (b / t) + c * (c / t) == sq / t;
    SquaresBound(a, b, c);
    QuotientAtLeast(sq, t);
  }

  lemma SquaresBound(a: real, b: real, c: real)
    ensures 3.0 * (a * a + b * b + c * c) >= (a + b + c) * (a + b + c)
  {
    assert 3.0 * (a * a + b * b + c * c) - (a + b + c) * (a + b + c)
      == (a - b) * (a - b) + (b - c) * (b - c) + (a - c) * (a - c);
    Square(a - b);
    Square(b - c);
    Square(a - c);
  }

  lemma Square(x: real)
    ensures x * x >= 0.0
  {
    if x < 0.0 {
      assert x * x == (-x) * (-x);
    }
  }

  lemma QuotientAtLeast(sq: real, t: real)
    requires t > 0.0 && 3.0 * sq >= t * t
    ensures sq / t >= t / 3.0
  {
    var q := sq / t;
    assert q * t == sq;
    assert (3.0 * q - t) * t >= 0.0;
  }

  /** With no negative score the ensemble R² is a weighted mean of the scores,
      so it never exceeds the best of them. */
  lemma EnsembleR2AtMostBest(f: Fits)
    requires Aligned(f)
    requires f.linear.score >= 0.0 && f.polynomial.score >= 0.0 && f.ml.score >= 0.0
    ensures EnsembleR2(EnsemblePrediction(f)) <= Max3(f.linear.score, f.polynomial.score, f.ml.score)
  {
    var w := ScoreWeights(f);
    ScoreWeightsDistributionIff(f);
    var (a, b, c) := (f.linear.score, f.polynomial.score, f.ml.score);
    Convex(w, a, b, c, Min3(a, b, c), Max3(a, b, c));
  }

  // ---------------------------------------------------------------------
  // The report's key predictions

  /** Percentage change of a forecast from the current price, written as
      `(pred / current - 1) * 100`. */
  function ChangePct(pred: real, current: real): real
    requires current != 0.0
  {
    (pred / current - 1.0) * 100.0
  }

  /** The change percentage recovers the forecast from the current price,
      and it is positive exactly when the forecast is above a positive price. */
  lemma ChangePctRoundTrip(pred: real, current: real)
    requires current != 0.0
    ensures current * (1.0 + ChangePct(pred, current) / 100.0) == pred
    ensures current > 0.0 ==> (ChangePct(pred, current) > 0.0 <==> pred > current)
  {
    var q := pred / current;
    assert q * current == pred;
    if current > 0.0 {
      if q > 1.0 {
        assert q * current > 1.0 * current;
      } else {
        assert q * current <= 1.0 * current;
      }
    }
  }

  /** `((price - current) / current) * 100`, as the adaptive pipeline writes
      it, is the same change percentage. */
  lemma ChangePctFormsAgree(pred: real, current: real)
    requires current != 0.0
    ensures (pred - current) / current * 100.0 == ChangePct(pred, current)
  {
    assert (pred - current) / current == pred / current - current / current;
  }

  datatype KeyPrediction = KeyPrediction(name: string, price: real, changePct: real, timestamp: DateTime)

  /** Positions in the 4-hour ensemble path of the 4h, 8h, 24h and 48h
      predictions. */
  const KeyIndices: seq<nat> := [0, 1, 5, 11]

  /** The `predictions` block of the saved report, in the order 4h, 8h, 24h,
      48h, for a 12-step path of 4-hour periods starting after `last`. */
  function KeyPredictions(ensemble: seq<real>, current: real, last: DateTime): (r: seq<KeyPrediction>)
    requires |ensemble| >= 12 && current != 0.0
    ensures |r| == 4
    ensures r[0].name == "4h" && r[1].name == "8h" && r[2].name == "24h" && r[3].name == "48h"
  {
    [ KeyPrediction("4h", ensemble[0], ChangePct(ensemble[0], current), AddMinutes(last, 4 * 60)),
      KeyPrediction("8h", ensemble[1], ChangePct(ensemble[1], current), AddMinutes(last, 8 * 60)),
      KeyPrediction("24h", ensemble[5], ChangePct(ensemble[5], current), AddMinutes(last, 24 * 60)),
      KeyPrediction("48h", ensemble[11], ChangePct(ensemble[11], current), AddMinutes(last, 48 * 60)) ]
  }

  /** Each key prediction is the forecast for the end of its period: the
      point at index i of the path is stamped 4·(i + 1) hours after the last
      candle, and its change percentage recovers it from the current price. */
  lemma KeyPredictionsAligned(ensemble: seq<real>, current: real, last: DateTime)
    requires |ensemble| >= 12 && current != 0.0
    ensures forall k :: 0 <= k < 4 ==>
      var p := KeyPredictions(ensemble, current, last)[k];
      && p.price == ensemble[KeyIndices[k]]
      && p.timestamp == AddMinutes(last, 240 * (KeyIndices[k] + 1))
      && current * (1.0 + p.changePct / 100.0) == p.price
  {
    var r := KeyPredictions(ensemble, current, last);
    forall k | 0 <= k < 4
      ensures current * (1.0 + r[k].changePct / 100.0) == r[k].price
    {
      ChangePctRoundTrip(r[k].price, current);
    }
  }
}
