/** Adaptive model weights for one market condition
    (`get_model_weights_for_condition`): inverse-error scores, an exponential
    decay that weights the newest observation most, normalisation, and a
    uniform cold start. */
module WeightSolver {
  import opened Basics
  import opened SeqMath
  import opened EnhancedRecords

  const Linear := "linear"
  const Polynomial := "polynomial"
  const RandomForest := "random_forest"
  const ModelNames: seq<string> := [Linear, Polynomial, RandomForest]
  /** Fewer matching validations than this gives the uniform weights. */
  const MinSamples := 5
  const DecayFactor := 0.95
  const DefaultWindow := 20

  const Uniform: map<string, real> := map[Linear := 1.0 / 3.0, Polynomial := 1.0 / 3.0, RandomForest := 1.0 / 3.0]

  /** The validations of `vs` under condition `cond`, in log order. */
  function Matching(vs: seq<ValidationRecord>, cond: string): (r: seq<ValidationRecord>)
    ensures |r| <= |vs|
    ensures forall v :: v in r <==> v in vs && v.marketCondition == cond
  {
    if vs == [] then []
    else
      var last := vs[|vs| - 1];
      Matching(vs[..|vs| - 1], cond) + (if last.marketCondition == cond then [last] else [])
  }

  lemma {:induction false} MatchingNone(vs: seq<ValidationRecord>, cond: string)
    requires forall i :: 0 <= i < |vs| ==> vs[i].marketCondition != cond
    ensures Matching(vs, cond) == []
  {
    if vs != [] {
      MatchingNone(vs[..|vs| - 1], cond);
    }
  }

  /** The last `window` validations of the whole log, then those of `cond`. */
  function RecentForCondition(vs: seq<ValidationRecord>, cond: string, window: int): seq<ValidationRecord>
  {
    Matching(PyTail(vs, window), cond)
  }

  /** `1 / (1 + pct)` for every validation that has model m, in log order;
      a percentage of exactly -1 divides by zero. */
  function InverseScores(recent: seq<ValidationRecord>, m: string): Result<seq<real>>
  {
    if recent == [] then Ok([])
    else ScoreStep(InverseScores(recent[..|recent| - 1], m), recent[|recent| - 1], m)
  }

  /** One iteration: validation v adds m's score, if it has an entry for m. */
  function ScoreStep(acc: Result<seq<real>>, v: ValidationRecord, m: string): Result<seq<real>>
  {
    match acc
    case Err(e) => Err(e)
    case Ok(scores) =>
      if m !in v.errors then Ok(scores)
      else if 1.0 + v.errors[m].percentage == 0.0 then Err(ZeroDivisionError)
      else Ok(scores + [1.0 / (1.0 + v.errors[m].percentage)])
  }

  /** Some validation's entry for m has percentage exactly -1. */
  predicate HasMinusOne(recent: seq<ValidationRecord>, m: string)
  {
    exists i :: 0 <= i < |recent| && m in recent[i].errors && recent[i].errors[m].percentage == -1.0
  }

  /** The scores fail exactly on a percentage of -1. */
  lemma {:induction false} InverseScoresErrIff(recent: seq<ValidationRecord>, m: string)
    ensures InverseScores(recent, m).Err? <==> HasMinusOne(recent, m)
  {
    if recent != [] {
      var front := recent[..|recent| - 1];
      InverseScoresErrIff(front, m);
      if HasMinusOne(front, m) {
        var i :| 0 <= i < |front| && m in front[i].errors && front[i].errors[m].percentage == -1.0;
        assert recent[i] == front[i];
      }
      assert forall i :: 0 <= i < |front| ==> front[i] == recent[i];
    }
  }

  /** The score of one percentage above -1 is positive, and at most 1 when the
      percentage is non-negative. */
  lemma Reciprocal(p: real)
    requires p > -1.0
    ensures 1.0 / (1.0 + p) > 0.0
    ensures p >= 0.0 ==> 1.0 / (1.0 + p) <= 1.0
  {
    if p >= 0.0 {
      assert 1.0 / (1.0 + p) * (1.0 + p) == 1.0;
    }
  }

  /** With every percentage above lo (lo >= -1) the scores exist and are
      positive; with lo >= 0 they are also at most 1. */
  lemma {:induction false} InverseScoresBounds(recent: seq<ValidationRecord>, m: string, lo: real)
    requires lo >= -1.0
    requires forall i :: 0 <= i < |recent| && m in recent[i].errors ==> recent[i].errors[m].percentage > lo
    ensures InverseScores(recent, m).Ok?
    ensures forall j :: 0 <= j < |InverseScores(recent, m).value| ==> InverseScores(recent, m).value[j] > 0.0
    ensures lo >= 0.0 ==> forall j :: 0 <= j < |InverseScores(recent, m).value| ==> InverseScores(recent, m).value[j] <= 1.0
  {
    if recent != [] {
      var front := recent[..|recent| - 1];
      var v := recent[|recent| - 1];
      assert forall i :: 0 <= i < |front| ==> front[i] == recent[i];
      InverseScoresBounds(front, m, lo);
      if m in v.errors {
        Reciprocal(v.errors[m].percentage);
      }
    }
  }

  /** Once the scores of a prefix fail, the scores of the whole fail. */
  lemma {:induction false} InverseScoresErrSticks(recent: seq<ValidationRecord>, m: string, k: nat)
    requires k <= |recent|
    requires InverseScores(recent[..k], m).Err?
    ensures InverseScores(recent, m).Err?
  {
    if k < |recent| {
      assert recent[..|recent| - 1][..k] == recent[..k];
      InverseScoresErrSticks(recent[..|recent| - 1], m, k);
    } else {
      assert recent[..k] == recent;
    }
  }

  /** Σ xs[k]·0.95^k: the loop over `reversed(errors)`, whose k-th entry is
      the k-th newest score. */
  function WeightedSum(xs: seq<real>): real
  {
    if xs == [] then 0.0 else WeightedSum(xs[..|xs| - 1]) + xs[|xs| - 1] * Pow(DecayFactor, |xs| - 1)
  }

  /** Σ 0.95^k for k < n. */
  function TotalWeight(n: nat): real
  {
    if n == 0 then 0.0 else TotalWeight(n - 1) + Pow(DecayFactor, n - 1)
  }

  lemma {:induction false} TotalWeightPositive(n: nat)
    requires n > 0
    ensures TotalWeight(n) >= 1.0
  {
    PowPositive(DecayFactor, n - 1);
    if n > 1 {
      TotalWeightPositive(n - 1);
    }
  }

  /** The decay-weighted mean of scores given oldest first; the newest score
      has weight 1 and each older one 0.95 times the weight of the next. */
  function DecayedMean(scores: seq<real>): real
  {
    var total := TotalWeight(|scores|);
    if total > 0.0 then WeightedSum(Reverse(scores)) / total else 0.0
  }

  /** Prepending the newest score scales all older weights by 0.95. */
  lemma {:induction false} WeightedSumNewestFirst(x: real, older: seq<real>)
    ensures WeightedSum([x] + older) == x + DecayFactor * WeightedSum(older)
  {
    if older != [] {
      var n := |older|;
      WeightedSumNewestFirst(x, older[..n - 1]);
      assert ([x] + older)[..n] == [x] + older[..n - 1];
      assert Pow(DecayFactor, n) == DecayFactor * Pow(DecayFactor, n - 1);
    } else {
      assert ([x] + older)[..0] == [];
    }
  }

  /** Adding a newer score: it takes weight 1 and the older sum decays once. */
  lemma DecayedNumeratorAppend(scores: seq<real>, x: real)
    ensures WeightedSum(Reverse(scores + [x])) == x + DecayFactor * WeightedSum(Reverse(scores))
  {
    assert Reverse(scores + [x]) == [x] + Reverse(scores);
    WeightedSumNewestFirst(x, Reverse(scores));
  }

  /** A decayed sum of values at least lo is at least lo times the weights. */
  lemma {:induction false} WeightedSumAbove(xs: seq<real>, lo: real)
    requires forall i :: 0 <= i < |xs| ==> lo <= xs[i]
    ensures lo * TotalWeight(|xs|) <= WeightedSum(xs)
    decreases |xs|
  {
    if xs != [] {
      var n := |xs|;
      WeightedSumAbove(xs[..n - 1], lo);
      PowPositive(DecayFactor, n - 1);
      StepAbove(lo, WeightedSum(xs[..n - 1]), TotalWeight(n - 1), xs[n - 1], Pow(DecayFactor, n - 1));
    }
  }

  /** A decayed sum of values at most hi is at most hi times the weights. */
  lemma {:induction false} WeightedSumBelow(xs: seq<real>, hi: real)
    requires forall i :: 0 <= i < |xs| ==> xs[i] <= hi
    ensures WeightedSum(xs) <= hi * TotalWeight(|xs|)
    decreases |xs|
  {
    if xs != [] {
      var n := |xs|;
      WeightedSumBelow(xs[..n - 1], hi);
      PowPositive(DecayFactor, n - 1);
      StepAbove(-hi, -WeightedSum(xs[..n - 1]), TotalWeight(n - 1), -xs[n - 1], Pow(DecayFactor, n - 1));
    }
  }

  /** Adding x·p, with x >= lo and a positive weight p, to a sum s >= lo·t
      gives at least lo·(t + p). */
  lemma StepAbove(lo: real, s: real, t: real, x: real, p: real)
    requires lo * t <= s && lo <= x && p > 0.0
    ensures lo * (t + p) <= s + x * p
    ensures -s - x * p <= -lo * (t + p)
  {
    assert (x - lo) * p >= 0.0;
  }

  lemma DecayedMeanBounds(scores: seq<real>, lo: real, hi: real)
    requires |scores| > 0
    requires forall i :: 0 <= i < |scores| ==> lo <= scores[i] <= hi
    ensures lo <= DecayedMean(scores) <= hi
  {
    var rev := Reverse(scores);
    WeightedSumAbove(rev, lo);
    WeightedSumBelow(rev, hi);
    TotalWeightPositive(|scores|);
    QuotientBounds(lo, hi, WeightedSum(rev), TotalWeight(|scores|));
  }

  /** `model_scores[m]`: the decayed mean of its scores, 1/3 without any. */
  function ModelScore(recent: seq<ValidationRecord>, m: string): Result<real>
  {
    match InverseScores(recent, m)
    case Err(e) => Err(e)
    case Ok(scores) => if |scores| > 0 then Ok(DecayedMean(scores)) else Ok(1.0 / 3.0)
  }

  /** `model_scores` for the three models; a failing model raises, which
      aborts the whole computation. */
  function ModelScores(recent: seq<ValidationRecord>): (r: Result<map<string, real>>)
    ensures r.Ok? ==> r.value.Keys == {Linear, Polynomial, RandomForest}
    ensures r.Ok? ==> forall m :: m in r.value ==> ModelScore(recent, m) == Ok(r.value[m])
    ensures r.Err? <==> ModelScore(recent, Linear).Err? || ModelScore(recent, Polynomial).Err? || ModelScore(recent, RandomForest).Err?
  {
    var l := ModelScore(recent, Linear);
    var p := ModelScore(recent, Polynomial);
    var f := ModelScore(recent, RandomForest);
    if l.Err? || p.Err? || f.Err? then Err(ZeroDivisionError)
    else Ok(map[Linear := l.value, Polynomial := p.value, RandomForest := f.value])
  }

  /** Divide by the total when it is positive, otherwise uniform. */
  function Normalise(scores: map<string, real>): (weights: map<string, real>)
    requires scores.Keys == {Linear, Polynomial, RandomForest}
    ensures weights.Keys == scores.Keys
  {
    var total := scores[Linear] + scores[Polynomial] + scores[RandomForest];
    if total > 0.0 then map k | k in scores :: scores[k] / total else Uniform
  }

  /** Normalised scores form a distribution over the three models. */
  lemma NormaliseSumsToOne(scores: map<string, real>)
    requires scores.Keys == {Linear, Polynomial, RandomForest}
    ensures Normalise(scores).Keys == {Linear, Polynomial, RandomForest}
    ensures var w := Normalise(scores); w[Linear] + w[Polynomial] + w[RandomForest] == 1.0
  {
    var a, b, c := scores[Linear], scores[Polynomial], scores[RandomForest];
    if a + b + c > 0.0 {
      ShareSum(a, b, c);
    }
  }

  /** Three shares of a positive total add up to one. */
  lemma ShareSum(a: real, b: real, c: real)
    requires a + b + c > 0.0
    ensures a / (a + b + c) + b / (a + b + c) + c / (a + b + c) == 1.0
  {
    var t := a + b + c;
    assert a / t + b / t + c / t == (a + b + c) / t;
  }

  lemma DivAtMostOne(a: real, t: real)
    requires 0.0 < a <= t
    ensures 0.0 < a / t <= 1.0
  {
    var q := a / t;
    assert q * t == a;
    assert (q - 1.0) * t <= 0.0;
  }

  /** Positive scores normalise to weights in [0, 1]. */
  lemma NormaliseInUnitInterval(scores: map<string, real>)
    requires scores.Keys == {Linear, Polynomial, RandomForest}
    requires forall k :: k in scores ==> scores[k] > 0.0
    ensures forall k :: k in Normalise(scores) ==> 0.0 <= Normalise(scores)[k] <= 1.0
  {
    var total := scores[Linear] + scores[Polynomial] + scores[RandomForest];
    forall k | k in scores
      ensures 0.0 <= scores[k] / total <= 1.0
    {
      DivAtMostOne(scores[k], total);
    }
  }

  /** The weights for the matching validations of the window. */
  function WeightsFromRecent(recent: seq<ValidationRecord>): Result<map<string, real>>
  {
    if |recent| < MinSamples then Ok(Uniform)
    else
      match ModelScores(recent)
      case Err(e) => Err(e)
      case Ok(scores) => Ok(Normalise(scores))
  }

  /** `get_model_weights_for_condition(cond, window)` over the validation log. */
  function WeightsFor(vs: seq<ValidationRecord>, cond: string, window: int): Result<map<string, real>>
  {
    WeightsFromRecent(RecentForCondition(vs, cond, window))
  }

  /** Fewer than five matching validations in the window: exactly 1/3 each. */
  lemma ColdStart(vs: seq<ValidationRecord>, cond: string, window: int)
    requires |RecentForCondition(vs, cond, window)| < MinSamples
    ensures WeightsFor(vs, cond, window) == Ok(Uniform)
  {
  }

  /** The window is taken over the whole log before filtering: when the last
      `window` validations are all of other conditions, the weights are the
      cold-start ones, however many earlier validations match. */
  lemma WindowBeforeFilter(vs: seq<ValidationRecord>, cond: string, window: nat)
    requires window > 0
    requires forall i :: |vs| - window <= i < |vs| && 0 <= i ==> vs[i].marketCondition != cond
    ensures RecentForCondition(vs, cond, window) == []
    ensures WeightsFor(vs, cond, window) == Ok(Uniform)
  {
    var tail := PyTail(vs, window);
    var d := |vs| - |tail|;
    assert d == if window < |vs| then |vs| - window else 0;
    forall j | 0 <= j < |tail|
      ensures tail[j].marketCondition != cond
    {
      assert tail[j] == vs[d + j];
    }
    MatchingNone(tail, cond);
  }

  /** The weights are a distribution over the three models. */
  lemma WeightsNormalised(recent: seq<ValidationRecord>)
    requires WeightsFromRecent(recent).Ok?
    ensures WeightsFromRecent(recent).value.Keys == {Linear, Polynomial, RandomForest}
    ensures var w := WeightsFromRecent(recent).value;
      w[Linear] + w[Polynomial] + w[RandomForest] == 1.0
  {
    if |recent| >= MinSamples {
      NormaliseSumsToOne(ModelScores(recent).value);
    }
  }

  /** Scoring fails (ZeroDivisionError) exactly when the window holds enough
      samples and one of the three models has a percentage of -1 there. */
  lemma WeightsErrIff(recent: seq<ValidationRecord>)
    ensures WeightsFromRecent(recent).Err? <==>
      |recent| >= MinSamples
      && (HasMinusOne(recent, Linear) || HasMinusOne(recent, Polynomial) || HasMinusOne(recent, RandomForest))
  {
    InverseScoresErrIff(recent, Linear);
    InverseScoresErrIff(recent, Polynomial);
    InverseScoresErrIff(recent, RandomForest);
  }

  /** A model's score is positive when none of its percentages is -1 or below. */
  lemma ModelScorePositive(recent: seq<ValidationRecord>, m: string)
    requires forall i :: 0 <= i < |recent| && m in recent[i].errors ==> recent[i].errors[m].percentage > -1.0
    ensures ModelScore(recent, m).Ok? && ModelScore(recent, m).value > 0.0
  {
    InverseScoresBounds(recent, m, -1.0);
    var scores := InverseScores(recent, m).value;
    if |scores| > 0 {
      var lo := MinOf(scores);
      DecayedMeanBounds(scores, lo, MaxOf(scores));
    }
  }

  /** With every percentage above -1 each weight lies in [0, 1]. */
  lemma WeightsInUnitInterval(recent: seq<ValidationRecord>)
    requires forall i, m :: 0 <= i < |recent| && m in recent[i].errors ==> recent[i].errors[m].percentage > -1.0
    ensures WeightsFromRecent(recent).Ok?
    ensures forall k :: k in WeightsFromRecent(recent).value ==> 0.0 <= WeightsFromRecent(recent).value[k] <= 1.0
  {
    if |recent| >= MinSamples {
      ModelScorePositive(recent, Linear);
      ModelScorePositive(recent, Polynomial);
      ModelScorePositive(recent, RandomForest);
      NormaliseInUnitInterval(ModelScores(recent).value);
    }
  }

  /** Normalisation keeps the order of the scores: a model scored at least as
      well as another gets at least its weight. */
  lemma NormalisePreservesOrder(scores: map<string, real>, a: string, b: string)
    requires scores.Keys == {Linear, Polynomial, RandomForest}
    requires a in scores && b in scores
    requires scores[a] <= scores[b]
    ensures Normalise(scores)[a] <= Normalise(scores)[b]
  {
    var total := scores[Linear] + scores[Polynomial] + scores[RandomForest];
    if total > 0.0 {
      assert scores[a] / total <= scores[b] / total;
    }
  }

  // ---------------------------------------------------------------------
  // Monotonic scoring: lower errors never cost a model weight.

  /** `v2` is `v` with model m's percentage error lowered, still above -1,
      and nothing else changed that the weights read. */
  predicate LowersEntry(v: ValidationRecord, v2: ValidationRecord, m: string)
  {
    && v2.marketCondition == v.marketCondition
    && v2.errors.Keys == v.errors.Keys
    && (forall k :: k in v.errors && k != m ==> v2.errors[k] == v.errors[k])
    && (m in v.errors ==> -1.0 < v2.errors[m].percentage <= v.errors[m].percentage)
  }

  /** `vs2` is `vs` with model m's errors lowered entry by entry. */
  predicate LowersErrorsOf(vs: seq<ValidationRecord>, vs2: seq<ValidationRecord>, m: string)
  {
    |vs2| == |vs| && forall i :: 0 <= i < |vs| ==> LowersEntry(vs[i], vs2[i], m)
  }

  /** Every percentage error of the validation is above -1. */
  predicate EntryAboveMinusOne(v: ValidationRecord)
  {
    forall k :: k in v.errors ==> v.errors[k].percentage > -1.0
  }

  /** Every percentage error of every model is above -1. */
  predicate AboveMinusOne(vs: seq<ValidationRecord>)
  {
    forall i :: 0 <= i < |vs| ==> EntryAboveMinusOne(vs[i])
  }

  lemma LowersTail(vs: seq<ValidationRecord>, vs2: seq<ValidationRecord>, m: string, window: int)
    requires LowersErrorsOf(vs, vs2, m)
    ensures LowersErrorsOf(PyTail(vs, window), PyTail(vs2, window), m)
  {
    var t, t2 := PyTail(vs, window), PyTail(vs2, window);
    var d := |vs| - |t|;
    assert t == vs[d..] && t2 == vs2[d..];
    forall i | 0 <= i < |t|
      ensures LowersEntry(t[i], t2[i], m)
    {
      assert t[i] == vs[d + i] && t2[i] == vs2[d + i];
    }
  }

  lemma LowersPrefix(vs: seq<ValidationRecord>, vs2: seq<ValidationRecord>, m: string, n: nat)
    requires LowersErrorsOf(vs, vs2, m) && n <= |vs|
    ensures LowersErrorsOf(vs[..n], vs2[..n], m)
  {
    forall i | 0 <= i < n
      ensures LowersEntry(vs[..n][i], vs2[..n][i], m)
    {
      assert vs[..n][i] == vs[i] && vs2[..n][i] == vs2[i];
    }
  }

  lemma {:induction false} LowersMatching(vs: seq<ValidationRecord>, vs2: seq<ValidationRecord>, m: string, cond: string)
    requires LowersErrorsOf(vs, vs2, m)
    ensures LowersErrorsOf(Matching(vs, cond), Matching(vs2, cond), m)
  {
    if vs != [] {
      var n := |vs| - 1;
      LowersPrefix(vs, vs2, m, n);
      LowersMatching(vs[..n], vs2[..n], m, cond);
    }
  }

  /** The other models' scores do not change. */
  lemma {:induction false} InverseScoresOther(recent: seq<ValidationRecord>, recent2: seq<ValidationRecord>, m: string, k: string)
    requires LowersErrorsOf(recent, recent2, m) && k != m
    ensures InverseScores(recent2, k) == InverseScores(recent, k)
  {
    if recent != [] {
      var n := |recent| - 1;
      LowersPrefix(recent, recent2, m, n);
      InverseScoresOther(recent[..n], recent2[..n], m, k);
    }
  }

  /** A lower percentage above -1 has a higher score. */
  lemma ReciprocalAntitone(p: real, q: real)
    requires -1.0 < q <= p
    ensures 1.0 / (1.0 + p) <= 1.0 / (1.0 + q)
  {
    var x, y := 1.0 / (1.0 + p), 1.0 / (1.0 + q);
    assert x * (1.0 + p) == 1.0 && y * (1.0 + q) == 1.0;
    Reciprocal(p);
    Reciprocal(q);
    assert y * (1.0 + p) >= y * (1.0 + q);
    assert (y - x) * (1.0 + p) >= 0.0;
  }

  /** Two aligned score lists, the first at most the second entry by entry. */
  predicate AtMostEach(xs: seq<real>, ys: seq<real>)
  {
    |xs| == |ys| && forall j :: 0 <= j < |xs| ==> xs[j] <= ys[j]
  }

  lemma AtMostEachAppend(xs: seq<real>, ys: seq<real>, x: real, y: real)
    requires AtMostEach(xs, ys) && x <= y
    ensures AtMostEach(xs + [x], ys + [y])
  {
  }

  /** Model m's scores stay aligned and each one rises or stays. */
  lemma {:induction false} InverseScoresLowered(recent: seq<ValidationRecord>, recent2: seq<ValidationRecord>, m: string)
    requires LowersErrorsOf(recent, recent2, m)
    ensures InverseScores(recent, m).Ok? && InverseScores(recent2, m).Ok?
    ensures AtMostEach(InverseScores(recent, m).value, InverseScores(recent2, m).value)
  {
    if recent != [] {
      var n := |recent| - 1;
      LowersPrefix(recent, recent2, m, n);
      InverseScoresLowered(recent[..n], recent2[..n], m);
      assert LowersEntry(recent[n], recent2[n], m);
      ScoreStepLowered(InverseScores(recent[..n], m), InverseScores(recent2[..n], m), recent[n], recent2[n], m);
    }
  }

  /** The step of InverseScoresLowered: one validation of each list. */
  lemma ScoreStepLowered(acc: Result<seq<real>>, acc2: Result<seq<real>>, v: ValidationRecord, v2: ValidationRecord, m: string)
    requires acc.Ok? && acc2.Ok? && AtMostEach(acc.value, acc2.value)
    requires LowersEntry(v, v2, m)
    ensures ScoreStep(acc, v, m).Ok? && ScoreStep(acc2, v2, m).Ok?
    ensures AtMostEach(ScoreStep(acc, v, m).value, ScoreStep(acc2, v2, m).value)
  {
    if m in v.errors {
      var p, q := v.errors[m].percentage, v2.errors[m].percentage;
      ReciprocalAntitone(p, q);
      AtMostEachAppend(acc.value, acc2.value, 1.0 / (1.0 + p), 1.0 / (1.0 + q));
    }
  }

  /** Raising scores one by one raises their decayed sum. */
  lemma {:induction false} WeightedSumMonotone(xs: seq<real>, ys: seq<real>)
    requires |xs| == |ys| && forall j :: 0 <= j < |xs| ==> xs[j] <= ys[j]
    ensures WeightedSum(xs) <= WeightedSum(ys)
  {
    if xs != [] {
      var n := |xs| - 1;
      WeightedSumMonotone(xs[..n], ys[..n]);
      PowPositive(DecayFactor, n);
      assert xs[n] * Pow(DecayFactor, n) <= ys[n] * Pow(DecayFactor, n);
    }
  }

  /** Raising scores one by one raises their decayed mean. */
  lemma DecayedMeanMonotone(xs: seq<real>, ys: seq<real>)
    requires |xs| == |ys| > 0 && forall j :: 0 <= j < |xs| ==> xs[j] <= ys[j]
    ensures DecayedMean(xs) <= DecayedMean(ys)
  {
    WeightedSumMonotone(Reverse(xs), Reverse(ys));
    TotalWeightPositive(|xs|);
    var t := TotalWeight(|xs|);
    assert WeightedSum(Reverse(xs)) / t <= WeightedSum(Reverse(ys)) / t;
  }

  /** A larger positive share of the same remainder is a larger weight. */
  lemma ShareMonotone(x: real, y: real, rest: real)
    requires 0.0 < x <= y && rest > 0.0
    ensures x / (x + rest) <= y / (y + rest)
  {
    var a, b := x / (x + rest), y / (y + rest);
    assert a * (x + rest) == x && b * (y + rest) == y;
    assert x * (y + rest) <= y * (x + rest);
    assert a * (x + rest) * (y + rest) <= b * (y + rest) * (x + rest);
  }

  /** The matching validations of a window keep every bound of the log. */
  lemma AboveMinusOneRecent(vs: seq<ValidationRecord>, cond: string, window: int)
    requires AboveMinusOne(vs)
    ensures AboveMinusOne(RecentForCondition(vs, cond, window))
  {
    var t := PyTail(vs, window);
    assert t == vs[|vs| - |t|..];
    assert forall j :: 0 <= j < |t| ==> EntryAboveMinusOne(t[j]) by {
      forall j | 0 <= j < |t|
        ensures EntryAboveMinusOne(t[j])
      {
        assert t[j] == vs[|vs| - |t| + j];
      }
    }
    var r := Matching(t, cond);
    forall i | 0 <= i < |r|
      ensures EntryAboveMinusOne(r[i])
    {
      assert r[i] in r;
      assert r[i] in t;
    }
  }

  /** Lowering m's errors keeps them above -1. */
  lemma AboveMinusOneLowered(vs: seq<ValidationRecord>, vs2: seq<ValidationRecord>, m: string)
    requires LowersErrorsOf(vs, vs2, m) && AboveMinusOne(vs)
    ensures AboveMinusOne(vs2)
  {
    forall i | 0 <= i < |vs2|
      ensures EntryAboveMinusOne(vs2[i])
    {
      assert LowersEntry(vs[i], vs2[i], m) && EntryAboveMinusOne(vs[i]);
      forall k | k in vs2[i].errors
        ensures vs2[i].errors[k].percentage > -1.0
      {
        if k != m {
          assert vs2[i].errors[k] == vs[i].errors[k];
        }
      }
    }
  }

  /** The bound -1 as WeightsInUnitInterval takes it. */
  lemma AboveMinusOneEach(vs: seq<ValidationRecord>)
    requires AboveMinusOne(vs)
    ensures forall i, k :: 0 <= i < |vs| && k in vs[i].errors ==> vs[i].errors[k].percentage > -1.0
  {
    forall i, k | 0 <= i < |vs| && k in vs[i].errors
      ensures vs[i].errors[k].percentage > -1.0
    {
      assert EntryAboveMinusOne(vs[i]);
    }
  }

  /** Monotonic scoring: when the log differs only in that model m's
      percentage errors are lower (and above -1), m's weight for any
      condition and window is at least what it was. */
  lemma WeightsMonotone(vs: seq<ValidationRecord>, vs2: seq<ValidationRecord>, cond: string, window: int, m: string)
    requires m == Linear || m == Polynomial || m == RandomForest
    requires LowersErrorsOf(vs, vs2, m) && AboveMinusOne(vs)
    ensures WeightsFor(vs, cond, window).Ok? && WeightsFor(vs2, cond, window).Ok?
    ensures m in WeightsFor(vs, cond, window).value && m in WeightsFor(vs2, cond, window).value
    ensures WeightsFor(vs, cond, window).value[m] <= WeightsFor(vs2, cond, window).value[m]
  {
    LowersTail(vs, vs2, m, window);
    LowersMatching(PyTail(vs, window), PyTail(vs2, window), m, cond);
    AboveMinusOneRecent(vs, cond, window);
    RecentWeightsMonotone(RecentForCondition(vs, cond, window), RecentForCondition(vs2, cond, window), m);
  }

  /** WeightsMonotone on the matching validations of the window. */
  lemma RecentWeightsMonotone(r: seq<ValidationRecord>, r2: seq<ValidationRecord>, m: string)
    requires m == Linear || m == Polynomial || m == RandomForest
    requires LowersErrorsOf(r, r2, m) && AboveMinusOne(r)
    ensures WeightsFromRecent(r).Ok? && WeightsFromRecent(r2).Ok?
    ensures m in WeightsFromRecent(r).value && m in WeightsFromRecent(r2).value
    ensures WeightsFromRecent(r).value[m] <= WeightsFromRecent(r2).value[m]
  {
    if |r| >= MinSamples {
      AboveMinusOneLowered(r, r2, m);
      ModelScoresLowered(r, r2, m);
    }
  }

  /** The score of m rises or stays; the other two stay. */
  lemma ModelScoreLowered(r: seq<ValidationRecord>, r2: seq<ValidationRecord>, m: string)
    requires LowersErrorsOf(r, r2, m)
    ensures ModelScore(r, m).Ok? && ModelScore(r2, m).Ok?
    ensures ModelScore(r, m).value <= ModelScore(r2, m).value
    ensures forall k :: k != m ==> ModelScore(r2, k) == ModelScore(r, k)
  {
    InverseScoresLowered(r, r2, m);
    var xs, ys := InverseScores(r, m).value, InverseScores(r2, m).value;
    if |xs| > 0 {
      DecayedMeanMonotone(xs, ys);
    }
    forall k | k != m
      ensures ModelScore(r2, k) == ModelScore(r, k)
    {
      InverseScoresOther(r, r2, m, k);
    }
  }

  /** With every percentage above -1 the three scores exist and are positive. */
  lemma ScoresPositive(r: seq<ValidationRecord>)
    requires AboveMinusOne(r)
    ensures ModelScores(r).Ok?
    ensures forall k :: k in ModelScores(r).value ==> ModelScores(r).value[k] > 0.0
  {
    AboveMinusOneEach(r);
    ModelScorePositive(r, Linear);
    ModelScorePositive(r, Polynomial);
    ModelScorePositive(r, RandomForest);
  }

  /** The sum of the scores of the two models other than m. */
  function RestOf(s: map<string, real>, m: string): real
    requires s.Keys == {Linear, Polynomial, RandomForest}
  {
    if m == Linear then s[Polynomial] + s[RandomForest]
    else if m == Polynomial then s[Linear] + s[RandomForest]
    else s[Linear] + s[Polynomial]
  }

  /** The score step of WeightsMonotone, on the matching validations. */
  lemma ModelScoresLowered(r: seq<ValidationRecord>, r2: seq<ValidationRecord>, m: string)
    requires m == Linear || m == Polynomial || m == RandomForest
    requires LowersErrorsOf(r, r2, m) && AboveMinusOne(r) && AboveMinusOne(r2)
    ensures ModelScores(r).Ok? && ModelScores(r2).Ok?
    ensures Normalise(ModelScores(r).value)[m] <= Normalise(ModelScores(r2).value)[m]
  {
    ScoresPositive(r);
    ScoresPositive(r2);
    ModelScoreLowered(r, r2, m);
    var s, s2 := ModelScores(r).value, ModelScores(r2).value;
    assert s[m] <= s2[m];
    assert RestOf(s2, m) == RestOf(s, m) by {
      if m == Linear {
        assert ModelScore(r2, Polynomial) == ModelScore(r, Polynomial);
        assert ModelScore(r2, RandomForest) == ModelScore(r, RandomForest);
      } else if m == Polynomial {
        assert ModelScore(r2, Linear) == ModelScore(r, Linear);
        assert ModelScore(r2, RandomForest) == ModelScore(r, RandomForest);
      } else {
        assert ModelScore(r2, Linear) == ModelScore(r, Linear);
        assert ModelScore(r2, Polynomial) == ModelScore(r, Polynomial);
      }
    }
    NormaliseMonotone(s, s2, m);
  }

  /** Normalisation rewards a higher score when the other two are unchanged. */
  lemma NormaliseMonotone(s: map<string, real>, s2: map<string, real>, m: string)
    requires s.Keys == {Linear, Polynomial, RandomForest} && s2.Keys == s.Keys && m in s
    requires forall k :: k in s ==> s[k] > 0.0
    requires s[m] <= s2[m] && RestOf(s2, m) == RestOf(s, m)
    ensures Normalise(s)[m] <= Normalise(s2)[m]
  {
    NormaliseShare(s, m);
    NormaliseShare(s2, m);
    ShareMonotone(s[m], s2[m], RestOf(s, m));
  }

  /** With positive scores, m's weight is its share against the other two. */
  lemma NormaliseShare(s: map<string, real>, m: string)
    requires s.Keys == {Linear, Polynomial, RandomForest} && m in s
    requires s[m] > 0.0 && RestOf(s, m) > 0.0
    ensures Normalise(s)[m] == s[m] / (s[m] + RestOf(s, m))
  {
    assert s[Linear] + s[Polynomial] + s[RandomForest] == s[m] + RestOf(s, m);
  }

  // ---------------------------------------------------------------------
  // The loops of `get_model_weights_for_condition`.

  /** The comprehension over `validations[-window:]`. */
  method CollectRecent(vs: seq<ValidationRecord>, cond: string, window: int) returns (recent: seq<ValidationRecord>)
    ensures recent == RecentForCondition(vs, cond, window)
  {
    var tail := PyTail(vs, window);
    recent := [];
    var i := 0;
    while i < |tail|
      invariant 0 <= i <= |tail|
      invariant recent == Matching(tail[..i], cond)
    {
      assert tail[..i + 1][..i] == tail[..i];
      if tail[i].marketCondition == cond {
        recent := recent + [tail[i]];
      }
      i := i + 1;
    }
    assert tail[..i] == tail;
  }

  /** The inner loop gathering `1 / (1 + error_pct)` for one model. */
  method CollectScores(recent: seq<ValidationRecord>, m: string) returns (r: Result<seq<real>>)
    ensures r == InverseScores(recent, m)
  {
    var scores: seq<real> := [];
    var i := 0;
    while i < |recent|
      invariant 0 <= i <= |recent|
      invariant InverseScores(recent[..i], m) == Ok(scores)
    {
      assert recent[..i + 1][..i] == recent[..i];
      var v := recent[i];
      if m in v.errors {
        var pct := v.errors[m].percentage;
        if 1.0 + pct == 0.0 {
          InverseScoresErrSticks(recent, m, i + 1);
          return Err(ZeroDivisionError);
        }
        scores := scores + [1.0 / (1.0 + pct)];
      }
      i := i + 1;
    }
    assert recent[..i] == recent;
    return Ok(scores);
  }

  /** The decay loop over `reversed(errors)`. */
  method DecayedScore(scores: seq<real>) returns (score: real)
    ensures score == DecayedMean(scores)
  {
    var rev := Reverse(scores);
    var weightedScore := 0.0;
    var totalWeight := 0.0;
    var i := 0;
    while i < |rev|
      invariant 0 <= i <= |rev|
      invariant weightedScore == WeightedSum(rev[..i])
      invariant totalWeight == TotalWeight(i)
    {
      assert rev[..i + 1][..i] == rev[..i];
      var weight := Pow(DecayFactor, i);
      weightedScore := weightedScore + rev[i] * weight;
      totalWeight := totalWeight + weight;
      i := i + 1;
    }
    assert rev[..i] == rev;
    score := if totalWeight > 0.0 then weightedScore / totalWeight else 0.0;
  }

  /** The loop over the three model names filling `model_scores`. */
  method ScoreModels(recent: seq<ValidationRecord>) returns (r: Result<map<string, real>>)
    ensures r == ModelScores(recent)
  {
    var modelScores: map<string, real> := map[];
    var n := 0;
    while n < |ModelNames|
      invariant 0 <= n <= |ModelNames|
      invariant forall k :: k in modelScores ==> k in ModelNames[..n]
      invariant forall j :: 0 <= j < n ==> ModelNames[j] in modelScores && ModelScore(recent, ModelNames[j]) == Ok(modelScores[ModelNames[j]])
    {
      var name := ModelNames[n];
      var collected := CollectScores(recent, name);
      if collected.Err? {
        return Err(collected.error);
      }
      var s;
      if |collected.value| > 0 {
        s := DecayedScore(collected.value);
      } else {
        s := 1.0 / 3.0;
      }
      modelScores := modelScores[name := s];
      n := n + 1;
    }
    assert ModelNames[..n] == [Linear, Polynomial, RandomForest];
    assert ModelNames[0] == Linear && ModelNames[1] == Polynomial && ModelNames[2] == RandomForest;
    assert modelScores.Keys == {Linear, Polynomial, RandomForest};
    var expected := ModelScores(recent);
    assert expected.Ok?;
    assert forall k :: k in modelScores ==> modelScores[k] == expected.value[k];
    assert modelScores == expected.value;
    return Ok(modelScores);
  }

  /** The whole computation, with its loops, against its definition. */
  method ComputeWeights(vs: seq<ValidationRecord>, cond: string, window: int) returns (r: Result<map<string, real>>)
    ensures r == WeightsFor(vs, cond, window)
  {
    var recent := CollectRecent(vs, cond, window);
    if |recent| < MinSamples {
      return Ok(Uniform);
    }
    var scored := ScoreModels(recent);
    if scored.Err? {
      return Err(scored.error);
    }
    r := Ok(Normalise(scored.value));
  }
}
