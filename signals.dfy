/** The rules of `TradingSignals`: the market trend from five bullish
    conditions, support and resistance from clustered local extremes, the
    buy/sell/short scores, the chosen signal, and its entry, stop-loss and
    target.

    The indicator columns of the latest candle, the price-action verdict of
    `_check_price_trend` and the local highs and lows (found with centred
    rolling windows) are inputs; computing them is not part of this model. */
module Signals {
  import opened Basics
  import opened SeqMath

  /** The indicator values of the latest candle. `sma200` is absent while
      fewer than 200 candles exist. */
  datatype Latest = Latest(
    close: real,
    sma20: real,
    sma50: real,
    sma200: Option<real>,
    rsi: real,
    macd: real,
    macdSignal: real,
    macdHistogram: real,
    bbPosition: real,
    atr: real,
    volumeRatio: real)

  datatype Leaning = Bullish | Bearish | Neutral | InsufficientData

  datatype MarketTrend = BullMarket | BullishTrend | NeutralTrend | BearishTrend | BearMarket

  datatype Confidence = High | Medium | Low

  datatype TrendInfo = TrendInfo(
    trend: MarketTrend,
    confidence: Confidence,
    maAlignment: Leaning,
    priceAction: Leaning,
    momentum: Leaning,
    rsi: real,
    macdSignal: Leaning)

  function Count(b: bool): nat
  {
    if b then 1 else 0
  }

  // ---------------------------------------------------------------------
  // detect_trend

  /** `_check_ma_trend`: golden cross with price above the 50-period average
      is bullish, the death cross with price below it bearish. */
  function MaTrend(l: Latest): Leaning
  {
    if l.sma200.None? then InsufficientData
    else if l.sma50 > l.sma200.value && l.close > l.sma50 then Bullish
    else if l.sma50 < l.sma200.value && l.close < l.sma50 then Bearish
    else Neutral
  }

  function MomentumCount(l: Latest): nat
  {
    Count(l.rsi > 50.0) + Count(l.macdHistogram > 0.0) + Count(l.close > l.sma20)
  }

  /** `_check_momentum`: two or three of RSI above 50, a positive MACD
      histogram and price above the 20-period average is bullish, one is
      neutral, none is bearish. */
  function Momentum(l: Latest): Leaning
  {
    var n := MomentumCount(l);
    if n >= 2 then Bullish else if n == 1 then Neutral else Bearish
  }

  function BullishCount(l: Latest, priceAction: Leaning): (n: nat)
    ensures n <= 5
  {
    Count(MaTrend(l) == Bullish) + Count(priceAction == Bullish) + Count(Momentum(l) == Bullish)
      + Count(l.rsi > 50.0) + Count(l.macd > l.macdSignal)
  }

  function TrendOfCount(n: nat): (MarketTrend, Confidence)
  {
    if n >= 4 then (BullMarket, High)
    else if n >= 3 then (BullishTrend, Medium)
    else if n == 2 then (NeutralTrend, Low)
    else if n == 1 then (BearishTrend, Medium)
    else (BearMarket, High)
  }

  /** `detect_trend('current')`. */
  function DetectTrend(l: Latest, priceAction: Leaning): TrendInfo
  {
    var (trend, confidence) := TrendOfCount(BullishCount(l, priceAction));
    TrendInfo(trend, confidence, MaTrend(l), priceAction, Momentum(l), l.rsi,
      if l.macd > l.macdSignal then Bullish else Bearish)
  }

  function TrendRank(t: MarketTrend): int
  {
    match t
    case BearMarket => 0
    case BearishTrend => 1
    case NeutralTrend => 2
    case BullishTrend => 3
    case BullMarket => 4
  }

  /** More bullish conditions never give a more bearish trend; confidence is
      high exactly at the two ends of the scale. */
  lemma TrendOfCountMonotone(n: nat, m: nat)
    requires n <= m
    ensures TrendRank(TrendOfCount(n).0) <= TrendRank(TrendOfCount(m).0)
    ensures TrendOfCount(n).1 == High <==> TrendOfCount(n).0 == BullMarket || TrendOfCount(n).0 == BearMarket
  {
  }

  /** RSI above 50 is counted twice, directly and inside momentum: bearish
      momentum rules RSI out, so at most three conditions hold and the trend
      cannot be a bull market. */
  lemma BearishMomentumCapsTrend(l: Latest, priceAction: Leaning)
    requires Momentum(l) == Bearish
    ensures BullishCount(l, priceAction) <= 3
    ensures DetectTrend(l, priceAction).trend != BullMarket
  {
  }

  /** Before 200 candles exist and without a price-action verdict, only the
      momentum, RSI and MACD conditions can hold: at most a bullish trend. */
  lemma ShortHistoryCapsTrend(l: Latest, priceAction: Leaning)
    requires l.sma200.None? && priceAction != Bullish
    ensures MaTrend(l) == InsufficientData
    ensures DetectTrend(l, priceAction).trend != BullMarket
  {
  }

  /** A bull market needs at least two of the moving-average, price-action
      and momentum verdicts to be bullish. */
  lemma BullMarketNeedsTwoVerdicts(l: Latest, priceAction: Leaning)
    requires DetectTrend(l, priceAction).trend == BullMarket
    ensures Count(MaTrend(l) == Bullish) + Count(priceAction == Bullish) + Count(Momentum(l) == Bullish) >= 2
  {
  }

  // ---------------------------------------------------------------------
  // _cluster_levels and find_support_resistance

  const ClusterThreshold := 0.01

  /** A level joins the cluster in progress when it lies within 1% of the
      cluster's mean (an IEEE quotient: a zero mean never admits a level). */
  predicate Joins(level: real, cluster: seq<real>)
    requires |cluster| > 0
  {
    QuotientBelow(Abs(level - Mean(cluster)), Mean(cluster), ClusterThreshold)
  }

  /** The greedy clustering of the sorted levels `s`, with `s[start..j]` the
      cluster in progress: the next level joins it or closes it, and the
      last cluster is closed at the end. */
  function ClustersFrom(s: seq<real>, start: nat, j: nat): seq<real>
    requires start < j <= |s|
    decreases |s| - j
  {
    if j == |s| then [Mean(s[start..j])]
    else if Joins(s[j], s[start..j]) then ClustersFrom(s, start, j + 1)
    else [Mean(s[start..j])] + ClustersFrom(s, j, j + 1)
  }

  /** `_cluster_levels(levels)`: the means of the greedy clusters of the
      sorted levels; no levels give no clusters. */
  function Clusters(levels: seq<real>): seq<real>
  {
    if |levels| == 0 then []
    else
      SortProps(levels);
      ClustersFrom(Sort(levels), 0, 1)
  }

  /** `_cluster_levels`: walks the sorted levels, adding each to the current
      cluster while it is within 1% of the cluster's mean, and otherwise
      closing the cluster (keeping its mean) and starting a new one. */
  method ClusterLevels(levels: seq<real>) returns (clusters: seq<real>)
    ensures clusters == Clusters(levels)
    ensures |levels| == 0 ==> clusters == []
    ensures |levels| > 0 ==> 1 <= |clusters| <= |levels|
    ensures |levels| > 0 ==> forall i :: 0 <= i < |clusters| ==> MinOf(levels) <= clusters[i] <= MaxOf(levels)
    ensures SortedAsc(clusters)
  {
    if |levels| == 0 {
      return [];
    }
    var sorted := Sort(levels);
    SortProps(levels);
    SortEnds(levels);
    clusters := ClusterSorted(sorted);
  }

  /** The loop of `_cluster_levels` over the already sorted levels. */
  method ClusterSorted(sorted: seq<real>) returns (clusters: seq<real>)
    requires |sorted| > 0 && SortedAsc(sorted)
    ensures clusters == ClustersFrom(sorted, 0, 1)
    ensures 1 <= |clusters| <= |sorted|
    ensures forall i :: 0 <= i < |clusters| ==> sorted[0] <= clusters[i] <= sorted[|sorted| - 1]
    ensures SortedAsc(clusters)
  {
    clusters := [];
    var current := [sorted[0]];
    ghost var start := 0;
    var j := 1;
    while j < |sorted|
      invariant 1 <= j <= |sorted|
      invariant 0 <= start < j
      invariant current == sorted[start..j]
      invariant clusters + ClustersFrom(sorted, start, j) == ClustersFrom(sorted, 0, 1)
      invariant |clusters| <= start
      invariant SortedAsc(clusters)
      invariant forall i :: 0 <= i < |clusters| ==> sorted[0] <= clusters[i] <= sorted[start]
    {
      var level := sorted[j];
      var mean := Mean(current);
      if QuotientBelow(Abs(level - mean), mean, ClusterThreshold) {
        SliceGrows(sorted, start, j);
        current := current + [level];
      } else {
        AppendAssoc(clusters, [mean], ClustersFrom(sorted, j, j + 1));
        CloseCluster(sorted, clusters, start, j, j);
        clusters := clusters + [mean];
        current := [level];
        start := j;
        SliceGrows(sorted, start, j);
      }
      j := j + 1;
    }
    CloseCluster(sorted, clusters, start, j, j - 1);
    clusters := clusters + [Mean(current)];
  }

  /** Levels that all lie within 1% of the lowest bound of their band form a
      single cluster, inside the band. */
  lemma ClustersOfNarrowBand(levels: seq<real>, lo: real, hi: real)
    requires |levels| > 0
    requires forall i :: 0 <= i < |levels| ==> lo <= levels[i] <= hi
    requires 0.0 < lo && hi - lo < ClusterThreshold * lo
    ensures |Clusters(levels)| == 1
    ensures lo <= Clusters(levels)[0] <= hi
  {
    SortProps(levels);
    SortBounds(levels, lo, hi);
    NarrowBandFrom(Sort(levels), 1, lo, hi);
    MeanBounds(Sort(levels), lo, hi);
  }

  lemma {:induction false} NarrowBandFrom(s: seq<real>, j: nat, lo: real, hi: real)
    requires 0 < j <= |s|
    requires forall i :: 0 <= i < |s| ==> lo <= s[i] <= hi
    requires 0.0 < lo && hi - lo < ClusterThreshold * lo
    ensures ClustersFrom(s, 0, j) == [Mean(s)]
    decreases |s| - j
  {
    MeanBounds(s[0..j], lo, hi);
    if j < |s| {
      var m := Mean(s[0..j]);
      QuotientBelowPositive(Abs(s[j] - m), m, ClusterThreshold);
      assert Joins(s[j], s[0..j]);
      NarrowBandFrom(s, j + 1, lo, hi);
    } else {
      assert s[0..j] == s;
    }
  }

  /** Positive levels, each at least 1% above the one before. */
  predicate Spread(s: seq<real>)
  {
    (forall i :: 0 <= i < |s| ==> s[i] > 0.0)
    && forall i :: 0 < i < |s| ==> s[i] >= (1.0 + ClusterThreshold) * s[i - 1]
  }

  /** Levels spread at least 1% apart stay apart: every level is a cluster
      of its own. */
  lemma ClustersOfSpreadLevels(levels: seq<real>)
    requires Spread(levels)
    ensures Clusters(levels) == levels
  {
    if |levels| > 0 {
      SpreadSorted(levels);
      SortOfSorted(levels);
      SpreadFrom(levels, 1);
    }
  }

  lemma {:induction false} SpreadSorted(s: seq<real>)
    requires Spread(s)
    ensures SortedAsc(s)
    decreases |s|
  {
    if |s| > 1 {
      var n := |s| - 1;
      assert Spread(s[..n]) by {
        assert forall i :: 0 <= i < n ==> s[i] == s[..n][i];
      }
      SpreadSorted(s[..n]);
      assert s[n] >= (1.0 + ClusterThreshold) * s[n - 1] && s[n - 1] > 0.0;
      assert forall i :: 0 <= i < n ==> s[i] == s[..n][i];
    }
  }

  /** A single level does not admit one at least 1% above it. */
  lemma ApartFromSingle(x: real, y: real)
    requires x > 0.0 && y >= (1.0 + ClusterThreshold) * x
    ensures Mean([x]) == x
    ensures !Joins(y, [x])
  {
    assert Sum([x]) == x by {
      assert [x][..0] == [];
    }
    QuotientBelowPositive(Abs(y - x), x, ClusterThreshold);
  }

  lemma {:induction false} SpreadFrom(s: seq<real>, j: nat)
    requires 0 < j <= |s| && Spread(s)
    ensures ClustersFrom(s, j - 1, j) == s[j - 1..]
    decreases |s| - j
  {
    var x := s[j - 1];
    assert s[j - 1..j] == [x];
    if j < |s| {
      assert x > 0.0 && s[j] >= (1.0 + ClusterThreshold) * x;
      ApartFromSingle(x, s[j]);
      SpreadFrom(s, j + 1);
      assert s[j - 1..] == [x] + s[j..];
    } else {
      assert x > 0.0;
      ApartFromSingle(x, 2.0 * x);
    }
  }

  /** Closing the cluster `s[start..j]` keeps the cluster means ascending
      and bounded by the first level and any level from the cluster's last
      on. */
  lemma CloseCluster(s: seq<real>, clusters: seq<real>, start: nat, j: nat, k: nat)
    requires SortedAsc(s) && start < j <= |s| && j - 1 <= k < |s|
    requires SortedAsc(clusters)
    requires forall i :: 0 <= i < |clusters| ==> s[0] <= clusters[i] <= s[start]
    ensures SortedAsc(clusters + [Mean(s[start..j])])
    ensures forall i :: 0 <= i < |clusters| + 1 ==> s[0] <= (clusters + [Mean(s[start..j])])[i] <= s[k]
  {
    RunMeanBounds(s, start, j);
  }

  /** The mean of a run of a sorted sequence lies between the run's ends. */
  lemma RunMeanBounds(s: seq<real>, lo: nat, hi: nat)
    requires lo < hi <= |s| && SortedAsc(s)
    ensures s[lo] <= Mean(s[lo..hi]) <= s[hi - 1]
  {
    MeanBounds(s[lo..hi], s[lo], s[hi - 1]);
  }

  /** `values[values > p]`, in order. */
  function Above(s: seq<real>, p: real): (r: seq<real>)
    ensures forall i :: 0 <= i < |r| ==> r[i] > p
    ensures |r| == 0 <==> forall i :: 0 <= i < |s| ==> s[i] <= p
  {
    if s == [] then []
    else Above(s[..|s| - 1], p) + (if s[|s| - 1] > p then [s[|s| - 1]] else [])
  }

  /** `values[values < p]`, in order. */
  function Below(s: seq<real>, p: real): (r: seq<real>)
    ensures forall i :: 0 <= i < |r| ==> r[i] < p
    ensures |r| == 0 <==> forall i :: 0 <= i < |s| ==> s[i] >= p
  {
    if s == [] then []
    else Below(s[..|s| - 1], p) + (if s[|s| - 1] < p then [s[|s| - 1]] else [])
  }

  datatype Levels = Levels(
    currentPrice: real,
    resistance: seq<real>,
    support: seq<real>,
    nearestResistance: Option<real>,
    nearestSupport: Option<real>)

  /** What `find_support_resistance` returns: the clusters of the local
      highs above the price and of the local lows below it, the three
      nearest of each, and the nearest one on each side. */
  function SupportResistance(localHighs: seq<real>, localLows: seq<real>, currentPrice: real): Levels
  {
    var resistanceLevels := Clusters(Above(localHighs, currentPrice));
    var supportLevels := Clusters(Below(localLows, currentPrice));
    Levels(currentPrice, Take(Sort(resistanceLevels), 3), Take(SortDesc(supportLevels), 3),
      if |resistanceLevels| > 0 then Some(MinOf(resistanceLevels)) else None,
      if |supportLevels| > 0 then Some(MaxOf(supportLevels)) else None)
  }

  /** `find_support_resistance` over the local highs and lows of the
      lookback window. */
  method FindSupportResistance(localHighs: seq<real>, localLows: seq<real>, currentPrice: real) returns (r: Levels)
    ensures r == SupportResistance(localHighs, localLows, currentPrice)
    ensures r.currentPrice == currentPrice
    ensures |r.resistance| <= 3 && |r.support| <= 3
    ensures SortedAsc(r.resistance) && SortedDesc(r.support)
    ensures forall i :: 0 <= i < |r.resistance| ==> r.resistance[i] > currentPrice
    ensures forall i :: 0 <= i < |r.support| ==> r.support[i] < currentPrice
    ensures r.nearestResistance.Some? <==> exists i :: 0 <= i < |localHighs| && localHighs[i] > currentPrice
    ensures r.nearestSupport.Some? <==> exists i :: 0 <= i < |localLows| && localLows[i] < currentPrice
    ensures r.nearestResistance.Some? ==> r.resistance != [] && r.nearestResistance.value == r.resistance[0]
    ensures r.nearestSupport.Some? ==> r.support != [] && r.nearestSupport.value == r.support[0]
    ensures r.nearestResistance.None? ==> r.resistance == []
    ensures r.nearestSupport.None? ==> r.support == []
  {
    var above := Above(localHighs, currentPrice);
    var below := Below(localLows, currentPrice);
    var resistanceLevels := ClusterLevels(above);
    var supportLevels := ClusterLevels(below);
    var resistance := Take(Sort(resistanceLevels), 3);
    var support := Take(SortDesc(supportLevels), 3);
    ClusterSelection(above, resistanceLevels, currentPrice);
    ClusterSelectionDesc(below, supportLevels, currentPrice);
    var nearestResistance := if |resistanceLevels| > 0 then Some(MinOf(resistanceLevels)) else None;
    var nearestSupport := if |supportLevels| > 0 then Some(MaxOf(supportLevels)) else None;
    r := Levels(currentPrice, resistance, support, nearestResistance, nearestSupport);
  }

  /** The three lowest clusters of levels above the price: ascending, above
      the price, the first being the lowest cluster. */
  lemma ClusterSelection(levels: seq<real>, clusters: seq<real>, p: real)
    requires forall i :: 0 <= i < |levels| ==> levels[i] > p
    requires |levels| == 0 ==> clusters == []
    requires |levels| > 0 ==> 1 <= |clusters| && forall i :: 0 <= i < |clusters| ==> MinOf(levels) <= clusters[i]
    ensures var t := Take(Sort(clusters), 3);
      && SortedAsc(t)
      && (forall i :: 0 <= i < |t| ==> t[i] > p)
      && (|clusters| > 0 <==> t != [])
      && (|clusters| > 0 ==> t[0] == MinOf(clusters))
  {
    SortProps(clusters);
    if |clusters| > 0 {
      SortBounds(clusters, MinOf(levels), MaxOf(clusters));
      SortEnds(clusters);
    }
  }

  /** The three highest clusters of levels below the price: descending,
      below the price, the first being the highest cluster. */
  lemma ClusterSelectionDesc(levels: seq<real>, clusters: seq<real>, p: real)
    requires forall i :: 0 <= i < |levels| ==> levels[i] < p
    requires |levels| == 0 ==> clusters == []
    requires |levels| > 0 ==> 1 <= |clusters| && forall i :: 0 <= i < |clusters| ==> clusters[i] <= MaxOf(levels)
    ensures var t := Take(SortDesc(clusters), 3);
      && SortedDesc(t)
      && (forall i :: 0 <= i < |t| ==> t[i] < p)
      && (|clusters| > 0 <==> t != [])
      && (|clusters| > 0 ==> t[0] == MaxOf(clusters))
  {
    if |clusters| > 0 {
      SortDescProps(clusters, MinOf(clusters), MaxOf(levels));
    }
  }

  // ---------------------------------------------------------------------
  // generate_entry_signals: scoring

  datatype Scores = Scores(buy: nat, sell: nat, short: nat)

  const NoPoints := Scores(0, 0, 0)

  /** What the scoring reads: the trend verdict, the latest candle and the
      nearest support and resistance. */
  datatype SignalContext = SignalContext(
    trend: MarketTrend,
    latest: Latest,
    nearestSupport: Option<real>,
    nearestResistance: Option<real>)

  predicate IsBullishTrend(t: MarketTrend) { t == BullMarket || t == BullishTrend }
  predicate IsBearishTrend(t: MarketTrend) { t == BearMarket || t == BearishTrend }

  /** Python truthiness of an optional price: absent or 0.0 is false. */
  predicate Truthy(x: Option<real>)
  {
    x.Some? && x.value != 0.0
  }

  const ProximityThreshold := 0.01

  // The points each rule awards, one rule at a time.

  function TrendPoints(c: SignalContext): (r: Scores)
    ensures r.buy <= 3 && r.sell == 0 && r.short <= 3
    ensures IsBullishTrend(c.trend) ==> r.short == 0
    ensures IsBearishTrend(c.trend) ==> r.buy == 0
  {
    if IsBullishTrend(c.trend) then Scores(3, 0, 0)
    else if IsBearishTrend(c.trend) then Scores(0, 0, 3)
    else NoPoints
  }

  function RsiPoints(c: SignalContext): (r: Scores)
    ensures r.buy <= 2 && r.sell <= 2 && r.short <= 2
    ensures !IsBearishTrend(c.trend) ==> r.short == 0
  {
    if c.latest.rsi < 30.0 then Scores(2, 0, 0)
    else if c.latest.rsi > 70.0 && IsBearishTrend(c.trend) then Scores(0, 2, 2)
    else if c.latest.rsi > 70.0 then Scores(0, 2, 0)
    else NoPoints
  }

  function MacdPoints(c: SignalContext): (r: Scores)
    ensures r.buy <= 2 && r.sell <= 2 && r.short <= 1
  {
    var l := c.latest;
    if l.macd > l.macdSignal && l.macdHistogram > 0.0 then Scores(2, 0, 0)
    else if l.macd < l.macdSignal && l.macdHistogram < 0.0 then Scores(0, 2, 1)
    else NoPoints
  }

  function BandPoints(c: SignalContext): (r: Scores)
    ensures r.buy <= 2 && r.sell <= 2 && r.short <= 1
  {
    if c.latest.bbPosition < 0.2 then Scores(2, 0, 0)
    else if c.latest.bbPosition > 0.8 then Scores(0, 2, 1)
    else NoPoints
  }

  /** Within 1% above a (truthy) support. */
  function SupportPoints(c: SignalContext): (r: Scores)
    ensures r.buy <= 2 && r.sell == 0 && r.short == 0
  {
    if Truthy(c.nearestSupport)
      && QuotientBelow(c.latest.close - c.nearestSupport.value, c.latest.close, ProximityThreshold)
    then Scores(2, 0, 0)
    else NoPoints
  }

  /** Within 1% below a (truthy) resistance. */
  function ResistancePoints(c: SignalContext): (r: Scores)
    ensures r.buy == 0 && r.sell <= 2 && r.short <= 1
  {
    if Truthy(c.nearestResistance)
      && QuotientBelow(c.nearestResistance.value - c.latest.close, c.latest.close, ProximityThreshold)
    then Scores(0, 2, 1)
    else NoPoints
  }

  /** The scores before the volume rule: the sum of every rule's points. */
  function RulePoints(c: SignalContext): Scores
  {
    var t, r, m, b := TrendPoints(c), RsiPoints(c), MacdPoints(c), BandPoints(c);
    var su, re := SupportPoints(c), ResistancePoints(c);
    Scores(t.buy + r.buy + m.buy + b.buy + su.buy + re.buy,
      t.sell + r.sell + m.sell + b.sell + su.sell + re.sell,
      t.short + r.short + m.short + b.short + su.short + re.short)
  }

  /** The volume rule as written: on high volume, one point to buy when it
      leads strictly, else to sell when it beats buy, else to short when it
      beats buy. */
  function VolumeBonus(s: Scores): Scores
  {
    if s.buy > s.sell && s.buy > s.short then s.(buy := s.buy + 1)
    else if s.sell > s.buy then s.(sell := s.sell + 1)
    else if s.short > s.buy then s.(short := s.short + 1)
    else s
  }

  const HighVolume := 1.5

  function WithVolume(s: Scores, volumeRatio: real): Scores
  {
    if volumeRatio > HighVolume then VolumeBonus(s) else s
  }

  /** The scoring block of `generate_entry_signals`, accumulating the three
      scores rule by rule. */
  method ScoreSignals(c: SignalContext) returns (s: Scores)
    ensures s == WithVolume(RulePoints(c), c.latest.volumeRatio)
  {
    var l := c.latest;
    var buy, sell, short: nat := 0, 0, 0;
    // After each rule the scores have grown by exactly that rule's points.
    if IsBullishTrend(c.trend) {
      buy := buy + 3;
    } else if IsBearishTrend(c.trend) {
      short := short + 3;
    }
    ghost var t := TrendPoints(c);
    assert buy == t.buy && sell == t.sell && short == t.short;
    ghost var b0, s0, h0 := buy, sell, short;
    if l.rsi < 30.0 {
      buy := buy + 2;
    } else if l.rsi > 70.0 {
      sell := sell + 2;
      if IsBearishTrend(c.trend) {
        short := short + 2;
      }
    }
    ghost var r := RsiPoints(c);
    assert buy == b0 + r.buy && sell == s0 + r.sell && short == h0 + r.short;
    b0, s0, h0 := buy, sell, short;
    if l.macd > l.macdSignal && l.macdHistogram > 0.0 {
      buy := buy + 2;
    } else if l.macd < l.macdSignal && l.macdHistogram < 0.0 {
      sell := sell + 2;
      short := short + 1;
    }
    ghost var m := MacdPoints(c);
    assert buy == b0 + m.buy && sell == s0 + m.sell && short == h0 + m.short;
    b0, s0, h0 := buy, sell, short;
    if l.bbPosition < 0.2 {
      buy := buy + 2;
    } else if l.bbPosition > 0.8 {
      sell := sell + 2;
      short := short + 1;
    }
    ghost var b := BandPoints(c);
    assert buy == b0 + b.buy && sell == s0 + b.sell && short == h0 + b.short;
    b0, s0, h0 := buy, sell, short;
    if Truthy(c.nearestSupport) {
      if QuotientBelow(l.close - c.nearestSupport.value, l.close, ProximityThreshold) {
        buy := buy + 2;
      }
    }
    ghost var su := SupportPoints(c);
    assert buy == b0 + su.buy && sell == s0 && short == h0;
    b0, s0, h0 := buy, sell, short;
    if Truthy(c.nearestResistance) {
      if QuotientBelow(c.nearestResistance.value - l.close, l.close, ProximityThreshold) {
        sell := sell + 2;
        short := short + 1;
      }
    }
    ghost var re := ResistancePoints(c);
    assert buy == b0 && sell == s0 + re.sell && short == h0 + re.short;
    ghost var total := RulePoints(c);
    assert total.buy == t.buy + r.buy + m.buy + b.buy + su.buy + re.buy;
    assert total.sell == t.sell + r.sell + m.sell + b.sell + su.sell + re.sell;
    assert total.short == t.short + r.short + m.short + b.short + su.short + re.short;
    assert Scores(buy, sell, short) == total;
    s := AddVolumePoint(Scores(buy, sell, short), l.volumeRatio);
  }

  /** The volume rule of `generate_entry_signals`, applied to the rule
      scores. */
  method AddVolumePoint(rules: Scores, volumeRatio: real) returns (s: Scores)
    ensures s == WithVolume(rules, volumeRatio)
  {
    var buy, sell, short := rules.buy, rules.sell, rules.short;
    if volumeRatio > HighVolume {
      if buy > sell && buy > short {
        buy := buy + 1;
      } else if sell > buy {
        sell := sell + 1;
      } else if short > buy {
        short := short + 1;
      }
    }
    s := Scores(buy, sell, short);
  }

  /** Without the volume rule the scores stay within what the rules can
      award: buy at most 11, sell at most 8, short at most 8; a bullish
      trend never scores for short and a bearish one never for buy. */
  lemma RulePointsBounds(c: SignalContext)
    ensures var s := RulePoints(c); s.buy <= 11 && s.sell <= 8 && s.short <= 8
    ensures IsBullishTrend(c.trend) ==> RulePoints(c).short <= 3
    ensures IsBearishTrend(c.trend) ==> RulePoints(c).buy <= 8
  {
    var t, r, m, b, su, re := TrendPoints(c), RsiPoints(c), MacdPoints(c), BandPoints(c), SupportPoints(c), ResistancePoints(c);
    assert RulePoints(c) == Scores(t.buy + r.buy + m.buy + b.buy + su.buy + re.buy,
      t.sell + r.sell + m.sell + b.sell + su.sell + re.sell, t.short + r.short + m.short + b.short + su.short + re.short);
  }

  /** The volume rule adds one point to at most one score. */
  lemma VolumeAddsAtMostOne(s: Scores, volumeRatio: real)
    ensures var t := WithVolume(s, volumeRatio);
      && t.buy >= s.buy && t.sell >= s.sell && t.short >= s.short
      && t.buy + t.sell + t.short <= s.buy + s.sell + s.short + 1
      && (volumeRatio <= HighVolume ==> t == s)
  {
  }

  // ---------------------------------------------------------------------
  // The chosen signal

  datatype Signal = Buy | Sell | Short | Wait

  datatype Choice = Choice(signal: Signal, confidence: Confidence)

  const MinSignalScore: nat := 5
  const HighConfidenceScore: nat := 7

  function Max3(a: nat, b: nat, c: nat): (m: nat)
    ensures m >= a && m >= b && m >= c
    ensures m == a || m == b || m == c
  {
    if a >= b && a >= c then a else if b >= c then b else c
  }

  /** A score below 5 everywhere means WAIT; otherwise the highest score
      wins, ties going to buy, then sell, then short. */
  function ChooseSignal(s: Scores): Choice
  {
    var best := Max3(s.buy, s.sell, s.short);
    if best < MinSignalScore then Choice(Wait, Low)
    else if s.buy == best then Choice(Buy, if s.buy >= HighConfidenceScore then High else Medium)
    else if s.sell == best then Choice(Sell, if s.sell >= HighConfidenceScore then High else Medium)
    else Choice(Short, if s.short >= HighConfidenceScore then High else Medium)
  }

  function ScoreOf(s: Scores, signal: Signal): nat
  {
    match signal
    case Buy => s.buy
    case Sell => s.sell
    case Short => s.short
    case Wait => 0
  }

  /** The chosen signal has the top score, at least 5; it beats every
      signal listed before it and ties at most with those after it;
      confidence is high exactly when that score reaches 7. */
  lemma ChooseSignalMeaning(s: Scores)
    ensures var c := ChooseSignal(s);
      && (c.signal == Wait <==> Max3(s.buy, s.sell, s.short) < MinSignalScore)
      && (c.signal == Wait ==> c.confidence == Low)
      && (c.signal != Wait ==>
            ScoreOf(s, c.signal) == Max3(s.buy, s.sell, s.short)
            && (c.confidence == High <==> ScoreOf(s, c.signal) >= HighConfidenceScore)
            && c.confidence != Low)
      && (c.signal == Sell ==> s.buy < s.sell)
      && (c.signal == Short ==> s.buy < s.short && s.sell < s.short)
  {
  }

  /** The latest candle of the volume witness: close 100 under both averages,
      RSI 45, a bearish MACD, band position 0.4 (below the middle band, which
      is the 20-period average), volume twice its average. */
  const VolumeWitnessCandle := Latest(100.0, 101.0, 102.0, None, 45.0, -1.0, 0.0, -1.0, 0.4, 1.0, 2.0)

  /** High volume can turn a short entry into a sell. With the candle above,
      a bearish price action and one local high at 100.5 (no local lows),
      detect_trend finds a bear market and the only resistance is 100.5,
      half a percent above the close. The rules score buy 0, sell 4 and
      short 5, a medium short; the volume point goes to sell, which then
      ties short and wins the tie. */
  lemma VolumeTurnsShortIntoSell()
    ensures var l := VolumeWitnessCandle;
      var levels := SupportResistance([100.5], [], l.close);
      var c := SignalContext(DetectTrend(l, Bearish).trend, l, levels.nearestSupport, levels.nearestResistance);
      && c.trend == BearMarket
      && levels.nearestSupport == None && levels.nearestResistance == Some(100.5)
      && RulePoints(c) == Scores(0, 4, 5)
      && ChooseSignal(RulePoints(c)) == Choice(Short, Medium)
      && WithVolume(RulePoints(c), l.volumeRatio) == Scores(0, 5, 5)
      && ChooseSignal(WithVolume(RulePoints(c), l.volumeRatio)) == Choice(Sell, Medium)
  {
    var l := VolumeWitnessCandle;
    assert MomentumCount(l) == 0 && BullishCount(l, Bearish) == 0;
    var above := Above([100.5], l.close);
    assert above == [100.5] by {
      assert [100.5][..0] == [];
    }
    assert Below([], l.close) == [];
    assert Sort(above) == [100.5];
    assert Sum([100.5]) == 100.5 by {
      assert [100.5][..0] == [];
    }
    assert Clusters(above) == [100.5] by {
      assert Sort(above)[0..1] == [100.5];
    }
    var levels := SupportResistance([100.5], [], l.close);
    assert levels.nearestResistance == Some(100.5);
    var c := SignalContext(BearMarket, l, None, Some(100.5));
    assert TrendPoints(c) == Scores(0, 0, 3);
    assert RsiPoints(c) == NoPoints;
    assert MacdPoints(c) == Scores(0, 2, 1);
    assert BandPoints(c) == NoPoints;
    assert SupportPoints(c) == NoPoints;
    assert ResistancePoints(c) == Scores(0, 2, 1);
  }

  /** The volume rule as its comment describes it: the point goes to the
      strictly strongest score, and to none on a tie. */
  function LeaderBonus(s: Scores): Scores
  {
    if s.buy > s.sell && s.buy > s.short then s.(buy := s.buy + 1)
    else if s.sell > s.buy && s.sell > s.short then s.(sell := s.sell + 1)
    else if s.short > s.buy && s.short > s.sell then s.(short := s.short + 1)
    else s
  }

  /** Amplifying the leader never changes the direction of the signal: it
      either stays the same or a WAIT becomes the leader's signal. The rule
      as written agrees with it except when sell beats buy and short is at
      least sell. */
  lemma LeaderBonusKeepsDirection(s: Scores)
    ensures var before, after := ChooseSignal(s).signal, ChooseSignal(LeaderBonus(s)).signal;
      after == before || before == Wait
    ensures LeaderBonus(s).buy + LeaderBonus(s).sell + LeaderBonus(s).short <= s.buy + s.sell + s.short + 1
    ensures VolumeBonus(s) != LeaderBonus(s) ==> s.sell > s.buy && s.short >= s.sell
  {
  }

  // ---------------------------------------------------------------------
  // _calculate_entry_levels

  datatype EntryLevels = EntryLevels(entry: real, stopLoss: real, target: real, riskReward: real)

  /** `reward / risk if risk > 0 else 0`. */
  function RiskReward(entry: real, stopLoss: real, target: real): real
  {
    var risk := Abs(entry - stopLoss);
    if risk > 0.0 then Abs(target - entry) / risk else 0.0
  }

  /** The risk/reward ratio is never negative and, when there is risk, it
      scales the risk to the reward. */
  lemma RiskRewardMeaning(entry: real, stopLoss: real, target: real)
    ensures RiskReward(entry, stopLoss, target) >= 0.0
    ensures entry != stopLoss ==> RiskReward(entry, stopLoss, target) * Abs(entry - stopLoss) == Abs(target - entry)
    ensures entry == stopLoss ==> RiskReward(entry, stopLoss, target) == 0.0
  {
    var risk := Abs(entry - stopLoss);
    if risk > 0.0 {
      QuotientBounds(0.0, Abs(target - entry) / risk, Abs(target - entry), risk);
    }
  }

  function OrElse(x: Option<real>, fallback: real): real
  {
    if Truthy(x) then x.value else fallback
  }

  /** Entry, stop-loss and target for a signal (before rounding). */
  function EntryLevelsFor(signal: Signal, close: real, atr: real, support: Option<real>, resistance: Option<real>): EntryLevels
  {
    var (entry, stopLoss, target) :=
      match signal
      case Buy => (close, OrElse(support, close - 2.0 * atr), OrElse(resistance, close + 3.0 * atr))
      case Short => (close, OrElse(resistance, close + 2.0 * atr), OrElse(support, close - 3.0 * atr))
      case Sell => (close, close + 1.5 * atr, close)
      case Wait =>
        var e := OrElse(support, close * 0.98);
        (e, e * 0.97, OrElse(resistance, e * 1.03));
    EntryLevels(entry, stopLoss, target, RiskReward(entry, stopLoss, target))
  }

  /** With a positive ATR and levels on the right sides of the price, a buy
      is bracketed stop < entry < target and a short target < entry < stop;
      a sell's target is its entry, so it carries no reward. */
  lemma EntryLevelsBracket(signal: Signal, close: real, atr: real, support: Option<real>, resistance: Option<real>)
    requires atr > 0.0
    requires support.Some? ==> support.value < close
    requires resistance.Some? ==> resistance.value > close
    ensures var e := EntryLevelsFor(signal, close, atr, support, resistance);
      && (signal == Buy ==> e.stopLoss < e.entry < e.target)
      && (signal == Short ==> e.target < e.entry < e.stopLoss)
      && (signal == Sell ==> e.target == e.entry < e.stopLoss && e.riskReward == 0.0)
  {
  }

  /** Without support or resistance the fallbacks fix the ratio: a buy or a
      short risks 2 ATR for 3 (ratio 1.5), and a WAIT risks 3% of its entry
      for 3% (ratio 1) whenever the price is not zero. */
  lemma FallbackRatios(close: real, atr: real)
    requires atr > 0.0
    ensures EntryLevelsFor(Buy, close, atr, None, None).riskReward == 1.5
    ensures EntryLevelsFor(Short, close, atr, None, None).riskReward == 1.5
    ensures close != 0.0 ==> EntryLevelsFor(Wait, close, atr, None, None).riskReward == 1.0
  {
    Ratio(3.0 * atr, 2.0 * atr, 1.5);
    var e := close * 0.98;
    if close != 0.0 {
      assert Abs(e - e * 0.97) == Abs(e) * 0.03;
      assert Abs(e * 1.03 - e) == Abs(e) * 0.03;
      Ratio(Abs(e) * 0.03, Abs(e) * 0.03, 1.0);
    }
  }

  lemma Ratio(x: real, y: real, k: real)
    requires y > 0.0 && x == k * y
    ensures x / y == k
  {
  }

  // ---------------------------------------------------------------------
  // generate_entry_signals

  datatype EntrySignal = EntrySignal(
    signal: Signal,
    confidence: Confidence,
    scores: Scores,
    trendContext: MarketTrend,
    entry: real,
    stopLoss: real,
    target: real,
    riskReward: real)

  /** `generate_entry_signals`: trend, levels, scores, the chosen signal and
      its levels. */
  method GenerateEntrySignals(latest: Latest, priceAction: Leaning, localHighs: seq<real>, localLows: seq<real>)
    returns (r: EntrySignal)
    ensures r.trendContext == DetectTrend(latest, priceAction).trend
    ensures Choice(r.signal, r.confidence) == ChooseSignal(r.scores)
    ensures r.riskReward == RiskReward(r.entry, r.stopLoss, r.target)
    ensures r.signal != Wait ==> r.entry == latest.close
    ensures var levels := SupportResistance(localHighs, localLows, latest.close);
      && r.scores == WithVolume(RulePoints(SignalContext(r.trendContext, latest, levels.nearestSupport, levels.nearestResistance)), latest.volumeRatio)
      && EntryLevels(r.entry, r.stopLoss, r.target, r.riskReward)
         == EntryLevelsFor(r.signal, latest.close, latest.atr, levels.nearestSupport, levels.nearestResistance)
    ensures latest.atr > 0.0 && r.signal == Buy ==> r.stopLoss < r.entry < r.target
    ensures latest.atr > 0.0 && r.signal == Short ==> r.target < r.entry < r.stopLoss
  {
    var trend := DetectTrend(latest, priceAction);
    var levels := FindSupportResistance(localHighs, localLows, latest.close);
    var scores := ScoreSignals(SignalContext(trend.trend, latest, levels.nearestSupport, levels.nearestResistance));
    var choice := ChooseSignal(scores);
    if latest.atr > 0.0 {
      EntryLevelsBracket(choice.signal, latest.close, latest.atr, levels.nearestSupport, levels.nearestResistance);
    }
    var e := EntryLevelsFor(choice.signal, latest.close, latest.atr, levels.nearestSupport, levels.nearestResistance);
    r := EntrySignal(choice.signal, choice.confidence, scores, trend.trend, e.entry, e.stopLoss, e.target, e.riskReward);
    assert r.scores == WithVolume(RulePoints(SignalContext(r.trendContext, latest, levels.nearestSupport, levels.nearestResistance)), latest.volumeRatio);
  }
}
