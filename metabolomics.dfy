/**
 * The metabolomic model (app.py, lines 83-110) and the third tab that guards its inputs and runs
 * it (app.py, lines 168-179): five urinary amino-acid levels are log-transformed, centred and
 * scaled with statistics of a fixed training sample, and fed to a linear model with no intercept.
 */
module Metabolomics {
  import opened Wrappers
  import opened Numerics
  import opened Categories

  /** `FEATURES`, the keys of `COEFFS` in their order. */
  const Features: seq<string> :=
    ["Tyrosine", "AlphaAminoadipicAcid", "MH3", "Phosphoethanolamine", "Phosphoserine"]

  /** `COEFFS`: the model's coefficient of each feature. */
  const Coeffs: map<string, real> := map[
    "Tyrosine" := 2.33, "AlphaAminoadipicAcid" := 0.96, "MH3" := 1.13,
    "Phosphoethanolamine" := -2.89, "Phosphoserine" := -2.48
  ]

  /** `TRAIN_RAW`: the reference sample of ten raw measurements per feature. */
  const TrainRaw: map<string, seq<real>> := map[
    "Tyrosine" := [45.31, 23.43, 15.03, 20.80, 19.32, 9.58, 12.33, 10.53, 10.17, 14.52],
    "AlphaAminoadipicAcid" := [0.95, 1.12, 1.02, 1.08, 1.00, 2.40, 2.20, 2.50, 2.10, 2.35],
    "MH3" := [46.08, 35.35, 39.78, 15.54, 36.53, 11.93, 10.46, 15.63, 16.70, 11.75],
    "Phosphoethanolamine" := [1.08, 0.55, 1.26, 1.09, 0.69, 2.93, 1.91, 1.91, 1.88, 2.20],
    "Phosphoserine" := [1.68, 2.12, 0.67, 0.53, 0.35, 8.00, 3.78, 3.59, 1.80, 2.52]
  ]

  /** FEATURES lists exactly the keys of COEFFS and of TRAIN_RAW, each once. */
  lemma FeaturesAreTheModelKeys()
    ensures forall k :: k in Coeffs <==> k in Features
    ensures forall k :: k in TrainRaw <==> k in Features
    ensures forall i, j :: 0 <= i < j < |Features| ==> Features[i] != Features[j]
  {
  }

  // ---------------------------------------------------------------------------------------------
  // Training statistics (app.py, lines 95-99)

  function Sum(xs: seq<real>): (s: real) {
    if xs == [] then 0.0 else Sum(xs[..|xs| - 1]) + xs[|xs| - 1]
  }

  /** The arithmetic mean (numpy's mean). */
  function Mean(xs: seq<real>): (m: real)
    requires |xs| > 0
  {
    Sum(xs) / (|xs| as real)
  }

  function Square(d: real): (s: real)
    ensures 0.0 <= s
  {
    d * d
  }

  /** A nonzero square below h makes h positive. */
  lemma SquareBelow(d: real, h: real)
    requires d != 0.0 && Square(d) <= h
    ensures 0.0 < h
  {
    if d > 0.0 {
      ProductBelow(d, d, h);
    } else {
      ProductBelow(-d, -d, h);
    }
  }

  lemma ProductBelow(a: real, b: real, h: real)
    requires 0.0 < a && 0.0 < b && a * b <= h
    ensures 0.0 < h
  {
    assert 0.0 < a * b;
  }

  /** A sample inside [lo, hi] has its sum inside [n lo, n hi]. */
  lemma {:induction false} SumWithinBounds(xs: seq<real>, lo: real, hi: real)
    requires forall i :: 0 <= i < |xs| ==> lo <= xs[i] <= hi
    ensures (|xs| as real) * lo <= Sum(xs) <= (|xs| as real) * hi
  {
    if xs != [] {
      var n := |xs| as real;
      SumWithinBounds(xs[..|xs| - 1], lo, hi);
      assert (n - 1.0) * lo + lo == n * lo;
      assert (n - 1.0) * hi + hi == n * hi;
    }
  }

  /** The mean of a sample lies between any lower and upper bound of its values. */
  lemma MeanWithinBounds(xs: seq<real>, lo: real, hi: real)
    requires |xs| > 0
    requires forall i :: 0 <= i < |xs| ==> lo <= xs[i] <= hi
    ensures lo <= Mean(xs) <= hi
  {
    var n := |xs| as real;
    SumWithinBounds(xs, lo, hi);
    var m := Mean(xs);
    assert m * n == Sum(xs);
    ScaledBounds(m, n, lo, hi);
  }

  lemma ScaledBounds(m: real, n: real, lo: real, hi: real)
    requires 0.0 < n && n * lo <= m * n <= n * hi
    ensures lo <= m <= hi
  {
    if m < lo {
      ProductBelow(n, lo - m, n * lo - m * n);
    }
    if hi < m {
      ProductBelow(n, m - hi, m * n - n * hi);
    }
  }

  /** The sum of the squared deviations of xs from m. */
  function SumSquares(xs: seq<real>, m: real): (s: real)
    ensures 0.0 <= s
  {
    if xs == [] then 0.0 else SumSquares(xs[..|xs| - 1], m) + Square(xs[|xs| - 1] - m)
  }

  /** The sample variance: the squared deviations from the mean, divided by n - 1. */
  function SampleVariance(xs: seq<real>): (v: real)
    requires |xs| >= 2
    ensures 0.0 <= v
  {
    SumSquares(xs, Mean(xs)) / ((|xs| - 1) as real)
  }

  /** The sample standard deviation (numpy's std with one delta degree of freedom). */
  function SampleSd(xs: seq<real>, sqrt: real -> real): (sd: real)
    requires |xs| >= 2
  {
    sqrt(SampleVariance(xs))
  }

  /** The base-10 logarithm of every entry. */
  function LogAll(xs: seq<real>, log10: real -> real): (ys: seq<real>)
    ensures |ys| == |xs|
    ensures forall i :: 0 <= i < |xs| ==> ys[i] == log10(xs[i])
  {
    seq(|xs|, i requires 0 <= i < |xs| => log10(xs[i]))
  }

  /**
   * The start-up loop: for each feature in turn, the mean and the sample standard deviation of
   * the log10 of its training values are written into MEAN_LOG and SD_LOG.
   */
  method ComputeTrainingStats(train: map<string, seq<real>>, order: seq<string>,
                              log10: real -> real, sqrt: real -> real)
    returns (meanLog: map<string, real>, sdLog: map<string, real>)
    requires forall k :: k in order ==> k in train && |train[k]| >= 2
    ensures forall k :: k in meanLog <==> k in order
    ensures forall k :: k in sdLog <==> k in order
    ensures forall k :: k in order ==>
      meanLog[k] == Mean(LogAll(train[k], log10)) && sdLog[k] == SampleSd(LogAll(train[k], log10), sqrt)
  {
    meanLog, sdLog := map[], map[];
    for i := 0 to |order|
      invariant forall k :: k in meanLog <==> k in order[..i]
      invariant forall k :: k in sdLog <==> k in order[..i]
      invariant forall k :: k in order[..i] ==>
        meanLog[k] == Mean(LogAll(train[k], log10)) && sdLog[k] == SampleSd(LogAll(train[k], log10), sqrt)
    {
      var k := order[i];
      assert order[..i + 1] == order[..i] + [k];
      var xlog := LogAll(train[k], log10);
      meanLog := meanLog[k := Mean(xlog)];
      sdLog := sdLog[k := SampleSd(xlog, sqrt)];
    }
    assert order[..|order|] == order;
  }

  /** MEAN_LOG[k] and SD_LOG[k] as the start-up loop leaves them. */
  function TrainingMean(k: string, log10: real -> real): (m: real)
    requires k in Features
  {
    Mean(LogAll(TrainRaw[k], log10))
  }

  function TrainingSd(k: string, log10: real -> real, sqrt: real -> real): (sd: real)
    requires k in Features
  {
    SampleSd(LogAll(TrainRaw[k], log10), sqrt)
  }

  lemma {:induction false} SumSquaresAtLeastOne(xs: seq<real>, m: real, i: nat)
    requires i < |xs|
    ensures Square(xs[i] - m) <= SumSquares(xs, m)
  {
    if i < |xs| - 1 {
      assert xs[..|xs| - 1][i] == xs[i];
      SumSquaresAtLeastOne(xs[..|xs| - 1], m, i);
    }
  }

  /** Two different values make the squared deviations from any centre positive. */
  lemma SumSquaresPositive(xs: seq<real>, m: real, i: nat, j: nat)
    requires i < |xs| && j < |xs| && xs[i] != xs[j]
    ensures 0.0 < SumSquares(xs, m)
  {
    if xs[i] != m {
      SumSquaresAtLeastOne(xs, m, i);
      SquareBelow(xs[i] - m, SumSquares(xs, m));
    } else {
      SumSquaresAtLeastOne(xs, m, j);
      SquareBelow(xs[j] - m, SumSquares(xs, m));
    }
  }

  /**
   * Normalization divides by the square root of the training deviation, with no guard against
   * a zero deviation. For the
   * fixed training sample that never happens: each feature has two different positive values,
   * hence two different logarithms, a positive variance and a positive deviation.
   */
  lemma TrainingSdPositive(k: string, log10: real -> real, sqrt: real -> real)
    requires Log10Laws(log10) && SqrtLaws(sqrt)
    requires k in Features
    ensures 0.0 < TrainingSd(k, log10, sqrt)
  {
    var xs := TrainRaw[k];
    assert |xs| == 10 && 0.0 < xs[0] && 0.0 < xs[1] && xs[0] != xs[1];
    var ys := LogAll(xs, log10);
    assert ys[0] != ys[1];
    SumSquaresPositive(ys, Mean(ys), 0, 1);
    var v := SampleVariance(ys);
    assert 0.0 < v;
    SqrtPositive(sqrt, v);
  }

  // ---------------------------------------------------------------------------------------------
  // Normalization and prediction (app.py, lines 101-110)

  /** Statistics fit for normalization: one mean and one positive deviation per feature. */
  ghost predicate StatsReady(meanLog: map<string, real>, sdLog: map<string, real>) {
    forall k :: k in Features ==> k in meanLog && k in sdLog && 0.0 < sdLog[k]
  }

  /**
   * Start-up: the loop run over TRAIN_RAW in FEATURES order leaves statistics that are fit for
   * normalization, each feature holding the mean and deviation of its training logarithms.
   */
  method LoadTrainingStats(log10: real -> real, sqrt: real -> real)
    returns (meanLog: map<string, real>, sdLog: map<string, real>)
    requires Log10Laws(log10) && SqrtLaws(sqrt)
    ensures StatsReady(meanLog, sdLog)
    ensures forall k :: k in Features ==>
      meanLog[k] == TrainingMean(k, log10) && sdLog[k] == TrainingSd(k, log10, sqrt)
  {
    FeaturesAreTheModelKeys();
    assert forall k :: k in Features ==> k in TrainRaw && |TrainRaw[k]| >= 2;
    meanLog, sdLog := ComputeTrainingStats(TrainRaw, Features, log10, sqrt);
    TrainingStatsReady(log10, sqrt, meanLog, sdLog);
  }

  /** The statistics the start-up loop computes from TRAIN_RAW are fit for normalization. */
  lemma TrainingStatsReady(log10: real -> real, sqrt: real -> real,
                           meanLog: map<string, real>, sdLog: map<string, real>)
    requires Log10Laws(log10) && SqrtLaws(sqrt)
    requires forall k :: k in Features ==>
      k in meanLog && k in sdLog && meanLog[k] == TrainingMean(k, log10) && sdLog[k] == TrainingSd(k, log10, sqrt)
    ensures StatsReady(meanLog, sdLog)
  {
    forall k | k in Features ensures 0.0 < sdLog[k] {
      TrainingSdPositive(k, log10, sqrt);
    }
  }

  /**
   * One normalized feature: the log10 of the value, less the training mean, divided by the square
   * root of the training deviation. Scaling back by that root recovers the centred logarithm.
   */
  function NormalizedValue(x: real, mean: real, sd: real, log10: real -> real, sqrt: real -> real): (z: real)
    requires SqrtLaws(sqrt) && 0.0 < sd
    ensures z * sqrt(sd) == log10(x) - mean
  {
    SqrtPositive(sqrt, sd);
    (log10(x) - mean) / sqrt(sd)
  }

  /** A value whose log10 is the training mean normalizes to 0. */
  lemma NormalizedValueAtMean(x: real, mean: real, sd: real, log10: real -> real, sqrt: real -> real)
    requires SqrtLaws(sqrt) && 0.0 < sd
    requires log10(x) == mean
    ensures NormalizedValue(x, mean, sd, log10, sqrt) == 0.0
  {
  }

  /** Normalization keeps the order of positive measurements. */
  lemma NormalizedValueIncreasing(x: real, y: real, mean: real, sd: real, log10: real -> real, sqrt: real -> real)
    requires SqrtLaws(sqrt) && Log10Laws(log10) && 0.0 < sd
    requires 0.0 < x < y
    ensures NormalizedValue(x, mean, sd, log10, sqrt) < NormalizedValue(y, mean, sd, log10, sqrt)
  {
    SqrtPositive(sqrt, sd);
    var s := sqrt(sd);
    var a, b := log10(x) - mean, log10(y) - mean;
    assert a < b;
    assert b / s - a / s == (b - a) / s;
  }

  /** `normalize_raw_df` on the one-row frame: the normalized value of every feature. */
  function Normalized(raw: map<string, real>, meanLog: map<string, real>, sdLog: map<string, real>,
                      log10: real -> real, sqrt: real -> real): (z: map<string, real>)
    requires forall k :: k in Features ==> k in raw
    requires StatsReady(meanLog, sdLog) && SqrtLaws(sqrt)
    ensures forall k :: k in z <==> k in Features
  {
    map k | k in Features :: NormalizedValue(raw[k], meanLog[k], sdLog[k], log10, sqrt)
  }

  /** `normalize_raw_df`: the loop that adds one normalized column per feature. */
  method NormalizeRawDf(raw: map<string, real>, meanLog: map<string, real>, sdLog: map<string, real>,
                        log10: real -> real, sqrt: real -> real)
    returns (z: map<string, real>)
    requires forall k :: k in Features ==> k in raw
    requires StatsReady(meanLog, sdLog) && SqrtLaws(sqrt)
    ensures z == Normalized(raw, meanLog, sdLog, log10, sqrt)
  {
    z := map[];
    for i := 0 to |Features|
      invariant forall k :: k in z <==> k in Features[..i]
      invariant forall k :: k in z ==> z[k] == NormalizedValue(raw[k], meanLog[k], sdLog[k], log10, sqrt)
    {
      var k := Features[i];
      assert Features[..i + 1] == Features[..i] + [k];
      z := z[k := NormalizedValue(raw[k], meanLog[k], sdLog[k], log10, sqrt)];
    }
    assert Features[..|Features|] == Features;
  }

  /** The single row of the normalized frame, read in feature order. */
  function Column(z: map<string, real>): (xs: seq<real>)
    requires forall k :: k in Features ==> k in z
    ensures |xs| == |Features|
    ensures forall i :: 0 <= i < |Features| ==> xs[i] == z[Features[i]]
  {
    seq(|Features|, i requires 0 <= i < |Features| => z[Features[i]])
  }

  /** The coefficient vector: the coefficient of each feature, in feature order. */
  function Beta(): (b: seq<real>)
    ensures |b| == |Features|
    ensures forall i :: 0 <= i < |Features| ==> b[i] == Coeffs[Features[i]]
  {
    seq(|Features|, i requires 0 <= i < |Features| => Coeffs[Features[i]])
  }

  /** The dot product of two vectors of the same length. */
  function Dot(xs: seq<real>, ys: seq<real>): (d: real)
    requires |xs| == |ys|
  {
    if xs == [] then 0.0 else Dot(xs[..|xs| - 1], ys[..|ys| - 1]) + xs[|xs| - 1] * ys[|ys| - 1]
  }

  /** Changing one entry of xs changes the dot product by that change times the matching weight. */
  lemma {:induction false} DotUpdate(xs: seq<real>, ys: seq<real>, i: nat, a: real)
    requires |xs| == |ys| && i < |xs|
    ensures Dot(xs[i := a], ys) == Dot(xs, ys) + ys[i] * (a - xs[i])
  {
    var n := |xs|;
    var xs' := xs[i := a];
    if i == n - 1 {
      assert xs'[..n - 1] == xs[..n - 1];
    } else {
      assert xs'[..n - 1] == xs[..n - 1][i := a];
      DotUpdate(xs[..n - 1], ys[..n - 1], i, a);
    }
  }

  /** A vector of zeros has dot product 0 with any vector. */
  lemma {:induction false} DotZero(xs: seq<real>, ys: seq<real>)
    requires |xs| == |ys|
    requires forall i :: 0 <= i < |xs| ==> xs[i] == 0.0
    ensures Dot(xs, ys) == 0.0
  {
    if xs != [] {
      DotZero(xs[..|xs| - 1], ys[..|ys| - 1]);
    }
  }

  /** The linear score of a normalized row: no intercept is added. */
  function MetaScore(z: map<string, real>): (score: real)
    requires forall k :: k in Features ==> k in z
  {
    Dot(Column(z), Beta())
  }

  /** `meta_predict`: the logistic of the normalized row's score, strictly between 0 and 1. */
  function MetaPredict(logistic: real -> real, z: map<string, real>): (p: real)
    requires LogisticLaws(logistic)
    requires forall k :: k in Features ==> k in z
    ensures 0.0 < p < 1.0
  {
    logistic(MetaScore(z))
  }

  /** No intercept: a row of zeros scores 0, so its probability is logistic(0) = 1/2. */
  lemma MetaPredictNoIntercept(logistic: real -> real, z: map<string, real>)
    requires LogisticLaws(logistic)
    requires forall k :: k in Features ==> k in z && z[k] == 0.0
    ensures MetaScore(z) == 0.0
    ensures MetaPredict(logistic, z) == logistic(0.0) == 0.5
  {
    DotZero(Column(z), Beta());
  }

  /** Changing one normalized feature moves the score by its coefficient times the change. */
  lemma MetaScoreUpdate(z: map<string, real>, i: nat, v: real)
    requires forall k :: k in Features ==> k in z
    requires i < |Features|
    ensures MetaScore(z[Features[i] := v]) == MetaScore(z) + Coeffs[Features[i]] * (v - z[Features[i]])
  {
    FeaturesAreTheModelKeys();
    var k := Features[i];
    assert Column(z[k := v]) == Column(z)[i := v];
    DotUpdate(Column(z), Beta(), i, v);
  }

  // ---------------------------------------------------------------------------------------------
  // The metabolomic tab (app.py, lines 168-179)

  /** The tab's input values, keyed by feature name (`vals`). */
  function Vals(tyrosine: Option<real>, alphaaaa: Option<real>, mh3: Option<real>,
                pe: Option<real>, ps: Option<real>): (vals: map<string, Option<real>>)
    ensures forall k :: k in vals <==> k in Features
    ensures vals["Tyrosine"] == tyrosine && vals["AlphaAminoadipicAcid"] == alphaaaa
    ensures vals["MH3"] == mh3
    ensures vals["Phosphoethanolamine"] == pe && vals["Phosphoserine"] == ps
  {
    map["Tyrosine" := tyrosine, "AlphaAminoadipicAcid" := alphaaaa, "MH3" := mh3,
        "Phosphoethanolamine" := pe, "Phosphoserine" := ps]
  }

  /** A usable measurement: present and strictly positive. */
  predicate Usable(v: Option<real>) {
    v.Some? && 0.0 < v.value
  }

  /** The raw row of a fully usable input. */
  function RawRow(vals: map<string, Option<real>>): (raw: map<string, real>)
    requires forall k :: k in vals ==> vals[k].Some? && 0.0 < vals[k].value
    ensures forall k :: k in raw <==> k in vals
    ensures forall k :: k in raw ==> 0.0 < raw[k] && vals[k] == Some(raw[k])
  {
    map k | k in vals :: vals[k].value
  }

  /** Probability and label of a raw row of positive measurements, with the cutoffs 0.05 and 0.1. */
  function MetaRisk(logistic: real -> real, log10: real -> real, sqrt: real -> real,
                    meanLog: map<string, real>, sdLog: map<string, real>, raw: map<string, real>): (r: RiskResult)
    requires LogisticLaws(logistic) && SqrtLaws(sqrt) && StatsReady(meanLog, sdLog)
    requires forall k :: k in Features ==> k in raw
    ensures 0.0 < r.probability < 1.0 && r.category.Known()
    ensures r.probability == MetaPredict(logistic, Normalized(raw, meanLog, sdLog, log10, sqrt))
    ensures r.category == Categorize(r.probability, MetaLow, MetaHigh)
  {
    var p := MetaPredict(logistic, Normalized(raw, meanLog, sdLog, log10, sqrt));
    RiskResult(p, Categorize(p, MetaLow, MetaHigh))
  }

  /** The guard finds a missing or non-positive value exactly when one of the five is unusable. */
  lemma GuardRejectsExactlyTheUnusable(tyrosine: Option<real>, alphaaaa: Option<real>, mh3: Option<real>,
                                       pe: Option<real>, ps: Option<real>)
    ensures var vals := Vals(tyrosine, alphaaaa, mh3, pe, ps);
      (exists v :: v in vals.Values && !Usable(v)) <==>
      !(Usable(tyrosine) && Usable(alphaaaa) && Usable(mh3) && Usable(pe) && Usable(ps))
    ensures var vals := Vals(tyrosine, alphaaaa, mh3, pe, ps);
      (forall k :: k in vals ==> Usable(vals[k])) <==>
      (Usable(tyrosine) && Usable(alphaaaa) && Usable(mh3) && Usable(pe) && Usable(ps))
  {
    var vals := Vals(tyrosine, alphaaaa, mh3, pe, ps);
    assert vals["Tyrosine"] in vals.Values && vals["AlphaAminoadipicAcid"] in vals.Values;
    assert vals["MH3"] in vals.Values && vals["Phosphoethanolamine"] in vals.Values;
    assert vals["Phosphoserine"] in vals.Values;
  }

  /**
   * The third tab's button: an error, and nothing computed, when any of the five values is
   * missing or not strictly positive; otherwise the normalized row's probability and label.
   */
  method MetabolomicTab(logistic: real -> real, log10: real -> real, sqrt: real -> real,
                        meanLog: map<string, real>, sdLog: map<string, real>,
                        tyrosine: Option<real>, alphaaaa: Option<real>, mh3: Option<real>,
                        pe: Option<real>, ps: Option<real>)
    returns (r: Result<RiskResult>)
    requires LogisticLaws(logistic) && SqrtLaws(sqrt) && StatsReady(meanLog, sdLog)
    ensures r.Success? <==>
      Usable(tyrosine) && Usable(alphaaaa) && Usable(mh3) && Usable(pe) && Usable(ps)
    ensures r.Failure? ==> r.error == InvalidInput
    ensures r.Success? ==>
      r.value == MetaRisk(logistic, log10, sqrt, meanLog, sdLog, RawRow(Vals(tyrosine, alphaaaa, mh3, pe, ps)))
  {
    var vals := Vals(tyrosine, alphaaaa, mh3, pe, ps);
    GuardRejectsExactlyTheUnusable(tyrosine, alphaaaa, mh3, pe, ps);
    if exists v :: v in vals.Values && !Usable(v) {
      return Failure(InvalidInput);
    }
    var raw := RawRow(vals);
    var z := NormalizeRawDf(raw, meanLog, sdLog, log10, sqrt);
    var p := MetaPredict(logistic, z);
    var cat := Categorize(p, MetaLow, MetaHigh);
    assert RiskResult(p, cat) == MetaRisk(logistic, log10, sqrt, meanLog, sdLog, raw);
    return Success(RiskResult(p, cat));
  }

  /**
   * Feeding every feature its training mean (a value whose log10 is MEAN_LOG) normalizes to the
   * zero row: the probability is logistic(0) = 1/2, at or above the cutoff 0.1, so High.
   */
  lemma MetaRiskAtTrainingMeans(logistic: real -> real, log10: real -> real, sqrt: real -> real,
                                meanLog: map<string, real>, sdLog: map<string, real>, raw: map<string, real>)
    requires LogisticLaws(logistic) && SqrtLaws(sqrt) && StatsReady(meanLog, sdLog)
    requires forall k :: k in Features ==> k in raw && log10(raw[k]) == meanLog[k]
    ensures MetaRisk(logistic, log10, sqrt, meanLog, sdLog, raw) == RiskResult(0.5, High)
  {
    var z := Normalized(raw, meanLog, sdLog, log10, sqrt);
    forall k | k in Features ensures z[k] == 0.0 {
      NormalizedValueAtMean(raw[k], meanLog[k], sdLog[k], log10, sqrt);
    }
    MetaPredictNoIntercept(logistic, z);
  }

  /** Normalization works feature by feature: changing one raw value changes only its own entry. */
  lemma NormalizedUpdate(raw: map<string, real>, meanLog: map<string, real>, sdLog: map<string, real>,
                         log10: real -> real, sqrt: real -> real, k: string, x: real, y: real)
    requires SqrtLaws(sqrt) && StatsReady(meanLog, sdLog)
    requires forall j :: j in Features ==> j in raw
    requires k in Features
    ensures Normalized(raw[k := y], meanLog, sdLog, log10, sqrt)
      == Normalized(raw[k := x], meanLog, sdLog, log10, sqrt)[k := NormalizedValue(y, meanLog[k], sdLog[k], log10, sqrt)]
  {
  }

  /** Raising one normalized entry moves the score in the direction of its coefficient's sign. */
  lemma MetaScoreFollowsCoefficient(z: map<string, real>, i: nat, v: real)
    requires forall k :: k in Features ==> k in z
    requires i < |Features| && z[Features[i]] < v
    ensures 0.0 < Coeffs[Features[i]] ==> MetaScore(z) < MetaScore(z[Features[i] := v])
    ensures Coeffs[Features[i]] < 0.0 ==> MetaScore(z[Features[i] := v]) < MetaScore(z)
  {
    MetaScoreUpdate(z, i, v);
    var c, d := Coeffs[Features[i]], v - z[Features[i]];
    if 0.0 < c {
      ProductPositive(c, d);
    } else if c < 0.0 {
      ProductPositive(-c, d);
    }
  }

  lemma ProductPositive(a: real, b: real)
    requires 0.0 < a && 0.0 < b
    ensures 0.0 < a * b && (-a) * b == -(a * b)
  {
  }

  /**
   * Raising one raw measurement, all others fixed, raises the probability when the feature's
   * coefficient is positive (Tyrosine, AlphaAminoadipicAcid, MH3) and lowers it when it is
   * negative (Phosphoethanolamine, Phosphoserine).
   */
  lemma MetaRiskMonotoneInFeature(logistic: real -> real, log10: real -> real, sqrt: real -> real,
                                  meanLog: map<string, real>, sdLog: map<string, real>,
                                  raw: map<string, real>, i: nat, x: real, y: real)
    requires LogisticLaws(logistic) && Log10Laws(log10) && SqrtLaws(sqrt) && StatsReady(meanLog, sdLog)
    requires forall k :: k in Features ==> k in raw
    requires i < |Features| && 0.0 < x < y
    ensures var k := Features[i];
      var p := MetaRisk(logistic, log10, sqrt, meanLog, sdLog, raw[k := x]).probability;
      var q := MetaRisk(logistic, log10, sqrt, meanLog, sdLog, raw[k := y]).probability;
      (0.0 < Coeffs[k] ==> p < q) && (Coeffs[k] < 0.0 ==> q < p)
  {
    var k := Features[i];
    var zx := Normalized(raw[k := x], meanLog, sdLog, log10, sqrt);
    var b := NormalizedValue(y, meanLog[k], sdLog[k], log10, sqrt);
    NormalizedValueIncreasing(x, y, meanLog[k], sdLog[k], log10, sqrt);
    NormalizedUpdate(raw, meanLog, sdLog, log10, sqrt, k, x, y);
    MetaScoreFollowsCoefficient(zx, i, b);
  }

  /**
   * By feature: more Tyrosine, AlphaAminoadipicAcid or MH3 raises the metabolomic probability,
   * more Phosphoethanolamine or Phosphoserine lowers it.
   */
  lemma MetaRiskFeatureDirections(logistic: real -> real, log10: real -> real, sqrt: real -> real,
                                  meanLog: map<string, real>, sdLog: map<string, real>,
                                  raw: map<string, real>, i: nat, x: real, y: real)
    requires LogisticLaws(logistic) && Log10Laws(log10) && SqrtLaws(sqrt) && StatsReady(meanLog, sdLog)
    requires forall k :: k in Features ==> k in raw
    requires i < |Features| && 0.0 < x < y
    ensures var k := Features[i];
      var p := MetaRisk(logistic, log10, sqrt, meanLog, sdLog, raw[k := x]).probability;
      var q := MetaRisk(logistic, log10, sqrt, meanLog, sdLog, raw[k := y]).probability;
      (i < 3 ==> p < q) && (3 <= i ==> q < p)
  {
    CoefficientSigns();
    MetaRiskMonotoneInFeature(logistic, log10, sqrt, meanLog, sdLog, raw, i, x, y);
  }

  /** The sign of each coefficient, in feature order. */
  lemma CoefficientSigns()
    ensures 0.0 < Coeffs[Features[0]] && 0.0 < Coeffs[Features[1]] && 0.0 < Coeffs[Features[2]]
    ensures Coeffs[Features[3]] < 0.0 && Coeffs[Features[4]] < 0.0
  {
  }
}
