/** The statistical and pattern detector and the trend predictor. The model
    keeps a bounded history of readings per pump; a reading is scored
    against the population mean and standard deviation of its pump's whole
    history, three fixed multi-parameter rules look for known failure
    signatures, and the failure prediction compares the last ten readings
    with the ten before them. Math.sqrt is a parameter `sqrt`, assumed to be
    a square root where that matters (Stats.IsSqrt). */
module MLModel {
  import opened Types
  import opened Text
  import opened Stats
  import Seqs
  import SampleData

  /** Readings kept per pump. */
  const HistoryLimit := 100
  /** Readings needed before anything is detected. */
  const MinHistory := 10
  /** z-scores strictly above this are anomalous. */
  const ZThreshold := 2.5

  /** `history.push(data)` and then, above the limit, `history.shift()`. */
  function Appended(h: seq<Reading>, data: Reading): seq<Reading> {
    var pushed := h + [data];
    if |pushed| > HistoryLimit then pushed[1..] else pushed
  }

  /** The bounded history keeps the newest readings: on a history within the
      limit, appending is "the last 100 of h + [data]", so the length stays
      within the limit, the new reading is last, the order of what is kept is
      unchanged, and exactly the oldest reading is evicted when full. */
  lemma AppendedKeepsNewest(h: seq<Reading>, data: Reading)
    requires |h| <= HistoryLimit
    ensures Appended(h, data) == Seqs.KeepLast(h + [data], HistoryLimit)
    ensures |Appended(h, data)| <= HistoryLimit
    ensures Appended(h, data)[|Appended(h, data)| - 1] == data
    ensures |h| < HistoryLimit ==> Appended(h, data) == h + [data]
    ensures |h| == HistoryLimit ==> Appended(h, data) == h[1..] + [data]
  {
    if |h| == HistoryLimit {
      assert (h + [data])[1..] == h[1..] + [data];
    }
  }

  /** A pump's history in the dictionary h, empty when it has none. */
  function HistoryIn(h: map<string, seq<Reading>>, pumpId: string): seq<Reading> {
    if pumpId in h then h[pumpId] else []
  }

  /** The per-pump model. The source keeps a Map of arrays; here the
      dictionary is a `map` field that the methods reassign. */
  class MLModel {
    var historicalData: map<string, seq<Reading>>

    /** No pump's history exceeds the limit. */
    ghost predicate Valid()
      reads this
    {
      forall id :: id in historicalData ==> |historicalData[id]| <= HistoryLimit
    }

    constructor ()
      ensures Valid() && historicalData == map[]
    {
      historicalData := map[];
    }

    /** `historicalData.get(pumpId) || []`. */
    function HistoryOf(pumpId: string): seq<Reading>
      reads this
    {
      HistoryIn(historicalData, pumpId)
    }

    /** `addData`: the reading's pump gets a history if it had none, the
        reading is appended at the tail and, above the limit, the head is
        dropped; every other pump's history is unchanged. */
    method AddData(data: Reading)
      requires Valid()
      modifies this
      ensures Valid()
      ensures historicalData == old(historicalData)[data.pumpId := Appended(old(HistoryOf(data.pumpId)), data)]
      ensures HistoryOf(data.pumpId) == Seqs.KeepLast(old(HistoryOf(data.pumpId)) + [data], HistoryLimit)
      ensures forall id :: id != data.pumpId ==> HistoryOf(id) == old(HistoryOf(id))
    {
      if data.pumpId !in historicalData {
        historicalData := historicalData[data.pumpId := []];
      }
      var history := historicalData[data.pumpId];
      AppendedKeepsNewest(history, data);
      history := history + [data];
      if |history| > HistoryLimit {
        history := history[1..];
      }
      historicalData := historicalData[data.pumpId := history];
    }

    /** `detectAnomalies`: nothing below the minimum history; otherwise one
        statistical finding per parameter whose z-score exceeds the
        threshold, in the fixed parameter order, followed by the pattern
        findings. */
    method DetectAnomalies(data: Reading, sqrt: real -> real, now: int) returns (r: seq<Anomaly>)
      ensures r == MLFindings(data, HistoryOf(data.pumpId), sqrt, now)
    {
      var history := HistoryOf(data.pumpId);
      if |history| < MinHistory {
        return [];
      }
      var anomalies: seq<Anomaly> := [];
      var i := 0;
      while i < |AllParams|
        invariant 0 <= i <= |AllParams|
        invariant anomalies == StatFindingsFor(data, history, sqrt, ZFired(data, history, sqrt, AllParams[..i]), now)
      {
        var param := AllParams[i];
        var zScore := ScoreParameter(data, history, sqrt, param);
        Seqs.TakeOneMore(AllParams, i);
        StatFindingsStep(data, history, sqrt, AllParams[..i], param, now);
        if Greater(zScore, ZThreshold) {
          anomalies := anomalies + [StatFinding(data, param, zScore, now)];
        }
        i := i + 1;
      }
      assert AllParams[..i] == AllParams;
      var patternAnomalies := DetectPatterns(data, now);
      anomalies := anomalies + patternAnomalies;
      return anomalies;
    }

    /** The z-score step of `detectAnomalies` for one parameter: the mean
        and population standard deviation of the window, then the absolute
        deviation of the reading in standard deviations. With a true square
        root the score of a reading in the window is NaN or at most
        sqrt(N - 1); a window without spread gives NaN at its mean and
        +Infinity elsewhere; otherwise the 2.5 threshold is passed exactly
        when the squared deviation exceeds 6.25 times the variance. */
    static method ScoreParameter(data: Reading, history: seq<Reading>, sqrt: real -> real, param: Param)
      returns (zScore: Num)
      requires |history| > 0
      ensures zScore == ZScoreOf(data, history, sqrt, param)
      ensures IsSqrt(sqrt) && data in history ==>
        zScore.NaN? || (zScore.Fin? && zScore.value >= 0.0 && Square(zScore.value) <= (|history| - 1) as real)
      ensures IsSqrt(sqrt) && Variance(Values(history, param)) == 0.0 ==>
        zScore == (if data.Value(param) == Mean(Values(history, param)) then NaN else PosInf)
      ensures IsSqrt(sqrt) && Variance(Values(history, param)) > 0.0 ==>
        (Greater(zScore, ZThreshold) <==>
         Square(data.Value(param) - Mean(Values(history, param))) > ZThreshold * ZThreshold * Variance(Values(history, param)))
    {
      var values := Values(history, param);
      var mean := Sum(values) / (|values| as real);
      var std := sqrt(SumSquaredDeviations(values, mean) / (|values| as real));
      zScore := NumAbs(Div(data.Value(param) - mean, std));
      if IsSqrt(sqrt) {
        if data in history {
          ZScoreInWindow(data, history, sqrt, param);
        }
        if Variance(values) == 0.0 {
          ZScoreZeroVariance(data.Value(param), values, sqrt);
        } else if Variance(values) > 0.0 {
          ZScoreSquaredForm(data.Value(param), values, sqrt, ZThreshold);
        }
      }
    }

    /** `predictFailure` on the pump's history; its contract is PredictBounds
        applied to that history. */
    function PredictFailure(pumpId: string): (r: Prediction)
      reads this
      ensures |HistoryOf(pumpId)| < 20 ==> r == Estimate(0.0, 365)
      ensures r.Estimate? ==> 0.0 <= r.probability <= 0.95 && 18 <= r.timeToFailure <= 365
    {
      PredictBounds(HistoryOf(pumpId));
      Predict(HistoryOf(pumpId))
    }
  }

  /** `history.map(d => d[param])`. */
  function Values(h: seq<Reading>, p: Param): (xs: seq<real>)
    ensures |xs| == |h|
  {
    seq(|h|, i requires 0 <= i < |h| => h[i].Value(p))
  }

  /** `Math.abs((v - mean) / std)` over the window xs, with std the square
      root of the population variance. */
  function ZScore(v: real, xs: seq<real>, sqrt: real -> real): Num
    requires |xs| > 0
  {
    NumAbs(Div(v - Mean(xs), sqrt(Variance(xs))))
  }

  /** The z-score of the reading's parameter p against history h. */
  function ZScoreOf(data: Reading, h: seq<Reading>, sqrt: real -> real, p: Param): Num
    requires |h| > 0
  {
    ZScore(data.Value(p), Values(h, p), sqrt)
  }

  /** `calculateMLSeverity`: above 4 critical, above 3.5 high, above 3 medium. */
  function MLSeverity(z: Num): Severity {
    Classify(z, 4.0, 3.5, 3.0)
  }

  /** `Math.min(0.99, zScore / 4)`, for a score above the threshold. */
  function Confidence(z: Num): (c: real)
    requires Greater(z, ZThreshold)
    ensures 0.625 < c <= 0.99
  {
    match z
    case Fin(v) => Min(0.99, v / 4.0)
    case PosInf => 0.99
  }

  /** `Math.max(1, Math.round(30 / zScore))`: 30 / Infinity is 0. */
  function DaysToFailure(z: Num): (d: int)
    requires Greater(z, ZThreshold)
    ensures 1 <= d <= 12
  {
    var estimate := Round(match z case Fin(v) => 30.0 / v case PosInf => 0.0);
    if estimate >= 1 then estimate else 1
  }

  const Urgent := "Immediate action required."
  const Routine := "Schedule maintenance accordingly."

  /** The text of `getMLRecommendation` for a given days-to-failure estimate. */
  function MLAdviceText(p: Param, severity: Severity, days: int): string {
    AdviceHead(p, days) + AdviceTail(severity)
  }

  /** The estimate sentence that opens the advice. */
  function AdviceHead(p: Param, days: int): string {
    "ML prediction: " + p.Name() + " anomaly detected. Estimated time to potential failure: "
      + IntToString(days) + " days. "
  }

  /** The closing sentence: the call to act now, or to schedule. */
  function AdviceTail(severity: Severity): string {
    if severity == Critical then Urgent else Routine
  }

  /** `getMLRecommendation`. */
  function MLRecommendation(p: Param, severity: Severity, z: Num): string
    requires Greater(z, ZThreshold)
  {
    MLAdviceText(p, severity, DaysToFailure(z))
  }

  /** The recommendation asks for immediate action exactly for critical
      findings, whatever the day estimate. */
  lemma RecommendationUrgency(p: Param, severity: Severity, days: int)
    ensures EndsWith(MLAdviceText(p, severity, days), Urgent) <==> severity == Critical
  {
    var head := AdviceHead(p, days);
    EndsWithAppend(head, Urgent, Urgent);
    EndsWithAppend(head, Routine, Urgent);
    assert !EndsWith(Routine, Urgent) by {
      assert |Routine| - |Urgent| == 7;
      // the two closing sentences differ in their second-to-last character
      assert Routine[7..][24] == 'y' && Urgent[24] == 'd';
    }
  }

  lemma EndsWithAppend(a: string, b: string, suffix: string)
    requires |suffix| <= |b|
    ensures EndsWith(a + b, suffix) <==> EndsWith(b, suffix)
  {
    assert (a + b)[|a + b| - |suffix|..] == b[|b| - |suffix|..];
  }

  /** The type string of a statistical finding: `ml_anomaly_<param>`. */
  function StatKind(p: Param): string {
    "ml_anomaly_" + p.Name()
  }

  /** One statistical finding. */
  function StatFinding(data: Reading, p: Param, z: Num, now: int): Anomaly
    requires Greater(z, ZThreshold)
  {
    var severity := MLSeverity(z);
    Anomaly(
      "ml-" + data.pumpId + "-" + p.Name() + "-" + IntToString(now),
      data.pumpId,
      data.timestamp,
      StatKind(p),
      severity,
      Confidence(z),
      ScoreText(p, z),
      EstimateAdvice(p, severity, DaysToFailure(z)),
      [p])
  }

  /** The parameters among ps whose z-score exceeds the threshold, in order. */
  function ZFired(data: Reading, h: seq<Reading>, sqrt: real -> real, ps: seq<Param>): seq<Param>
    requires |h| > 0
  {
    Seqs.Filter((p: Param) => Greater(ZScoreOf(data, h, sqrt, p), ZThreshold), ps)
  }

  lemma ZFiredMember(data: Reading, h: seq<Reading>, sqrt: real -> real, ps: seq<Param>, p: Param)
    requires |h| > 0
    ensures p in ZFired(data, h, sqrt, ps) <==> p in ps && Greater(ZScoreOf(data, h, sqrt, p), ZThreshold)
  {
  }

  lemma ZFiredSnoc(data: Reading, h: seq<Reading>, sqrt: real -> real, ps: seq<Param>, p: Param)
    requires |h| > 0
    ensures ZFired(data, h, sqrt, ps + [p]) ==
      ZFired(data, h, sqrt, ps) + (if Greater(ZScoreOf(data, h, sqrt, p), ZThreshold) then [p] else [])
  {
    assert (ps + [p])[..|ps|] == ps;
  }

  /** The statistical findings for the parameters qs, all above threshold. */
  function StatFindingsFor(data: Reading, h: seq<Reading>, sqrt: real -> real, qs: seq<Param>, now: int): seq<Anomaly>
    requires |h| > 0
    requires forall q :: q in qs ==> Greater(ZScoreOf(data, h, sqrt, q), ZThreshold)
  {
    seq(|qs|, i requires 0 <= i < |qs| => StatFinding(data, qs[i], ZScoreOf(data, h, sqrt, qs[i]), now))
  }

  lemma StatFindingsForSnoc(data: Reading, h: seq<Reading>, sqrt: real -> real, qs: seq<Param>, p: Param, now: int)
    requires |h| > 0
    requires forall q :: q in qs + [p] ==> Greater(ZScoreOf(data, h, sqrt, q), ZThreshold)
    ensures StatFindingsFor(data, h, sqrt, qs + [p], now) ==
      StatFindingsFor(data, h, sqrt, qs, now) + [StatFinding(data, p, ZScoreOf(data, h, sqrt, p), now)]
  {
  }

  /** One more parameter visited: its finding is appended when it fires. */
  lemma StatFindingsStep(data: Reading, h: seq<Reading>, sqrt: real -> real, ps: seq<Param>, p: Param, now: int)
    requires |h| > 0
    ensures var z := ZScoreOf(data, h, sqrt, p);
      StatFindingsFor(data, h, sqrt, ZFired(data, h, sqrt, ps + [p]), now) ==
      StatFindingsFor(data, h, sqrt, ZFired(data, h, sqrt, ps), now)
        + (if Greater(z, ZThreshold) then [StatFinding(data, p, z, now)] else [])
  {
    var fired := ZFired(data, h, sqrt, ps);
    ZFiredSnoc(data, h, sqrt, ps, p);
    if Greater(ZScoreOf(data, h, sqrt, p), ZThreshold) {
      StatFindingsForSnoc(data, h, sqrt, fired, p, now);
    }
  }

  /** All statistical findings for the reading against history h. */
  function StatFindings(data: Reading, h: seq<Reading>, sqrt: real -> real, now: int): seq<Anomaly>
    requires |h| > 0
  {
    var fired := ZFired(data, h, sqrt, AllParams);
    assert forall q :: q in fired ==> Greater(ZScoreOf(data, h, sqrt, q), ZThreshold) by {
      forall q | q in fired
        ensures Greater(ZScoreOf(data, h, sqrt, q), ZThreshold)
      {
        ZFiredMember(data, h, sqrt, AllParams, q);
      }
    }
    StatFindingsFor(data, h, sqrt, fired, now)
  }

  /** What `detectAnomalies` returns for the reading against history h. */
  function MLFindings(data: Reading, h: seq<Reading>, sqrt: real -> real, now: int): seq<Anomaly> {
    if |h| < MinHistory then [] else StatFindings(data, h, sqrt, now) + DetectPatterns(data, now)
  }

  /** Statistical findings come in the fixed parameter order, one per
      parameter at most. */
  lemma ZFiredInOrder(data: Reading, h: seq<Reading>, sqrt: real -> real)
    requires |h| > 0
    ensures var q := ZFired(data, h, sqrt, AllParams);
      forall i, j :: 0 <= i < j < |q| ==> q[i].Index() < q[j].Index()
  {
    var key := (p: Param) => p.Index() as int;
    AllParamsIndexed();
    assert Seqs.IncreasingBy(key, AllParams);
    Seqs.FilterIncreasing((p: Param) => Greater(ZScoreOf(data, h, sqrt, p), ZThreshold), key, AllParams);
  }

  /** The shape of the statistical findings: one per parameter above the
      threshold, with that parameter alone and its severity. */
  lemma StatFindingsShape(data: Reading, h: seq<Reading>, sqrt: real -> real, now: int)
    requires |h| > 0
    ensures var q := ZFired(data, h, sqrt, AllParams);
      var stat := StatFindings(data, h, sqrt, now);
      |stat| == |q|
      && forall i :: 0 <= i < |q| ==>
        Greater(ZScoreOf(data, h, sqrt, q[i]), ZThreshold)
        && stat[i].parameters == [q[i]]
        && stat[i].severity == MLSeverity(ZScoreOf(data, h, sqrt, q[i]))
  {
    var q := ZFired(data, h, sqrt, AllParams);
    forall i | 0 <= i < |q|
      ensures Greater(ZScoreOf(data, h, sqrt, q[i]), ZThreshold)
    {
      ZFiredMember(data, h, sqrt, AllParams, q[i]);
    }
  }

  /** Every pattern finding names two parameters. */
  lemma PatternParameterPairs(current: Reading, now: int)
    ensures forall i :: 0 <= i < |DetectPatterns(current, now)| ==> |DetectPatterns(current, now)[i].parameters| == 2
  {
  }

  lemma SplitIndex(r: seq<Anomaly>, stat: seq<Anomaly>, pat: seq<Anomaly>, q: seq<Param>, p: Param)
    requires r == stat + pat && |stat| == |q|
    requires forall i :: 0 <= i < |q| ==> stat[i].parameters == [q[i]]
    requires forall i :: 0 <= i < |pat| ==> |pat[i].parameters| == 2
    ensures (exists i :: 0 <= i < |r| && r[i].parameters == [p]) <==> p in q
  {
    if p in q {
      var i :| 0 <= i < |q| && q[i] == p;
      assert r[i] == stat[i];
    }
    forall i | 0 <= i < |r| && r[i].parameters == [p]
      ensures p in q
    {
      if i < |stat| {
        assert r[i] == stat[i];
        assert q[i] == p;
      } else {
        assert r[i] == pat[i - |stat|];
      }
    }
  }

  /** With too short a history nothing is reported, pattern findings
      included; otherwise a statistical finding for p is reported exactly
      when p's z-score exceeds the threshold. */
  lemma StatFindingIffAboveThreshold(data: Reading, h: seq<Reading>, sqrt: real -> real, now: int, p: Param)
    ensures |h| < MinHistory ==> MLFindings(data, h, sqrt, now) == []
    ensures |h| >= MinHistory ==>
      ((exists i :: 0 <= i < |MLFindings(data, h, sqrt, now)| && MLFindings(data, h, sqrt, now)[i].parameters == [p])
        <==> Greater(ZScoreOf(data, h, sqrt, p), ZThreshold))
  {
    if |h| >= MinHistory {
      AllParamsIndexed();
      ZFiredMember(data, h, sqrt, AllParams, p);
      StatFindingsShape(data, h, sqrt, now);
      PatternParameterPairs(data, now);
      SplitIndex(MLFindings(data, h, sqrt, now), StatFindings(data, h, sqrt, now), DetectPatterns(data, now),
        ZFired(data, h, sqrt, AllParams), p);
    }
  }

  /** The fields of every statistical finding: pump and timestamp of the
      reading, type `ml_anomaly_<param>`, the parameter alone, confidence
      min(0.99, z/4) in (0.625, 0.99], severity from the z-score, and an
      estimate of 1 to 12 days whose text asks for immediate action exactly
      when the finding is critical. */
  lemma StatFindingFields(data: Reading, h: seq<Reading>, sqrt: real -> real, now: int, i: nat)
    requires |h| > 0 && i < |StatFindings(data, h, sqrt, now)|
    ensures var a := StatFindings(data, h, sqrt, now)[i];
      |a.parameters| == 1
      && var p := a.parameters[0];
      var z := ZScoreOf(data, h, sqrt, p);
      && Greater(z, ZThreshold)
      && a.pumpId == data.pumpId && a.timestamp == data.timestamp
      && a.kind == StatKind(p)
      && a.severity == MLSeverity(z)
      && a.confidence == Confidence(z) && 0.625 < a.confidence <= 0.99
      && a.recommendation == EstimateAdvice(p, a.severity, DaysToFailure(z))
      && 1 <= a.recommendation.days <= 12
      && (EndsWith(MLRecommendation(p, a.severity, z), Urgent) <==> a.severity == Critical)
  {
    var q := ZFired(data, h, sqrt, AllParams);
    ZFiredMember(data, h, sqrt, AllParams, q[i]);
    var z := ZScoreOf(data, h, sqrt, q[i]);
    RecommendationUrgency(q[i], MLSeverity(z), DaysToFailure(z));
  }

  lemma AbsQuotient(d: real, s: real)
    requires s > 0.0
    ensures Abs(d / s) == Abs(d) / s
  {
  }

  /** The emission test in squared form: with a non-zero variance, the
      z-score exceeds t >= 0 exactly when (v - mean)^2 > t^2 * variance, so
      the square root is not needed to decide whether a finding is emitted. */
  lemma ZScoreSquaredForm(v: real, xs: seq<real>, sqrt: real -> real, t: real)
    requires IsSqrt(sqrt) && |xs| > 0 && Variance(xs) > 0.0 && t >= 0.0
    ensures Greater(ZScore(v, xs, sqrt), t) <==> Square(v - Mean(xs)) > t * t * Variance(xs)
  {
    var variance := Variance(xs);
    var s := sqrt(variance);
    var d := v - Mean(xs);
    SqrtOf(sqrt, variance);
    AbsQuotient(d, s);
    assert ZScore(v, xs, sqrt) == Fin(Abs(d) / s);
    QuotientAbove(Abs(d), s, t);
    SquareAbove(Abs(d), t * s);
    assert Square(Abs(d)) == Square(d);
    assert Square(t * s) == t * t * Square(s);
  }

  /** With zero variance the z-score is 0 / 0 (NaN, no finding) for a value
      at the mean and +Infinity (a critical finding) for any other value. */
  lemma ZScoreZeroVariance(v: real, xs: seq<real>, sqrt: real -> real)
    requires IsSqrt(sqrt) && |xs| > 0 && Variance(xs) == 0.0
    ensures v == Mean(xs) ==> ZScore(v, xs, sqrt) == NaN
    ensures v != Mean(xs) ==> ZScore(v, xs, sqrt) == PosInf && MLSeverity(PosInf) == Critical
  {
    SqrtOf(sqrt, 0.0);
  }

  /** When the reading is itself in the window (as it is once addData has
      run) its z-score is NaN or a finite z with z^2 <= N - 1 (Samuelson's
      inequality), never +Infinity. */
  lemma ZScoreInWindow(data: Reading, h: seq<Reading>, sqrt: real -> real, p: Param)
    requires IsSqrt(sqrt) && data in h
    ensures var z := ZScoreOf(data, h, sqrt, p);
      z.NaN? || (z.Fin? && z.value >= 0.0 && Square(z.value) <= (|h| - 1) as real)
  {
    var k :| 0 <= k < |h| && h[k] == data;
    var xs := Values(h, p);
    assert xs[k] == data.Value(p);
    var variance := Variance(xs);
    var d := data.Value(p) - Mean(xs);
    SamuelsonBound(xs, k);
    VarianceNonNegative(xs);
    SquarePositive(d);
    if variance == 0.0 {
      ZScoreZeroVariance(data.Value(p), xs, sqrt);
    } else {
      var s := sqrt(variance);
      SqrtOf(sqrt, variance);
      AbsQuotient(d, s);
      assert Square(Abs(d)) == Square(d);
      QuotientSquareBound(Abs(d), s, variance, (|h| - 1) as real);
    }
  }

  lemma RootBound(z: real, c: real)
    requires z >= 0.0 && c >= 0.0 && Square(z) <= Square(c)
    ensures z <= c
  {
    SquareAbove(z, c);
  }

  /** Consequence for short windows that contain the reading: up to 10
      readings every statistical finding is low, and up to 17 none is
      critical; with the minimum history of 10 the statistical detector can
      only report low severity. */
  lemma SmallWindowSeverity(data: Reading, h: seq<Reading>, sqrt: real -> real, now: int, i: nat)
    requires IsSqrt(sqrt) && data in h && i < |StatFindings(data, h, sqrt, now)|
    ensures |h| <= 10 ==> StatFindings(data, h, sqrt, now)[i].severity == Low
    ensures |h| <= 17 ==> StatFindings(data, h, sqrt, now)[i].severity != Critical
  {
    StatFindingsShape(data, h, sqrt, now);
    var p := ZFired(data, h, sqrt, AllParams)[i];
    ZScoreInWindow(data, h, sqrt, p);
    var z := ZScoreOf(data, h, sqrt, p);
    if |h| <= 10 {
      RootBound(z.value, 3.0);
    }
    if |h| <= 17 {
      RootBound(z.value, 4.0);
    }
  }

  /** The simulator's failing pump meets all three pattern conditions on
      every reading, and the three healthy pumps meet none. */
  lemma ShippedPumpPatterns(pumpId: string, d: SampleData.Draws, stamp: int, rule: Rule)
    requires pumpId in SampleData.BaseValues && d.Valid()
    ensures pumpId == "PUMP-004" ==> Fires(rule, SampleData.GenerateSensorData(pumpId, stamp, d))
    ensures pumpId != "PUMP-004" ==> !Fires(rule, SampleData.GenerateSensorData(pumpId, stamp, d))
  {
    SampleData.GeneratedWithinNoiseBand(pumpId, stamp, d, Vibration);
    SampleData.GeneratedWithinNoiseBand(pumpId, stamp, d, Temperature);
    SampleData.GeneratedWithinNoiseBand(pumpId, stamp, d, Pressure);
    SampleData.GeneratedWithinNoiseBand(pumpId, stamp, d, FlowRate);
    SampleData.GeneratedWithinNoiseBand(pumpId, stamp, d, Current);
    SampleData.GeneratedWithinNoiseBand(pumpId, stamp, d, Voltage);
  }

  /** A rule's condition on the current reading (strict inequalities). */
  predicate Fires(rule: Rule, r: Reading) {
    match rule
    case BearingRule => r.vibration > 4.0 && r.temperature > 70.0
    case ImpellerRule => r.pressure < 2.5 && r.flowRate < 160.0
    case ElectricalRule => r.current > 12.0 && r.voltage < 450.0
  }

  function RuleTag(rule: Rule): string {
    match rule
    case BearingRule => "bearing"
    case ImpellerRule => "impeller"
    case ElectricalRule => "electrical"
  }

  function RuleKind(rule: Rule): string {
    match rule
    case BearingRule => "bearing_degradation"
    case ImpellerRule => "impeller_wear"
    case ElectricalRule => "electrical_fault"
  }

  function RuleSeverity(rule: Rule): Severity {
    match rule
    case BearingRule => High
    case ImpellerRule => Medium
    case ElectricalRule => Critical
  }

  function RuleConfidence(rule: Rule): real {
    match rule
    case BearingRule => 0.87
    case ImpellerRule => 0.82
    case ElectricalRule => 0.91
  }

  function RuleParameters(rule: Rule): seq<Param> {
    match rule
    case BearingRule => [Vibration, Temperature]
    case ImpellerRule => [Pressure, FlowRate]
    case ElectricalRule => [Current, Voltage]
  }

  /** The description text of a rule's finding. */
  function RuleSummary(rule: Rule): string {
    match rule
    case BearingRule => "ML pattern analysis indicates potential bearing degradation"
    case ImpellerRule => "ML pattern suggests impeller wear or blockage"
    case ElectricalRule => "ML analysis detects electrical system anomaly"
  }

  /** The recommendation text of a rule's finding. */
  function RuleAdvice(rule: Rule): string {
    match rule
    case BearingRule => "Schedule bearing inspection and replacement within 48 hours"
    case ImpellerRule => "Inspect impeller condition and clear any blockages"
    case ElectricalRule => "Immediate electrical system inspection required"
  }

  /** The finding a rule reports. */
  function RuleFinding(rule: Rule, current: Reading, now: int): Anomaly {
    Anomaly(
      "pattern-" + RuleTag(rule) + "-" + current.pumpId + "-" + IntToString(now),
      current.pumpId,
      current.timestamp,
      RuleKind(rule),
      RuleSeverity(rule),
      RuleConfidence(rule),
      PatternText(rule),
      RuleAdviceOf(rule),
      RuleParameters(rule))
  }

  const AllRules: seq<Rule> := [BearingRule, ImpellerRule, ElectricalRule]

  /** `detectPatterns`: each rule that fires contributes one finding (the
      source's history argument is unused). */
  function DetectPatterns(current: Reading, now: int): seq<Anomaly> {
    (if Fires(BearingRule, current) then [RuleFinding(BearingRule, current, now)] else [])
    + (if Fires(ImpellerRule, current) then [RuleFinding(ImpellerRule, current, now)] else [])
    + (if Fires(ElectricalRule, current) then [RuleFinding(ElectricalRule, current, now)] else [])
  }

  /** The rules that fire on the reading, in the order they are tried. */
  function FiredRules(current: Reading): seq<Rule> {
    Seqs.Filter((rule: Rule) => Fires(rule, current), AllRules)
  }

  lemma FiredRulesUnfolded(current: Reading)
    ensures FiredRules(current) ==
      (if Fires(BearingRule, current) then [BearingRule] else [])
      + (if Fires(ImpellerRule, current) then [ImpellerRule] else [])
      + (if Fires(ElectricalRule, current) then [ElectricalRule] else [])
  {
    var f := (rule: Rule) => Fires(rule, current);
    assert AllRules == [BearingRule] + ([ImpellerRule] + ([ElectricalRule] + []));
    Seqs.FilterCons(f, BearingRule, [ImpellerRule] + ([ElectricalRule] + []));
    Seqs.FilterCons(f, ImpellerRule, [ElectricalRule] + []);
    Seqs.FilterCons(f, ElectricalRule, []);
  }

  /** The pattern findings are those of the rules that fire, one each, in
      the order bearing, impeller, electrical. */
  lemma PatternRules(current: Reading, now: int)
    ensures var r := DetectPatterns(current, now);
      var fired := FiredRules(current);
      |r| == |fired| <= 3
      && forall i :: 0 <= i < |r| ==> r[i] == RuleFinding(fired[i], current, now)
  {
    FiredRulesUnfolded(current);
    var bearing, impeller := RulePiece(BearingRule, current, now), RulePiece(ImpellerRule, current, now);
    var electrical := RulePiece(ElectricalRule, current, now);
    FindingsOfConcat(bearing.0, bearing.1, impeller.0, impeller.1, current, now);
    FindingsOfConcat(bearing.0 + impeller.0, bearing.1 + impeller.1, electrical.0, electrical.1, current, now);
  }

  /** One rule's share of the findings and of the fired rules. */
  function RulePiece(rule: Rule, current: Reading, now: int): (piece: (seq<Anomaly>, seq<Rule>))
    ensures FindingsOf(piece.0, piece.1, current, now) && |piece.1| <= 1
  {
    if Fires(rule, current) then ([RuleFinding(rule, current, now)], [rule]) else ([], [])
  }

  /** r holds one finding per rule of fired, in the same order. */
  predicate FindingsOf(r: seq<Anomaly>, fired: seq<Rule>, current: Reading, now: int) {
    |r| == |fired| && forall i :: 0 <= i < |r| ==> r[i] == RuleFinding(fired[i], current, now)
  }

  lemma FindingsOfConcat(r1: seq<Anomaly>, f1: seq<Rule>, r2: seq<Anomaly>, f2: seq<Rule>, current: Reading, now: int)
    requires FindingsOf(r1, f1, current, now) && FindingsOf(r2, f2, current, now)
    ensures FindingsOf(r1 + r2, f1 + f2, current, now)
  {
    forall i | 0 <= i < |r1 + r2|
      ensures (r1 + r2)[i] == RuleFinding((f1 + f2)[i], current, now)
    {
      if i >= |r1| {
        assert (r1 + r2)[i] == r2[i - |r1|] && (f1 + f2)[i] == f2[i - |r1|];
      }
    }
  }

  /** A rule's finding is reported exactly when the rule fires. */
  lemma PatternReportedIffFires(current: Reading, now: int, rule: Rule)
    ensures RuleFinding(rule, current, now) in DetectPatterns(current, now) <==> Fires(rule, current)
  {
    KindsDistinct(current, now);
  }

  /** Findings of different rules differ (their types differ). */
  lemma KindsDistinct(current: Reading, now: int)
    ensures RuleFinding(BearingRule, current, now) != RuleFinding(ImpellerRule, current, now)
    ensures RuleFinding(BearingRule, current, now) != RuleFinding(ElectricalRule, current, now)
    ensures RuleFinding(ImpellerRule, current, now) != RuleFinding(ElectricalRule, current, now)
  {
    assert |RuleKind(BearingRule)| == 19 && |RuleKind(ImpellerRule)| == 13 && |RuleKind(ElectricalRule)| == 16;
  }

  /** Each pattern finding carries its rule's fixed severity, confidence and
      parameter pair, and the reading's pump and timestamp. */
  lemma PatternFindingFields(rule: Rule, current: Reading, now: int)
    ensures var a := RuleFinding(rule, current, now);
      a.pumpId == current.pumpId && a.timestamp == current.timestamp
      && a.kind == RuleKind(rule) && |a.parameters| == 2
      && (rule == BearingRule ==> a.severity == High && a.confidence == 0.87 && a.parameters == [Vibration, Temperature])
      && (rule == ImpellerRule ==> a.severity == Medium && a.confidence == 0.82 && a.parameters == [Pressure, FlowRate])
      && (rule == ElectricalRule ==> a.severity == Critical && a.confidence == 0.91 && a.parameters == [Current, Voltage])
  {
  }

  /** A failure prediction: probability and days to failure, or both NaN
      when a trend is 0 / 0 or the two trends are opposite infinities. */
  datatype Prediction = Estimate(probability: real, timeToFailure: int) | Indeterminate

  /** `(recentAvg - olderAvg) / olderAvg`. */
  function Trend(recentMean: real, olderMean: real): Num {
    Div(recentMean - olderMean, olderMean)
  }

  /** `Math.max(1, Math.round(365 * (1 - p)))`. */
  function TimeToFailure(p: real): int {
    var estimate := Round(365.0 * (1.0 - p));
    if estimate >= 1 then estimate else 1
  }

  /** `Math.min(0.95, Math.max(0, 10 * (vibrationTrend + temperatureTrend)))`. */
  function Probability(vibrationTrend: Num, temperatureTrend: Num): Num {
    NumMin(Fin(0.95), NumMax(Fin(0.0), NumScale(10.0, NumAdd(vibrationTrend, temperatureTrend))))
  }

  /** `predictFailure`: the mean vibration and temperature of the last ten
      readings against those of the ten before them. */
  function Predict(h: seq<Reading>): Prediction {
    if |h| < 20 then Estimate(0.0, 365)
    else
      var recent := Seqs.KeepLast(h, 10);
      var older := h[|h| - 20..|h| - 10];
      var vibrationTrend := Trend(Mean(Values(recent, Vibration)), Mean(Values(older, Vibration)));
      var temperatureTrend := Trend(Mean(Values(recent, Temperature)), Mean(Values(older, Temperature)));
      match Probability(vibrationTrend, temperatureTrend)
      case Fin(p) => Estimate(p, TimeToFailure(p))
      case _ => Indeterminate
  }

  /** The clamp keeps the probability in [0, 0.95] whatever the trends, and
      is NaN only when the trends' sum is. */
  lemma ProbabilityClamped(vibrationTrend: Num, temperatureTrend: Num)
    ensures var p := Probability(vibrationTrend, temperatureTrend);
      (p.NaN? <==> NumAdd(vibrationTrend, temperatureTrend).NaN?)
      && (!p.NaN? ==> p.Fin? && 0.0 <= p.value <= 0.95)
  {
  }

  /** The estimated days to failure shrink as the probability grows. */
  lemma TimeToFailureMonotone(p1: real, p2: real)
    requires p1 <= p2
    ensures TimeToFailure(p2) <= TimeToFailure(p1)
  {
    assert 365.0 * (1.0 - p2) <= 365.0 * (1.0 - p1);
  }

  /** With fewer than twenty readings the prediction is the no-signal
      default, probability 0 and 365 days; every estimate has a probability
      in [0, 0.95] and 18 to 365 days. */
  lemma PredictBounds(h: seq<Reading>)
    ensures |h| < 20 ==> Predict(h) == Estimate(0.0, 365)
    ensures Predict(h).Estimate? ==>
      0.0 <= Predict(h).probability <= 0.95 && 18 <= Predict(h).timeToFailure <= 365
  {
    if |h| >= 20 && Predict(h).Estimate? {
      var p := Predict(h).probability;
      var recent := Seqs.KeepLast(h, 10);
      var older := h[|h| - 20..|h| - 10];
      ProbabilityClamped(Trend(Mean(Values(recent, Vibration)), Mean(Values(older, Vibration))),
        Trend(Mean(Values(recent, Temperature)), Mean(Values(older, Temperature))));
      TimeToFailureMonotone(0.0, p);
      TimeToFailureMonotone(p, 0.95);
      assert TimeToFailure(0.95) == 18;
      assert TimeToFailure(0.0) == 365;
    }
  }

  /** The plain formula: with nonzero older means both trends are ordinary
      ratios and the estimate is the clamped sum, scaled by ten. */
  lemma PredictWithBaselines(h: seq<Reading>)
    requires |h| >= 20
    requires Mean(Values(h[|h| - 20..|h| - 10], Vibration)) != 0.0
    requires Mean(Values(h[|h| - 20..|h| - 10], Temperature)) != 0.0
    ensures var rv, ov := Mean(Values(h[|h| - 10..], Vibration)), Mean(Values(h[|h| - 20..|h| - 10], Vibration));
      var rt, ot := Mean(Values(h[|h| - 10..], Temperature)), Mean(Values(h[|h| - 20..|h| - 10], Temperature));
      var p := Min(0.95, Max(0.0, 10.0 * ((rv - ov) / ov + (rt - ot) / ot)));
      Predict(h) == Estimate(p, TimeToFailure(p))
  {
  }

  /** The prediction is indeterminate only when an older mean is zero. */
  lemma IndeterminateNeedsZeroBaseline(h: seq<Reading>)
    requires Predict(h).Indeterminate?
    ensures |h| >= 20
    ensures Mean(Values(h[|h| - 20..|h| - 10], Vibration)) == 0.0
      || Mean(Values(h[|h| - 20..|h| - 10], Temperature)) == 0.0
  {
    if |h| >= 20 && Mean(Values(h[|h| - 20..|h| - 10], Vibration)) != 0.0
      && Mean(Values(h[|h| - 20..|h| - 10], Temperature)) != 0.0 {
      PredictWithBaselines(h);
    }
  }

  /** Only the last twenty readings matter. */
  lemma PredictLastTwenty(h: seq<Reading>)
    requires |h| >= 20
    ensures Predict(h) == Predict(h[|h| - 20..])
  {
    var t := h[|h| - 20..];
    assert Seqs.KeepLast(t, 10) == Seqs.KeepLast(h, 10);
    assert t[|t| - 20..|t| - 10] == h[|h| - 20..|h| - 10];
  }
}
