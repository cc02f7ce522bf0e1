/** The physics threshold checker: each of the six parameters of a reading is
    compared with the pump's inclusive operating range, and every value
    outside it becomes a finding whose severity comes from the relative
    deviation and whose recommendation comes from a fixed advice table. */
module PhysicsChecker {
  import opened Types
  import opened Text
  import SampleData
  import Seqs

  /** The severity breakpoints: above 0.5 critical, above 0.3 high, above 0.1
      medium, otherwise (NaN included) low. */
  function SeverityForDeviation(d: Num): Severity {
    Classify(d, 0.5, 0.3, 0.1)
  }

  /** max(|v - max| / range, |v - min| / range) with range = max - min, in
      IEEE arithmetic: a zero range gives +Infinity, or NaN when v == max. */
  function Deviation(value: real, r: Range): Num {
    var range := r.max - r.min;
    NumMax(Div(Abs(value - r.max), range), Div(Abs(value - r.min), range))
  }

  /** `calculateSeverity`. */
  function CalculateSeverity(value: real, r: Range): Severity {
    SeverityForDeviation(Deviation(value, r))
  }

  /** On a proper range every out-of-range value is critical; a degenerate
      range (min == max) is critical exactly when the value differs from it
      and low otherwise; an inverted range (min > max) is always low. */
  lemma SeverityOfRange(value: real, r: Range)
    ensures r.min < r.max && OutOfRange(value, r) ==> CalculateSeverity(value, r) == Critical
    ensures r.min == r.max ==> (CalculateSeverity(value, r) == Critical <==> value != r.max)
    ensures r.min == r.max ==> (CalculateSeverity(value, r) == Low <==> value == r.max)
    ensures r.min > r.max ==> CalculateSeverity(value, r) == Low
  {
    if r.min < r.max && OutOfRange(value, r) {
      DeviationAboveOne(value, r);
    }
    if r.min > r.max {
      DeviationNonPositive(value, r);
    }
  }

  lemma QuotientAboveOne(a: real, b: real)
    requires 0.0 < b < a
    ensures a / b > 1.0
  {
    assert a / b * b == a;
  }

  lemma QuotientNonPositive(a: real, b: real)
    requires a >= 0.0 && b < 0.0
    ensures a / b <= 0.0
  {
    assert a / b * b == a;
  }

  /** Outside a proper range the relative deviation exceeds 1: the distance to
      the far end of the range is more than the whole range. */
  lemma DeviationAboveOne(value: real, r: Range)
    requires r.min < r.max && OutOfRange(value, r)
    ensures Deviation(value, r).Fin? && Deviation(value, r).value > 1.0
  {
    var range := r.max - r.min;
    if value > r.max {
      QuotientAboveOne(Abs(value - r.min), range);
    } else {
      QuotientAboveOne(Abs(value - r.max), range);
    }
  }

  lemma DeviationNonPositive(value: real, r: Range)
    requires r.min > r.max
    ensures Deviation(value, r).Fin? && Deviation(value, r).value <= 0.0
  {
    var range := r.max - r.min;
    QuotientNonPositive(Abs(value - r.max), range);
    QuotientNonPositive(Abs(value - r.min), range);
  }

  /** The advice table `recommendations`: one entry per parameter and severity. */
  function Advice(p: Param, s: Severity): string {
    match p
    case Vibration => (match s
      case Low => "Monitor vibration levels closely"
      case Medium => "Check bearing alignment and lubrication"
      case High => "Inspect bearings and coupling immediately"
      case Critical => "Stop pump and perform emergency maintenance")
    case Temperature => (match s
      case Low => "Verify cooling system operation"
      case Medium => "Check coolant flow and heat exchanger"
      case High => "Reduce load and inspect cooling system"
      case Critical => "Emergency shutdown - overheating detected")
    case Pressure => (match s
      case Low => "Check for leaks and blockages"
      case Medium => "Inspect impeller and suction line"
      case High => "Verify system pressure requirements"
      case Critical => "Immediate inspection required - pressure critical")
    case FlowRate => (match s
      case Low => "Check for blockages or cavitation"
      case Medium => "Inspect impeller wear and clearances"
      case High => "Verify pump sizing and system requirements"
      case Critical => "Flow rate critical - check for major blockage")
    case Current => (match s
      case Low => "Monitor electrical connections"
      case Medium => "Check motor load and efficiency"
      case High => "Inspect motor and electrical system"
      case Critical => "Electrical fault detected - immediate attention required")
    case Voltage => (match s
      case Low => "Check power supply stability"
      case Medium => "Verify electrical connections"
      case High => "Inspect power distribution system"
      case Critical => "Power supply fault - emergency electrical check")
  }

  const Fallback := "Investigate anomaly"

  /** The parameter whose key is the given string, if any. */
  function ParamNamed(name: string): (r: Option<Param>)
    ensures r.Some? ==> r.value.Name() == name
    ensures forall p: Param :: p.Name() == name ==> r == Some(p)
  {
    if name == "vibration" then Some(Vibration)
    else if name == "temperature" then Some(Temperature)
    else if name == "pressure" then Some(Pressure)
    else if name == "flowRate" then Some(FlowRate)
    else if name == "current" then Some(Current)
    else if name == "voltage" then Some(Voltage)
    else None
  }

  /** The severity whose name is the given string, if any. */
  function SeverityNamed(name: string): (r: Option<Severity>)
    ensures r.Some? ==> r.value.Name() == name
    ensures forall s: Severity :: s.Name() == name ==> r == Some(s)
  {
    if name == "low" then Some(Low)
    else if name == "medium" then Some(Medium)
    else if name == "high" then Some(High)
    else if name == "critical" then Some(Critical)
    else None
  }

  /** `getRecommendation`: the table entry for the parameter key and the
      severity name, or the fallback when either names nothing in the table. */
  function GetRecommendation(parameter: string, severity: string): string {
    match (ParamNamed(parameter), SeverityNamed(severity))
    case (Some(p), Some(s)) => Advice(p, s)
    case _ => Fallback
  }

  /** The lookup is exact: the fallback is returned exactly when the parameter
      or the severity is not a key of the table, and never for a finding's
      own parameter and severity. */
  lemma RecommendationLookup(parameter: string, severity: string)
    ensures GetRecommendation(parameter, severity) == Fallback <==>
      (forall p: Param :: p.Name() != parameter) || (forall s: Severity :: s.Name() != severity)
    ensures forall p: Param, s: Severity :: p.Name() == parameter && s.Name() == severity ==>
      GetRecommendation(parameter, severity) == Advice(p, s)
  {
    match (ParamNamed(parameter), SeverityNamed(severity))
    case (Some(p), Some(s)) => AdviceIsNotFallback(p, s);
    case _ =>
  }

  /** No entry of the table is the fallback text. */
  lemma AdviceIsNotFallback(p: Param, s: Severity)
    ensures Advice(p, s) != Fallback
  {
    match p
    case Vibration => assert Advice(Vibration, s) != Fallback;
    case Temperature => assert Advice(Temperature, s) != Fallback;
    case Pressure => assert Advice(Pressure, s) != Fallback;
    case FlowRate => assert Advice(FlowRate, s) != Fallback;
    case Current => assert Advice(Current, s) != Fallback;
    case Voltage => assert Advice(Voltage, s) != Fallback;
  }

  /** The type string of a threshold finding: `<param>_threshold`. */
  function ThresholdKind(p: Param): string {
    p.Name() + "_threshold"
  }

  /** The finding for parameter p of the reading against range r. */
  function ThresholdFinding(data: Reading, p: Param, r: Range, now: int): Anomaly {
    var value := data.Value(p);
    var severity := CalculateSeverity(value, r);
    Anomaly(
      data.pumpId + "-" + p.Name() + "-" + IntToString(now),
      data.pumpId,
      data.timestamp,
      ThresholdKind(p),
      severity,
      0.95,
      OutOfRangeText(p, value, value > r.max, r),
      TableAdvice(p, severity),
      [p])
  }

  /** The parameters among ps whose value is outside its range, in the order of ps. */
  function Fired(data: Reading, t: Thresholds, ps: seq<Param>): seq<Param> {
    Seqs.Filter((p: Param) => OutOfRange(data.Value(p), t.Get(p)), ps)
  }

  /** One finding per parameter of qs, in the order of qs. */
  function FindingsFor(data: Reading, t: Thresholds, qs: seq<Param>, now: int): seq<Anomaly> {
    seq(|qs|, i requires 0 <= i < |qs| => ThresholdFinding(data, qs[i], t.Get(qs[i]), now))
  }

  lemma FindingsForSnoc(data: Reading, t: Thresholds, qs: seq<Param>, p: Param, now: int)
    ensures FindingsFor(data, t, qs + [p], now) == FindingsFor(data, t, qs, now) + [ThresholdFinding(data, p, t.Get(p), now)]
  {
  }

  /** What `checkThresholds` returns for a pump with ranges t. */
  function ThresholdFindings(data: Reading, t: Thresholds, now: int): seq<Anomaly> {
    FindingsFor(data, t, Fired(data, t, AllParams), now)
  }

  /** A parameter fires exactly when it is among ps and out of range. */
  lemma FiredMember(data: Reading, t: Thresholds, ps: seq<Param>, p: Param)
    ensures p in Fired(data, t, ps) <==> p in ps && OutOfRange(data.Value(p), t.Get(p))
  {
  }

  /** Dropping the parameters that are in range keeps the fixed order. */
  lemma FiredInOrder(data: Reading, t: Thresholds)
    ensures var q := Fired(data, t, AllParams);
      forall i, j :: 0 <= i < j < |q| ==> q[i].Index() < q[j].Index()
  {
    var key := (p: Param) => p.Index() as int;
    AllParamsIndexed();
    assert Seqs.IncreasingBy(key, AllParams);
    Seqs.FilterIncreasing((p: Param) => OutOfRange(data.Value(p), t.Get(p)), key, AllParams);
  }

  /** `checkThresholds`: the threshold table of the reading's pump is looked
      up (an unknown pump makes the source throw, modelled as None), then the
      six parameters are checked in their fixed order. */
  method CheckThresholds(data: Reading, now: int) returns (r: Option<seq<Anomaly>>)
    ensures r.None? <==> data.pumpId !in SampleData.PhysicsThresholds
    ensures r.Some? ==> r.value == ThresholdFindings(data, SampleData.PhysicsThresholds[data.pumpId], now)
  {
    if data.pumpId !in SampleData.PhysicsThresholds {
      return None;
    }
    var thresholds := SampleData.PhysicsThresholds[data.pumpId];
    var anomalies: seq<Anomaly> := [];
    var i := 0;
    while i < |AllParams|
      invariant 0 <= i <= |AllParams|
      invariant anomalies == FindingsFor(data, thresholds, Fired(data, thresholds, AllParams[..i]), now)
    {
      var p := AllParams[i];
      var threshold := thresholds.Get(p);
      var value := data.Value(p);
      assert AllParams[..i + 1][..i] == AllParams[..i];
      if value < threshold.min || value > threshold.max {
        var anomaly := ThresholdFinding(data, p, threshold, now);
        FindingsForSnoc(data, thresholds, Fired(data, thresholds, AllParams[..i]), p, now);
        anomalies := anomalies + [anomaly];
      }
      i := i + 1;
    }
    assert AllParams[..i] == AllParams;
    return Some(anomalies);
  }

  /** No finding at all exactly when every value is inside its range. */
  lemma NoFindingsIffInRange(data: Reading, t: Thresholds, now: int)
    ensures ThresholdFindings(data, t, now) == [] <==>
      forall p: Param :: !OutOfRange(data.Value(p), t.Get(p))
  {
    AllParamsIndexed();
    var q := Fired(data, t, AllParams);
    assert |ThresholdFindings(data, t, now)| == |q|;
    if q != [] {
      FiredMember(data, t, AllParams, q[0]);
    }
    forall p: Param | OutOfRange(data.Value(p), t.Get(p))
      ensures q != []
    {
      FiredMember(data, t, AllParams, p);
    }
  }

  /** A finding for parameter p is emitted exactly when p's value is outside
      its range. */
  lemma FindingIffOutOfRange(data: Reading, t: Thresholds, now: int, p: Param)
    ensures var r := ThresholdFindings(data, t, now);
      (exists i :: 0 <= i < |r| && r[i].parameters == [p]) <==> OutOfRange(data.Value(p), t.Get(p))
  {
    var q := Fired(data, t, AllParams);
    var r := ThresholdFindings(data, t, now);
    AllParamsIndexed();
    FiredMember(data, t, AllParams, p);
    if OutOfRange(data.Value(p), t.Get(p)) {
      var i :| 0 <= i < |q| && q[i] == p;
      assert r[i].parameters == [p];
    }
    forall i | 0 <= i < |r| && r[i].parameters == [p]
      ensures OutOfRange(data.Value(p), t.Get(p))
    {
      assert r[i].parameters == [q[i]];
      FiredMember(data, t, AllParams, q[i]);
    }
  }

  /** At most six findings, each about one parameter, in the fixed order
      vibration, temperature, pressure, flowRate, current, voltage, so no two
      share a parameter. */
  lemma FindingsInFixedOrder(data: Reading, t: Thresholds, now: int)
    ensures var r := ThresholdFindings(data, t, now);
      |r| <= 6
      && (forall i :: 0 <= i < |r| ==> |r[i].parameters| == 1)
      && forall i, j :: 0 <= i < j < |r| ==> r[i].parameters[0].Index() < r[j].parameters[0].Index()
  {
    AllParamsIndexed();
    FiredInOrder(data, t);
  }

  /** The fields every finding carries: the reading's pump and timestamp, type
      `<param>_threshold`, confidence 0.95, the parameter alone, a description
      saying "above" exactly when the value exceeds the maximum, the advice
      table's own entry, and, on a proper range, critical severity. */
  lemma FindingFields(data: Reading, t: Thresholds, now: int, i: nat)
    requires i < |ThresholdFindings(data, t, now)|
    ensures var a := ThresholdFindings(data, t, now)[i];
      |a.parameters| == 1
      && var p := a.parameters[0];
      var range := t.Get(p);
      && OutOfRange(data.Value(p), range)
      && a.pumpId == data.pumpId && a.timestamp == data.timestamp
      && a.kind == ThresholdKind(p)
      && a.confidence == 0.95
      && a.description.OutOfRangeText?
      && (a.description.above <==> data.Value(p) > range.max)
      && a.recommendation == TableAdvice(p, a.severity)
      && GetRecommendation(p.Name(), a.severity.Name()) == Advice(p, a.severity)
      && (range.min < range.max ==> a.severity == Critical)
  {
    var q := Fired(data, t, AllParams);
    var p := q[i];
    FiredMember(data, t, AllParams, p);
    RecommendationLookup(p.Name(), CalculateSeverity(data.Value(p), t.Get(p)).Name());
    SeverityOfRange(data.Value(p), t.Get(p));
  }

  /** On the shipped table every physics finding is critical: the lower
      severities of `calculateSeverity` are unreachable from the checker. */
  lemma ShippedFindingsCritical(data: Reading, now: int, i: nat)
    requires data.pumpId in SampleData.PhysicsThresholds
    requires i < |ThresholdFindings(data, SampleData.PhysicsThresholds[data.pumpId], now)|
    ensures ThresholdFindings(data, SampleData.PhysicsThresholds[data.pumpId], now)[i].severity == Critical
  {
    SampleData.ShippedThresholdsWellFormed();
    FindingFields(data, SampleData.PhysicsThresholds[data.pumpId], now, i);
  }

  /** Readings the simulator produces for the three healthy pumps raise no
      physics finding. */
  lemma HealthyPumpsNoFindings(pumpId: string, d: SampleData.Draws, stamp: int, now: int)
    requires pumpId in {"PUMP-001", "PUMP-002", "PUMP-003"} && d.Valid()
    ensures ThresholdFindings(SampleData.GenerateSensorData(pumpId, stamp, d), SampleData.PhysicsThresholds[pumpId], now) == []
  {
    SampleData.HealthyPumpsInRange(pumpId, stamp, d);
    NoFindingsIffInRange(SampleData.GenerateSensorData(pumpId, stamp, d), SampleData.PhysicsThresholds[pumpId], now);
  }

  /** Readings the simulator produces for the failing pump raise six critical
      findings, one per parameter, in the fixed order. */
  lemma FailingPumpSixCritical(d: SampleData.Draws, stamp: int, now: int)
    requires d.Valid()
    ensures var r := ThresholdFindings(SampleData.GenerateSensorData("PUMP-004", stamp, d), SampleData.PhysicsThresholds["PUMP-004"], now);
      |r| == 6 && forall i :: 0 <= i < 6 ==> r[i].severity == Critical && r[i].parameters == [AllParams[i]]
  {
    var data := SampleData.GenerateSensorData("PUMP-004", stamp, d);
    var t := SampleData.PhysicsThresholds["PUMP-004"];
    SampleData.FailingPumpOutOfRange(stamp, d);
    SampleData.ShippedThresholdsWellFormed();
    Seqs.FilterAll((p: Param) => OutOfRange(data.Value(p), t.Get(p)), AllParams);
    assert Fired(data, t, AllParams) == AllParams;
    forall i | 0 <= i < 6
      ensures ThresholdFindings(data, t, now)[i].severity == Critical
    {
      FindingFields(data, t, now, i);
    }
  }
}
