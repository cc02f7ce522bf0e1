/** Data model of the pump-monitoring engine: readings, threshold ranges,
    pumps and the anomaly records (findings) every detector produces. */
module Types {

  /** Severity of a finding; the order low < medium < high < critical is
      what ranking and status roll-ups rely on. */
  datatype Severity = Low | Medium | High | Critical {
    /** Rank used by the anomaly list's sort: critical 4, high 3, medium 2, low 1. */
    function Rank(): int {
      match this
      case Low => 1
      case Medium => 2
      case High => 3
      case Critical => 4
    }

    /** The string the source stores in the `severity` field. */
    function Name(): string {
      match this
      case Low => "low"
      case Medium => "medium"
      case High => "high"
      case Critical => "critical"
    }
  }

  predicate AtLeast(s: Severity, t: Severity) {
    s.Rank() >= t.Rank()
  }

  /** The six measured parameters of a reading. */
  datatype Param = Vibration | Temperature | Pressure | FlowRate | Current | Voltage {
    /** The key the source uses for the parameter. */
    function Name(): string {
      match this
      case Vibration => "vibration"
      case Temperature => "temperature"
      case Pressure => "pressure"
      case FlowRate => "flowRate"
      case Current => "current"
      case Voltage => "voltage"
    }

    /** Position of the parameter in the fixed check order. */
    function Index(): nat {
      match this
      case Vibration => 0
      case Temperature => 1
      case Pressure => 2
      case FlowRate => 3
      case Current => 4
      case Voltage => 5
    }
  }

  /** The order in which both detectors visit the parameters. */
  const AllParams: seq<Param> := [Vibration, Temperature, Pressure, FlowRate, Current, Voltage]

  lemma AllParamsIndexed()
    ensures |AllParams| == 6
    ensures forall i :: 0 <= i < |AllParams| ==> AllParams[i].Index() == i
    ensures forall p: Param :: p.Index() < 6 && AllParams[p.Index()] == p
  {
  }

  /** One sensor reading (the source's SensorData). */
  datatype Reading = Reading(
    timestamp: int,
    pumpId: string,
    vibration: real,
    temperature: real,
    pressure: real,
    flowRate: real,
    current: real,
    voltage: real)
  {
    function Value(p: Param): real {
      match p
      case Vibration => vibration
      case Temperature => temperature
      case Pressure => pressure
      case FlowRate => flowRate
      case Current => current
      case Voltage => voltage
    }
  }

  /** Inclusive operating range of one parameter. */
  datatype Range = Range(min: real, max: real)

  predicate OutOfRange(value: real, r: Range) {
    value < r.min || value > r.max
  }

  /** One pump's operating ranges (the source's PhysicsThresholds). */
  datatype Thresholds = Thresholds(
    vibration: Range,
    temperature: Range,
    pressure: Range,
    flowRate: Range,
    current: Range,
    voltage: Range)
  {
    function Get(p: Param): Range {
      match p
      case Vibration => vibration
      case Temperature => temperature
      case Pressure => pressure
      case FlowRate => flowRate
      case Current => current
      case Voltage => voltage
    }
  }

  datatype Option<T> = None | Some(value: T)

  /** A JavaScript number as the detectors can produce one: a finite value,
      one of the two infinities, or NaN (what 0 / 0 gives). */
  datatype Num = Fin(value: real) | PosInf | NegInf | NaN

  /** IEEE division of finite a by finite b; every zero divisor the engine can
      produce is +0 (a difference x - x, a square root of +0, or a sum that
      starts from 0), so a nonzero numerator gives an infinity of its own sign. */
  function Div(a: real, b: real): Num {
    if b != 0.0 then Fin(a / b)
    else if a > 0.0 then PosInf
    else if a < 0.0 then NegInf
    else NaN
  }

  /** `Math.abs`. */
  function NumAbs(x: Num): Num {
    match x
    case Fin(v) => Fin(Abs(v))
    case PosInf => PosInf
    case NegInf => PosInf
    case NaN => NaN
  }

  /** `Math.max(a, b)`: NaN if either argument is NaN. */
  function NumMax(a: Num, b: Num): Num {
    if a.NaN? || b.NaN? then NaN
    else if a.PosInf? || b.NegInf? then a
    else if b.PosInf? || a.NegInf? then b
    else Fin(Max(a.value, b.value))
  }

  /** `Math.min(a, b)`: NaN if either argument is NaN. */
  function NumMin(a: Num, b: Num): Num {
    if a.NaN? || b.NaN? then NaN
    else if a.NegInf? || b.PosInf? then a
    else if b.NegInf? || a.PosInf? then b
    else Fin(Min(a.value, b.value))
  }

  /** `a + b`: the sum of opposite infinities is NaN. */
  function NumAdd(a: Num, b: Num): Num {
    match (a, b)
    case (NaN, _) => NaN
    case (_, NaN) => NaN
    case (PosInf, NegInf) => NaN
    case (NegInf, PosInf) => NaN
    case (PosInf, _) => PosInf
    case (_, PosInf) => PosInf
    case (NegInf, _) => NegInf
    case (_, NegInf) => NegInf
    case (Fin(x), Fin(y)) => Fin(x + y)
  }

  /** `c * x` for a positive constant c. */
  function NumScale(c: real, x: Num): Num
    requires c > 0.0
  {
    match x
    case Fin(v) => Fin(c * v)
    case _ => x
  }

  /** `x > t`: true for +Infinity, false for -Infinity and NaN. */
  predicate Greater(x: Num, t: real) {
    match x
    case Fin(v) => v > t
    case PosInf => true
    case NegInf => false
    case NaN => false
  }

  /** A score against three breakpoints (critical above c, high above h,
      medium above m, low otherwise; NaN is low): the shape of both
      detectors' severity functions. */
  function Classify(x: Num, c: real, h: real, m: real): Severity {
    if Greater(x, c) then Critical
    else if Greater(x, h) then High
    else if Greater(x, m) then Medium
    else Low
  }

  /** With ordered breakpoints a larger score never gives a lower severity,
      and +Infinity is critical. */
  lemma ClassifyMonotone(x1: real, x2: real, c: real, h: real, m: real)
    requires m <= h <= c && x1 <= x2
    ensures Classify(Fin(x1), c, h, m).Rank() <= Classify(Fin(x2), c, h, m).Rank()
    ensures Classify(PosInf, c, h, m) == Critical
  {
  }

  /** The breakpoints read back: each severity holds on exactly one interval. */
  lemma ClassifyBands(x: real, c: real, h: real, m: real)
    requires m <= h <= c
    ensures Classify(Fin(x), c, h, m) == Critical <==> x > c
    ensures Classify(Fin(x), c, h, m) == High <==> h < x <= c
    ensures Classify(Fin(x), c, h, m) == Medium <==> m < x <= h
    ensures Classify(Fin(x), c, h, m) == Low <==> x <= m
  {
  }

  /** The three multi-parameter failure signatures of the pattern detector. */
  datatype Rule = BearingRule | ImpellerRule | ElectricalRule

  /** What a finding's description says. The numbers are kept as values:
      their decimal formatting (toFixed) is not modelled. */
  datatype Description =
    | OutOfRangeText(param: Param, value: real, above: bool, range: Range)
    | ScoreText(param: Param, zScore: Num)
    | PatternText(rule: Rule)

  /** What a finding recommends: an entry of the physics advice table, the
      statistical detector's estimate of days to failure, or a pattern rule's
      fixed advice. The exact texts are given by the detectors' own text
      functions (PhysicsChecker.GetRecommendation, MLModel.MLAdviceText,
      MLModel.RuleAdvice); Reporter.RecommendationText renders any of them. */
  datatype Recommendation =
    | TableAdvice(param: Param, severity: Severity)
    | EstimateAdvice(param: Param, severity: Severity, days: int)
    | RuleAdviceOf(rule: Rule)

  /** One finding (the source's Anomaly); `kind` is the source's `type`. */
  datatype Anomaly = Anomaly(
    id: string,
    pumpId: string,
    timestamp: int,
    kind: string,
    severity: Severity,
    confidence: real,
    description: Description,
    recommendation: Recommendation,
    parameters: seq<Param>)

  datatype PumpStatus = PumpNormal | PumpWarning | PumpCritical | PumpOffline

  /** Static description of a pump. */
  datatype Pump = Pump(
    id: string,
    name: string,
    location: string,
    status: PumpStatus,
    efficiency: real,
    operatingHours: nat,
    lastMaintenance: string)

  function Abs(x: real): real {
    if x < 0.0 then -x else x
  }

  function Max(a: real, b: real): real {
    if a >= b then a else b
  }

  function Min(a: real, b: real): real {
    if a <= b then a else b
  }

  /** JavaScript's Math.round for finite numbers: floor(x + 0.5). */
  function Round(x: real): int {
    (x + 0.5).Floor
  }
}
