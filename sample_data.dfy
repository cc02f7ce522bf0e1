/** The shipped configuration: the four pumps, their operating ranges, and
    the simulator that produces one reading per pump from a base value per
    parameter plus bounded noise. */
module SampleData {
  import opened Types

  const Pumps: seq<Pump> := [
    Pump("PUMP-001", "Primary Seawater Pump", "Platform A - Deck 2", PumpNormal, 94.2, 8760, "2024-01-15"),
    Pump("PUMP-002", "Cooling Water Pump", "Platform A - Engine Room", PumpNormal, 91.8, 7320, "2024-02-01"),
    Pump("PUMP-003", "Fire Water Pump", "Platform B - Safety Deck", PumpWarning, 87.5, 12450, "2023-11-20"),
    Pump("PUMP-004", "Ballast Water Pump", "Platform B - Lower Deck", PumpCritical, 78.3, 15680, "2023-09-10")
  ]

  const PhysicsThresholds: map<string, Thresholds> := map[
    "PUMP-001" := Thresholds(Range(0.0, 4.5), Range(20.0, 75.0), Range(2.8, 3.2),
                             Range(180.0, 220.0), Range(8.0, 12.0), Range(440.0, 480.0)),
    "PUMP-002" := Thresholds(Range(0.0, 4.0), Range(20.0, 70.0), Range(2.5, 2.9),
                             Range(150.0, 190.0), Range(6.0, 10.0), Range(440.0, 480.0)),
    "PUMP-003" := Thresholds(Range(0.0, 5.0), Range(20.0, 80.0), Range(3.0, 3.5),
                             Range(200.0, 250.0), Range(10.0, 15.0), Range(440.0, 480.0)),
    "PUMP-004" := Thresholds(Range(0.0, 4.2), Range(20.0, 72.0), Range(2.2, 2.8),
                             Range(160.0, 200.0), Range(7.0, 11.0), Range(440.0, 480.0))
  ]

  /** Base value of every parameter of one simulated pump. */
  datatype Base = Base(
    vibration: real, temperature: real, pressure: real,
    flowRate: real, current: real, voltage: real)
  {
    function Value(p: Param): real {
      match p
      case Vibration => vibration
      case Temperature => temperature
      case Pressure => pressure
      case FlowRate => flowRate
      case Current => current
      case Voltage => voltage
    }
  }

  const BaseValues: map<string, Base> := map[
    "PUMP-001" := Base(2.1, 45.0, 3.0, 200.0, 10.0, 460.0),
    "PUMP-002" := Base(1.8, 42.0, 2.7, 170.0, 8.0, 465.0),
    "PUMP-003" := Base(3.2, 58.0, 3.2, 225.0, 12.0, 455.0),
    "PUMP-004" := Base(5.8, 82.0, 2.1, 145.0, 13.5, 435.0)
  ]

  /** The six values Math.random() returns, one per field, in field order. */
  datatype Draws = Draws(
    vibration: real, temperature: real, pressure: real,
    flowRate: real, current: real, voltage: real)
  {
    function Value(p: Param): real {
      match p
      case Vibration => vibration
      case Temperature => temperature
      case Pressure => pressure
      case FlowRate => flowRate
      case Current => current
      case Voltage => voltage
    }

    /** Every draw in [0, 1), as Math.random() promises. */
    predicate Valid() {
      forall p: Param :: 0.0 <= Value(p) < 1.0
    }
  }

  /** `(Math.random() - 0.5) * 0.2` for the draw r. */
  function Noise(r: real): real {
    (r - 0.5) * 0.2
  }

  /** The factor the noise is multiplied by for each field. */
  function NoiseScale(p: Param): real {
    match p
    case Vibration => 1.0
    case Temperature => 5.0
    case Pressure => 0.1
    case FlowRate => 10.0
    case Current => 0.5
    case Voltage => 5.0
  }

  function Field(base: real, r: real, scale: real): real {
    Max(0.0, base + Noise(r) * scale)
  }

  /** `generateSensorData`: base value plus scaled noise, floored at zero.
      The base lookup is undefined for an unknown pump id. */
  function GenerateSensorData(pumpId: string, now: int, d: Draws): (r: Reading)
    requires pumpId in BaseValues
    ensures r.timestamp == now && r.pumpId == pumpId
    ensures forall p: Param :: r.Value(p) >= 0.0
  {
    var b := BaseValues[pumpId];
    Reading(now, pumpId,
      Field(b.vibration, d.vibration, 1.0),
      Field(b.temperature, d.temperature, 5.0),
      Field(b.pressure, d.pressure, 0.1),
      Field(b.flowRate, d.flowRate, 10.0),
      Field(b.current, d.current, 0.5),
      Field(b.voltage, d.voltage, 5.0))
  }

  lemma NoiseBounds(r: real)
    requires 0.0 <= r < 1.0
    ensures -0.1 <= Noise(r) < 0.1
  {
  }

  /** Each generated field lies in [base - 0.1 k, base + 0.1 k) for the
      field's noise factor k. */
  lemma GeneratedWithinNoiseBand(pumpId: string, now: int, d: Draws, p: Param)
    requires pumpId in BaseValues && d.Valid()
    ensures var base := BaseValues[pumpId].Value(p);
      var v := GenerateSensorData(pumpId, now, d).Value(p);
      base - 0.1 * NoiseScale(p) <= v < base + 0.1 * NoiseScale(p)
  {
    var b := BaseValues[pumpId];
    assert 0.0 <= d.Value(p) < 1.0;
    NoiseBounds(d.Value(p));
    var k := NoiseScale(p);
    assert -0.1 * k <= Noise(d.Value(p)) * k < 0.1 * k;
    assert b.Value(p) - 0.1 * k >= 0.0;
    assert GenerateSensorData(pumpId, now, d).Value(p) == Field(b.Value(p), d.Value(p), k);
  }

  function PumpIds(): set<string> {
    set i | 0 <= i < |Pumps| :: Pumps[i].id
  }

  /** The threshold table covers exactly the shipped pumps, and every range
      is non-degenerate, so the physics checker never divides by zero on the
      shipped configuration. */
  lemma ShippedThresholdsWellFormed()
    ensures PhysicsThresholds.Keys == PumpIds() == BaseValues.Keys
    ensures forall id, p: Param :: id in PhysicsThresholds ==>
      PhysicsThresholds[id].Get(p).min < PhysicsThresholds[id].Get(p).max
  {
    assert Pumps[0].id == "PUMP-001" && Pumps[1].id == "PUMP-002";
    assert Pumps[2].id == "PUMP-003" && Pumps[3].id == "PUMP-004";
  }

  /** The three healthy pumps stay strictly inside every one of their ranges. */
  lemma HealthyPumpsInRange(pumpId: string, now: int, d: Draws)
    requires pumpId in {"PUMP-001", "PUMP-002", "PUMP-003"} && d.Valid()
    ensures pumpId in PhysicsThresholds
    ensures forall p: Param :: var range := PhysicsThresholds[pumpId].Get(p);
      range.min < GenerateSensorData(pumpId, now, d).Value(p) < range.max
  {
    forall p: Param
      ensures var range := PhysicsThresholds[pumpId].Get(p);
        range.min < GenerateSensorData(pumpId, now, d).Value(p) < range.max
    {
      GeneratedWithinNoiseBand(pumpId, now, d, p);
    }
  }

  /** The failing pump lies outside every one of its six ranges, whatever the
      draws. */
  lemma FailingPumpOutOfRange(now: int, d: Draws)
    requires d.Valid()
    ensures var r := GenerateSensorData("PUMP-004", now, d);
      forall p: Param :: OutOfRange(r.Value(p), PhysicsThresholds["PUMP-004"].Get(p))
  {
    forall p: Param
      ensures OutOfRange(GenerateSensorData("PUMP-004", now, d).Value(p), PhysicsThresholds["PUMP-004"].Get(p))
    {
      GeneratedWithinNoiseBand("PUMP-004", now, d, p);
    }
  }
}
