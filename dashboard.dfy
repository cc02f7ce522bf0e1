/** The monitoring dashboard's data handling: one monitoring cycle over the
    shipped pumps, the bounded buffers it keeps, the system-status roll-up
    and the per-pump selections shown on the cards and in the report. */
module Dashboard {
  import opened Types
  import Seqs
  import Stats
  import SampleData
  import PhysicsChecker
  import MLModel

  /** Readings kept per pump for the charts. */
  const ReadingBufferLimit := 50
  /** Findings kept in the log. */
  const AnomalyLogLimit := 100
  /** Age, in milliseconds, below which a finding counts for the status. */
  const StatusWindow := 60000
  /** Age, in milliseconds, below which a finding shows on its pump's card. */
  const CardWindow := 300000

  // ----- System status -----

  /** The header's overall status. */
  datatype SystemStatus = StatusNormal | StatusWarning | StatusCritical

  /** `Date.now() - a.timestamp < 60000`. */
  predicate IsRecent(a: Anomaly, now: int) {
    now - a.timestamp < StatusWindow
  }

  /** The findings of the last minute, in log order. */
  function RecentAnomalies(anomalies: seq<Anomaly>, now: int): seq<Anomaly> {
    Seqs.Filter((a: Anomaly) => IsRecent(a, now), anomalies)
  }

  /** How many findings of the last minute have severity s. */
  function CountRecent(anomalies: seq<Anomaly>, now: int, s: Severity): nat {
    |Seqs.Filter((a: Anomaly) => a.severity == s, RecentAnomalies(anomalies, now))|
  }

  /** `getSystemStatus`: critical if a finding of the last minute is
      critical, a warning if one is high, normal otherwise. */
  function GetSystemStatus(anomalies: seq<Anomaly>, now: int): SystemStatus {
    var criticalCount := CountRecent(anomalies, now, Critical);
    var highCount := CountRecent(anomalies, now, High);
    if criticalCount > 0 then StatusCritical
    else if highCount > 0 then StatusWarning
    else StatusNormal
  }

  /** The log holds a finding of the last minute with severity s. */
  predicate RecentWith(anomalies: seq<Anomaly>, now: int, s: Severity) {
    exists i :: 0 <= i < |anomalies| && IsRecent(anomalies[i], now) && anomalies[i].severity == s
  }

  /** A count is positive exactly when such a finding exists. */
  lemma CountRecentPositive(anomalies: seq<Anomaly>, now: int, s: Severity)
    ensures CountRecent(anomalies, now, s) > 0 <==> RecentWith(anomalies, now, s)
  {
    var recent := RecentAnomalies(anomalies, now);
    var matching := Seqs.Filter((a: Anomaly) => a.severity == s, recent);
    if |matching| > 0 {
      assert matching[0] in matching;
      var i :| 0 <= i < |anomalies| && anomalies[i] == matching[0];
      assert IsRecent(anomalies[i], now) && anomalies[i].severity == s;
    }
    if RecentWith(anomalies, now, s) {
      var i :| 0 <= i < |anomalies| && IsRecent(anomalies[i], now) && anomalies[i].severity == s;
      assert anomalies[i] in recent;
      assert anomalies[i] in matching;
    }
  }

  /** The status read back: each status holds exactly when the findings of
      the last minute say so. */
  lemma SystemStatusIff(anomalies: seq<Anomaly>, now: int)
    ensures GetSystemStatus(anomalies, now) == StatusCritical <==> RecentWith(anomalies, now, Critical)
    ensures GetSystemStatus(anomalies, now) == StatusWarning <==>
      !RecentWith(anomalies, now, Critical) && RecentWith(anomalies, now, High)
    ensures GetSystemStatus(anomalies, now) == StatusNormal <==>
      !RecentWith(anomalies, now, Critical) && !RecentWith(anomalies, now, High)
  {
    CountRecentPositive(anomalies, now, Critical);
    CountRecentPositive(anomalies, now, High);
  }

  /** Logging a medium or low finding, or one a minute old or more, never
      changes the status. */
  lemma QuietFindingsNeverRaise(anomalies: seq<Anomaly>, a: Anomaly, now: int)
    requires a.severity == Medium || a.severity == Low || !IsRecent(a, now)
    ensures GetSystemStatus(anomalies + [a], now) == GetSystemStatus(anomalies, now)
  {
    SystemStatusIff(anomalies, now);
    SystemStatusIff(anomalies + [a], now);
    RecentWithAppend(anomalies, a, now, Critical);
    RecentWithAppend(anomalies, a, now, High);
  }

  lemma RecentWithAppend(anomalies: seq<Anomaly>, a: Anomaly, now: int, s: Severity)
    ensures RecentWith(anomalies + [a], now, s) <==>
      RecentWith(anomalies, now, s) || (IsRecent(a, now) && a.severity == s)
  {
    var all := anomalies + [a];
    if RecentWith(all, now, s) {
      var i :| 0 <= i < |all| && IsRecent(all[i], now) && all[i].severity == s;
      if i < |anomalies| {
        assert all[i] == anomalies[i];
      }
    }
    if RecentWith(anomalies, now, s) {
      var i :| 0 <= i < |anomalies| && IsRecent(anomalies[i], now) && anomalies[i].severity == s;
      assert all[i] == anomalies[i];
    }
    if IsRecent(a, now) && a.severity == s {
      assert all[|anomalies|] == a;
    }
  }

  /** The window is strict: a critical finding exactly one minute old no
      longer counts, one a millisecond younger does. */
  lemma StatusWindowIsStrict(a: Anomaly, now: int)
    requires a.severity == Critical
    ensures a.timestamp == now - StatusWindow ==> GetSystemStatus([a], now) == StatusNormal
    ensures a.timestamp == now - StatusWindow + 1 ==> GetSystemStatus([a], now) == StatusCritical
  {
    SystemStatusIff([a], now);
    assert [a][0] == a;
  }

  // ----- Bounded buffers -----

  /** `buffer.push(data)` and then, above 50, `slice(-50)`. */
  function PushReading(buffer: seq<Reading>, data: Reading): seq<Reading> {
    var pushed := buffer + [data];
    if |pushed| > ReadingBufferLimit then pushed[|pushed| - ReadingBufferLimit..] else pushed
  }

  /** The chart buffer keeps the newest readings: it is the last 50 of the
      buffer with the reading appended, so it never exceeds 50, the reading
      is last, and what is kept stays in order. */
  lemma PushReadingKeepsNewest(buffer: seq<Reading>, data: Reading)
    ensures PushReading(buffer, data) == Seqs.KeepLast(buffer + [data], ReadingBufferLimit)
    ensures |PushReading(buffer, data)| <= ReadingBufferLimit
    ensures |PushReading(buffer, data)| > 0
    ensures PushReading(buffer, data)[|PushReading(buffer, data)| - 1] == data
    ensures |buffer| < ReadingBufferLimit ==> PushReading(buffer, data) == buffer + [data]
  {
  }

  /** `[...prev, ...newAnomalies].slice(-100)`. */
  function AppendLog(prev: seq<Anomaly>, added: seq<Anomaly>): (log: seq<Anomaly>)
    ensures log == Seqs.KeepLast(prev + added, AnomalyLogLimit)
  {
    var all := prev + added;
    if |all| > AnomalyLogLimit then all[|all| - AnomalyLogLimit..] else all
  }

  /** The log keeps the most recent findings in order: at most 100 of them,
      a suffix of old and new together, all of a cycle's new findings when
      there are no more than 100, and nothing dropped while under the limit. */
  lemma AppendLogKeepsRecent(prev: seq<Anomaly>, added: seq<Anomaly>)
    ensures |AppendLog(prev, added)| <= AnomalyLogLimit
    ensures AppendLog(prev, added) == (prev + added)[|prev + added| - |AppendLog(prev, added)|..]
    ensures |added| <= AnomalyLogLimit ==>
      AppendLog(prev, added)[|AppendLog(prev, added)| - |added|..] == added
    ensures |prev| + |added| <= AnomalyLogLimit ==> AppendLog(prev, added) == prev + added
  {
    var log := AppendLog(prev, added);
    var all := prev + added;
    if |added| <= AnomalyLogLimit {
      assert |log| >= |added|;
      assert log[|log| - |added|..] == all[|all| - |added|..];
      assert all[|all| - |added|..] == added;
    }
  }

  // ----- Per-pump selections -----

  /** `a.pumpId === pump.id && Date.now() - a.timestamp < 300000`. */
  predicate OnCard(a: Anomaly, pumpId: string, now: int) {
    a.pumpId == pumpId && now - a.timestamp < CardWindow
  }

  /** The findings shown on a pump's card, in log order. */
  function CardAnomalies(anomalies: seq<Anomaly>, pumpId: string, now: int): seq<Anomaly> {
    Seqs.Filter((a: Anomaly) => OnCard(a, pumpId, now), anomalies)
  }

  /** A card shows exactly the pump's findings of the last five minutes, each
      as often as the log holds it. */
  lemma CardAnomaliesExact(anomalies: seq<Anomaly>, pumpId: string, now: int, a: Anomaly)
    ensures multiset(CardAnomalies(anomalies, pumpId, now))[a] ==
      if a.pumpId == pumpId && now - a.timestamp < CardWindow then multiset(anomalies)[a] else 0
  {
    Seqs.FilterMultiset((a: Anomaly) => OnCard(a, pumpId, now), anomalies, a);
  }

  /** The findings of this cycle handed to the report for the selected pump. */
  function ReportAnomalies(added: seq<Anomaly>, selected: string): seq<Anomaly> {
    Seqs.Filter((a: Anomaly) => a.pumpId == selected, added)
  }

  /** The report gets exactly the selected pump's findings of the cycle,
      whatever their age, in the order they were found. */
  lemma ReportAnomaliesExact(added: seq<Anomaly>, selected: string, a: Anomaly)
    ensures multiset(ReportAnomalies(added, selected))[a] ==
      if a.pumpId == selected then multiset(added)[a] else 0
  {
    Seqs.FilterMultiset((a: Anomaly) => a.pumpId == selected, added, a);
  }

  // ----- One monitoring cycle -----

  /** A pump's chart buffer, empty when it has none. */
  function BufferOf(m: map<string, seq<Reading>>, pumpId: string): seq<Reading> {
    if pumpId in m then m[pumpId] else []
  }

  /** Every shipped pump has simulator base values and a threshold table, and
      no two share an id. */
  lemma ShippedPumps()
    ensures forall i :: 0 <= i < |SampleData.Pumps| ==>
      SampleData.Pumps[i].id in SampleData.BaseValues && SampleData.Pumps[i].id in SampleData.PhysicsThresholds
    ensures forall i, j :: 0 <= i < j < |SampleData.Pumps| ==> SampleData.Pumps[i].id != SampleData.Pumps[j].id
  {
    SampleData.ShippedThresholdsWellFormed();
    assert forall i :: 0 <= i < |SampleData.Pumps| ==> SampleData.Pumps[i].id in SampleData.PumpIds();
  }

  /** The readings of one cycle: one per shipped pump, in pump order, from
      that pump's draws. */
  function CycleReadings(draws: seq<SampleData.Draws>, now: int): (rs: seq<Reading>)
    requires |draws| == |SampleData.Pumps|
    ensures |rs| == |SampleData.Pumps|
    ensures forall i :: 0 <= i < |rs| ==> rs[i].pumpId == SampleData.Pumps[i].id && rs[i].timestamp == now
  {
    ShippedPumps();
    seq(|SampleData.Pumps|, i requires 0 <= i < |SampleData.Pumps| =>
      SampleData.GenerateSensorData(SampleData.Pumps[i].id, now, draws[i]))
  }

  /** The chart buffers after pushing the readings rs in order. */
  function PushAll(m: map<string, seq<Reading>>, rs: seq<Reading>): map<string, seq<Reading>>
    decreases |rs|
  {
    if rs == [] then m
    else
      var before := PushAll(m, rs[..|rs| - 1]);
      var r := rs[|rs| - 1];
      before[r.pumpId := PushReading(BufferOf(before, r.pumpId), r)]
  }

  /** The ML histories after `addData` of the readings rs in order. */
  function AddAll(h: map<string, seq<Reading>>, rs: seq<Reading>): map<string, seq<Reading>>
    decreases |rs|
  {
    if rs == [] then h
    else
      var before := AddAll(h, rs[..|rs| - 1]);
      var r := rs[|rs| - 1];
      before[r.pumpId := MLModel.Appended(MLModel.HistoryIn(before, r.pumpId), r)]
  }

  /** What one pump contributes to a cycle: its threshold findings, then the
      ML findings on its history with the reading already added. */
  function PumpFindings(data: Reading, history: seq<Reading>, sqrt: real -> real, now: int): seq<Anomaly>
    requires data.pumpId in SampleData.PhysicsThresholds
  {
    PhysicsChecker.ThresholdFindings(data, SampleData.PhysicsThresholds[data.pumpId], now)
      + MLModel.MLFindings(data, MLModel.Appended(history, data), sqrt, now)
  }

  /** The findings of a cycle over the readings rs, each pump judged on its
      history h from before the cycle. */
  function CycleFindings(rs: seq<Reading>, h: map<string, seq<Reading>>, sqrt: real -> real, now: int): seq<Anomaly>
    requires forall i :: 0 <= i < |rs| ==> rs[i].pumpId in SampleData.PhysicsThresholds
    decreases |rs|
  {
    if rs == [] then []
    else
      var r := rs[|rs| - 1];
      CycleFindings(rs[..|rs| - 1], h, sqrt, now) + PumpFindings(r, MLModel.HistoryIn(h, r.pumpId), sqrt, now)
  }

  /** One more reading: each of the cycle's three folds takes one step. */
  lemma CycleSteps(m: map<string, seq<Reading>>, h: map<string, seq<Reading>>, rs: seq<Reading>, r: Reading,
                   sqrt: real -> real, now: int)
    requires forall i :: 0 <= i < |rs| ==> rs[i].pumpId in SampleData.PhysicsThresholds
    requires r.pumpId in SampleData.PhysicsThresholds
    ensures PushAll(m, rs + [r]) == PushAll(m, rs)[r.pumpId := PushReading(BufferOf(PushAll(m, rs), r.pumpId), r)]
    ensures AddAll(h, rs + [r]) ==
      AddAll(h, rs)[r.pumpId := MLModel.Appended(MLModel.HistoryIn(AddAll(h, rs), r.pumpId), r)]
    ensures CycleFindings(rs + [r], h, sqrt, now) ==
      CycleFindings(rs, h, sqrt, now) + PumpFindings(r, MLModel.HistoryIn(h, r.pumpId), sqrt, now)
  {
    assert (rs + [r])[..|rs|] == rs;
  }

  /** Pumps not among the readings keep their history. */
  lemma {:induction false} AddAllOthers(h: map<string, seq<Reading>>, rs: seq<Reading>, pumpId: string)
    requires forall i :: 0 <= i < |rs| ==> rs[i].pumpId != pumpId
    ensures MLModel.HistoryIn(AddAll(h, rs), pumpId) == MLModel.HistoryIn(h, pumpId)
    decreases |rs|
  {
    if rs != [] {
      AddAllOthers(h, rs[..|rs| - 1], pumpId);
    }
  }

  /** The loop body of `processData` for one pump's reading: buffer it,
      check it against the thresholds, add it to the ML model and run the
      detector, collecting both detectors' findings. */
  method ProcessPump(model: MLModel.MLModel, m: map<string, seq<Reading>>, found: seq<Anomaly>,
                     data: Reading, sqrt: real -> real, now: int)
    returns (newData: map<string, seq<Reading>>, newAnomalies: seq<Anomaly>)
    requires model.Valid() && data.pumpId in SampleData.PhysicsThresholds
    modifies model
    ensures model.Valid()
    ensures model.historicalData ==
      old(model.historicalData)[data.pumpId := MLModel.Appended(old(model.HistoryOf(data.pumpId)), data)]
    ensures newData == m[data.pumpId := PushReading(BufferOf(m, data.pumpId), data)]
    ensures newAnomalies == found + PumpFindings(data, old(model.HistoryOf(data.pumpId)), sqrt, now)
  {
    newData := PushBuffer(m, data);
    var physics := PhysicsChecker.CheckThresholds(data, now);
    newAnomalies := found + physics.value;
    model.AddData(data);
    var ml := model.DetectAnomalies(data, sqrt, now);
    newAnomalies := newAnomalies + ml;
    Seqs.AppendAssociative(found, physics.value, ml);
  }

  /** `newData[pump.id].push(data)`, creating the buffer when missing, then
      `slice(-50)` above the limit. */
  method PushBuffer(m: map<string, seq<Reading>>, data: Reading) returns (r: map<string, seq<Reading>>)
    ensures r == m[data.pumpId := PushReading(BufferOf(m, data.pumpId), data)]
  {
    var buffer := if data.pumpId in m then m[data.pumpId] else [];
    buffer := buffer + [data];
    if |buffer| > ReadingBufferLimit {
      buffer := buffer[|buffer| - ReadingBufferLimit..];
    }
    r := m[data.pumpId := buffer];
  }

  lemma CycleReadingAt(draws: seq<SampleData.Draws>, now: int, i: nat)
    requires |draws| == |SampleData.Pumps| && i < |SampleData.Pumps|
    ensures SampleData.Pumps[i].id in SampleData.BaseValues
    ensures CycleReadings(draws, now)[i] == SampleData.GenerateSensorData(SampleData.Pumps[i].id, now, draws[i])
  {
    ShippedPumps();
  }

  /** The pumps before position i in a cycle are other pumps. */
  lemma CycleReadingsDistinct(draws: seq<SampleData.Draws>, now: int, i: nat)
    requires |draws| == |SampleData.Pumps| && i < |SampleData.Pumps|
    ensures forall k :: 0 <= k < |CycleReadings(draws, now)[..i]| ==>
      CycleReadings(draws, now)[..i][k].pumpId != CycleReadings(draws, now)[i].pumpId
  {
    ShippedPumps();
  }

  /** The cycle's i-th reading is the one generated for the i-th pump, and
      taking it in advances the three folds by one step; its pump's history
      is still the one the cycle started from. */
  lemma CycleStepAt(sensorData: map<string, seq<Reading>>, h0: map<string, seq<Reading>>,
                    draws: seq<SampleData.Draws>, sqrt: real -> real, now: int, i: nat)
    requires |draws| == |SampleData.Pumps| && i < |SampleData.Pumps|
    ensures SampleData.Pumps[i].id in SampleData.BaseValues
    ensures var rs := CycleReadings(draws, now);
      var r := SampleData.GenerateSensorData(SampleData.Pumps[i].id, now, draws[i]);
      && r.pumpId in SampleData.PhysicsThresholds
      && MLModel.HistoryIn(AddAll(h0, rs[..i]), r.pumpId) == MLModel.HistoryIn(h0, r.pumpId)
      && PushAll(sensorData, rs[..i + 1]) ==
        PushAll(sensorData, rs[..i])[r.pumpId := PushReading(BufferOf(PushAll(sensorData, rs[..i]), r.pumpId), r)]
      && AddAll(h0, rs[..i + 1]) ==
        AddAll(h0, rs[..i])[r.pumpId := MLModel.Appended(MLModel.HistoryIn(h0, r.pumpId), r)]
      && CycleFindings(rs[..i + 1], h0, sqrt, now) ==
        CycleFindings(rs[..i], h0, sqrt, now) + PumpFindings(r, MLModel.HistoryIn(h0, r.pumpId), sqrt, now)
  {
    var rs := CycleReadings(draws, now);
    CycleReadingAt(draws, now, i);
    Seqs.TakeOneMore(rs, i);
    CycleSteps(sensorData, h0, rs[..i], rs[i], sqrt, now);
    CycleReadingsDistinct(draws, now, i);
    AddAllOthers(h0, rs[..i], rs[i].pumpId);
  }

  /** `processData`: for each shipped pump in order, a reading is generated
      and pushed on the pump's chart buffer, checked against the thresholds,
      added to the ML model and then run through its detector; the cycle's
      findings are appended to the log, which keeps the last 100. The
      previous buffers and log are the React state the cycle starts from. */
  method ProcessData(model: MLModel.MLModel, sensorData: map<string, seq<Reading>>, prev: seq<Anomaly>,
                     draws: seq<SampleData.Draws>, sqrt: real -> real, now: int)
    returns (newData: map<string, seq<Reading>>, newAnomalies: seq<Anomaly>, log: seq<Anomaly>)
    requires model.Valid() && |draws| == |SampleData.Pumps|
    modifies model
    ensures model.Valid()
    ensures model.historicalData == AddAll(old(model.historicalData), CycleReadings(draws, now))
    ensures newData == PushAll(sensorData, CycleReadings(draws, now))
    ensures newAnomalies == CycleFindings(CycleReadings(draws, now), old(model.historicalData), sqrt, now)
    ensures log == AppendLog(prev, newAnomalies)
  {
    ghost var readings := CycleReadings(draws, now);
    ghost var h0 := model.historicalData;
    ShippedPumps();
    newData := sensorData;
    newAnomalies := [];
    for i := 0 to |SampleData.Pumps|
      invariant model.Valid()
      invariant model.historicalData == AddAll(h0, readings[..i])
      invariant newData == PushAll(sensorData, readings[..i])
      invariant newAnomalies == CycleFindings(readings[..i], h0, sqrt, now)
    {
      var pump := SampleData.Pumps[i];
      CycleStepAt(sensorData, h0, draws, sqrt, now, i);
      var data := SampleData.GenerateSensorData(pump.id, now, draws[i]);
      newData, newAnomalies := ProcessPump(model, newData, newAnomalies, data, sqrt, now);
    }
    assert readings[..|SampleData.Pumps|] == readings;
    log := AppendLog(prev, newAnomalies);
  }

  /** After a cycle every pump's buffer ends with the reading generated for
      it in that cycle: the report's latest reading for the selected pump. */
  lemma {:induction false} PushAllNewest(m: map<string, seq<Reading>>, rs: seq<Reading>, j: nat)
    requires j < |rs|
    requires forall k :: j < k < |rs| ==> rs[k].pumpId != rs[j].pumpId
    ensures |BufferOf(PushAll(m, rs), rs[j].pumpId)| > 0
    ensures BufferOf(PushAll(m, rs), rs[j].pumpId)[|BufferOf(PushAll(m, rs), rs[j].pumpId)| - 1] == rs[j]
    decreases |rs|
  {
    var last := rs[|rs| - 1];
    PushReadingKeepsNewest(BufferOf(PushAll(m, rs[..|rs| - 1]), last.pumpId), last);
    if j < |rs| - 1 {
      PushAllNewest(m, rs[..|rs| - 1], j);
    }
  }

  /** No buffer of a cycle's result exceeds 50 readings if none did before. */
  lemma {:induction false} PushAllBounded(m: map<string, seq<Reading>>, rs: seq<Reading>)
    requires forall id :: id in m ==> |m[id]| <= ReadingBufferLimit
    ensures forall id :: id in PushAll(m, rs) ==> |PushAll(m, rs)[id]| <= ReadingBufferLimit
    decreases |rs|
  {
    if rs != [] {
      PushAllBounded(m, rs[..|rs| - 1]);
      var before := PushAll(m, rs[..|rs| - 1]);
      var r := rs[|rs| - 1];
      PushReadingKeepsNewest(BufferOf(before, r.pumpId), r);
    }
  }

  /** The cycle's latest reading per pump is the one it generated. */
  lemma CycleLatestReading(sensorData: map<string, seq<Reading>>, draws: seq<SampleData.Draws>, now: int, i: nat)
    requires |draws| == |SampleData.Pumps| && i < |SampleData.Pumps|
    ensures var b := BufferOf(PushAll(sensorData, CycleReadings(draws, now)), SampleData.Pumps[i].id);
      |b| > 0 && b[|b| - 1] == CycleReadings(draws, now)[i]
  {
    ShippedPumps();
    PushAllNewest(sensorData, CycleReadings(draws, now), i);
  }

  /** Because the reading is added before detection, its statistical
      findings are judged on a window that holds it: while a pump's history
      is still short (at most nine readings before the cycle) every such
      finding is low. */
  lemma WarmUpFindingsLow(data: Reading, history: seq<Reading>, sqrt: real -> real, now: int, i: nat)
    requires Stats.IsSqrt(sqrt) && |history| <= 9
    requires i < |MLModel.StatFindings(data, MLModel.Appended(history, data), sqrt, now)|
    ensures MLModel.StatFindings(data, MLModel.Appended(history, data), sqrt, now)[i].severity == Low
  {
    MLModel.AppendedKeepsNewest(history, data);
    var h := MLModel.Appended(history, data);
    assert h[|h| - 1] == data;
    MLModel.SmallWindowSeverity(data, h, sqrt, now, i);
  }
}
