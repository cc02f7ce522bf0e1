/** The report generator: the per-pump report (findings grouped by
    severity, the current readings, maintenance insights), the normal
    report for a pump without findings, and the one-paragraph summary over
    all pumps. Report lines are kept structured: each `Line` stands for one
    line of the source's template text, with the values it shows. */
module Reporter {
  import opened Types
  import opened Text
  import Seqs
  import PhysicsChecker
  import MLModel
  import Stats

  // ---------------------------------------------------------------------
  // Severity groups

  /** `anomalies.filter(a => a.severity === s)`. */
  function Group(anomalies: seq<Anomaly>, s: Severity): (g: seq<Anomaly>)
    ensures forall a :: a in g <==> a in anomalies && a.severity == s
  {
    Seqs.Filter((a: Anomaly) => a.severity == s, anomalies)
  }

  lemma GroupMultiset(anomalies: seq<Anomaly>, s: Severity, x: Anomaly)
    ensures multiset(Group(anomalies, s))[x] == if x.severity == s then multiset(anomalies)[x] else 0
  {
    Seqs.FilterMultiset((a: Anomaly) => a.severity == s, anomalies, x);
  }

  /** The four severity groups split the findings: every finding lands in
      exactly one group, as often as it occurs, so the group sizes add up to
      the number of findings. */
  lemma GroupsPartition(anomalies: seq<Anomaly>)
    ensures multiset(Group(anomalies, Critical)) + multiset(Group(anomalies, High))
      + multiset(Group(anomalies, Medium)) + multiset(Group(anomalies, Low)) == multiset(anomalies)
    ensures |Group(anomalies, Critical)| + |Group(anomalies, High)|
      + |Group(anomalies, Medium)| + |Group(anomalies, Low)| == |anomalies|
  {
    var m := multiset(Group(anomalies, Critical)) + multiset(Group(anomalies, High))
      + multiset(Group(anomalies, Medium)) + multiset(Group(anomalies, Low));
    forall x
      ensures m[x] == multiset(anomalies)[x]
    {
      GroupMultiset(anomalies, Critical, x);
      GroupMultiset(anomalies, High, x);
      GroupMultiset(anomalies, Medium, x);
      GroupMultiset(anomalies, Low, x);
    }
    assert m == multiset(anomalies);
    assert |m| == |multiset(anomalies)|;
  }

  // ---------------------------------------------------------------------
  // Parameter counts and the most affected parameter

  /** All parameter lists of the findings, concatenated in order. */
  function AllParameters(anomalies: seq<Anomaly>): seq<Param>
    decreases |anomalies|
  {
    if anomalies == [] then []
    else AllParameters(anomalies[..|anomalies| - 1]) + anomalies[|anomalies| - 1].parameters
  }

  /** Counts keyed by parameter, in the order the keys were first inserted
      (the iteration order of `Object.entries` for these keys). */
  type Counts = seq<(Param, nat)>

  /** The count stored for p, 0 when p is not a key. */
  function CountOf(counts: Counts, p: Param): nat
    decreases |counts|
  {
    if counts == [] then 0
    else if counts[0].0 == p then counts[0].1
    else CountOf(counts[1..], p)
  }

  function Keys(counts: Counts): seq<Param> {
    seq(|counts|, i requires 0 <= i < |counts| => counts[i].0)
  }

  predicate DistinctKeys(counts: Counts) {
    forall i, j :: 0 <= i < j < |counts| ==> counts[i].0 != counts[j].0
  }

  function SumCounts(counts: Counts): nat
    decreases |counts|
  {
    if counts == [] then 0 else counts[0].1 + SumCounts(counts[1..])
  }

  /** `acc[p] = (acc[p] || 0) + 1`: an existing key is incremented in place,
      a new key is appended with count 1. */
  function Bump(counts: Counts, p: Param): Counts
    decreases |counts|
  {
    if counts == [] then [(p, 1)]
    else if counts[0].0 == p then [(p, counts[0].1 + 1)] + counts[1..]
    else [counts[0]] + Bump(counts[1..], p)
  }

  /** The set of keys of the counts. */
  function KeySet(counts: Counts): set<Param>
    decreases |counts|
  {
    if counts == [] then {} else {counts[0].0} + KeySet(counts[1..])
  }

  predicate Positive(counts: Counts) {
    forall i :: 0 <= i < |counts| ==> counts[i].1 >= 1
  }

  /** What one increment does: p's count goes up by one and no other count
      changes, p becomes a key, the keys stay distinct and positive, and the
      total goes up by one. */
  lemma {:induction false} BumpEffect(counts: Counts, p: Param)
    ensures forall q :: CountOf(Bump(counts, p), q) == CountOf(counts, q) + (if q == p then 1 else 0)
    ensures KeySet(Bump(counts, p)) == KeySet(counts) + {p}
    ensures SumCounts(Bump(counts, p)) == SumCounts(counts) + 1
    ensures Positive(counts) ==> Positive(Bump(counts, p))
    decreases |counts|
  {
    if counts != [] && counts[0].0 != p {
      BumpEffect(counts[1..], p);
      var r := Bump(counts, p);
      assert r[1..] == Bump(counts[1..], p);
    } else if counts != [] {
      assert Bump(counts, p)[1..] == counts[1..];
    }
  }

  lemma {:induction false} KeySetMembers(counts: Counts, p: Param)
    ensures p in KeySet(counts) <==> exists i :: 0 <= i < |counts| && counts[i].0 == p
    decreases |counts|
  {
    if counts != [] {
      KeySetMembers(counts[1..], p);
      if p in KeySet(counts[1..]) {
        var i :| 0 <= i < |counts[1..]| && counts[1..][i].0 == p;
        assert counts[i + 1].0 == p;
      }
      forall i | 0 <= i < |counts| && counts[i].0 == p && i > 0
        ensures p in KeySet(counts[1..])
      {
        assert counts[1..][i - 1].0 == p;
      }
    }
  }

  lemma {:induction false} BumpDistinct(counts: Counts, p: Param)
    requires DistinctKeys(counts)
    ensures DistinctKeys(Bump(counts, p))
    decreases |counts|
  {
    if counts != [] && counts[0].0 != p {
      var rest := counts[1..];
      assert DistinctKeys(rest) by {
        forall i, j | 0 <= i < j < |rest|
          ensures rest[i].0 != rest[j].0
        {
          assert rest[i] == counts[i + 1] && rest[j] == counts[j + 1];
        }
      }
      BumpDistinct(rest, p);
      BumpEffect(rest, p);
      var r := Bump(counts, p);
      assert counts[0].0 !in KeySet(rest) by {
        KeySetMembers(rest, counts[0].0);
      }
      forall j | 0 < j < |r|
        ensures r[0].0 != r[j].0
      {
        KeySetMembers(Bump(rest, p), r[j].0);
        assert Bump(rest, p)[j - 1] == r[j];
      }
      assert r == [counts[0]] + Bump(rest, p);
    } else if counts != [] {
      var r := Bump(counts, p);
      forall i, j | 0 <= i < j < |r|
        ensures r[i].0 != r[j].0
      {
        assert r[i].0 == counts[i].0 && r[j].0 == counts[j].0;
      }
    }
  }

  /** The reduce over the findings' parameter lists. */
  function Tally(ps: seq<Param>): Counts
    decreases |ps|
  {
    if ps == [] then [] else Bump(Tally(ps[..|ps| - 1]), ps[|ps| - 1])
  }

  /** `parameterCounts` in `generateMaintenanceInsights`. */
  function ParameterCounts(anomalies: seq<Anomaly>): Counts {
    Tally(AllParameters(anomalies))
  }

  /** The tally counts every parameter exactly as often as it occurs, keeps
      each key once, stores only positive counts, has exactly the occurring
      parameters as keys, and its counts add up to the number of
      occurrences. */
  lemma {:induction false} TallyCounts(ps: seq<Param>)
    ensures forall p :: CountOf(Tally(ps), p) == multiset(ps)[p]
    ensures DistinctKeys(Tally(ps)) && Positive(Tally(ps))
    ensures KeySet(Tally(ps)) == set p | p in ps
    ensures SumCounts(Tally(ps)) == |ps|
    decreases |ps|
  {
    if ps != [] {
      var init := ps[..|ps| - 1];
      TallyCounts(init);
      BumpEffect(Tally(init), ps[|ps| - 1]);
      BumpDistinct(Tally(init), ps[|ps| - 1]);
      assert ps == init + [ps[|ps| - 1]];
    }
  }

  /** `parameterCounts[p]` is the number of occurrences of p across all the
      findings' parameter lists; the counts add up to the total length of
      those lists. */
  lemma ParameterCountsCorrect(anomalies: seq<Anomaly>, p: Param)
    ensures CountOf(ParameterCounts(anomalies), p) == multiset(AllParameters(anomalies))[p]
    ensures SumCounts(ParameterCounts(anomalies)) == |AllParameters(anomalies)|
    ensures DistinctKeys(ParameterCounts(anomalies))
  {
    TallyCounts(AllParameters(anomalies));
  }

  /** The first entry of a stable sort by descending count: the earliest
      entry whose count is maximal. */
  function MostAffected(counts: Counts): (r: Option<(Param, nat)>)
    ensures r.None? <==> counts == []
    decreases |counts|
  {
    if counts == [] then None
    else
      var last := counts[|counts| - 1];
      var init := counts[..|counts| - 1];
      match MostAffected(init)
      case None => Some(last)
      case Some(best) =>
        if last.1 > best.1 then Some(last) else Some(best)
  }

  /** Entry k is e, no count exceeds e's, and every earlier count is smaller. */
  predicate FirstMaxAt(counts: Counts, k: nat, e: (Param, nat)) {
    k < |counts| && counts[k] == e
    && (forall j :: 0 <= j < |counts| ==> counts[j].1 <= e.1)
    && (forall j :: 0 <= j < k ==> counts[j].1 < e.1)
  }

  /** The entry chosen is the earliest one of maximal count. */
  lemma {:induction false} MostAffectedIsFirstMax(counts: Counts)
    requires counts != []
    ensures exists k :: FirstMaxAt(counts, k, MostAffected(counts).value)
    decreases |counts|
  {
    var last, init := counts[|counts| - 1], counts[..|counts| - 1];
    if init == [] {
      assert MostAffected(counts) == Some(last);
      assert FirstMaxAt(counts, 0, last);
    } else {
      MostAffectedIsFirstMax(init);
      var best := MostAffected(init).value;
      assert MostAffected(counts) == if last.1 > best.1 then Some(last) else Some(best);
      var k :| FirstMaxAt(init, k, best);
      assert forall j :: 0 <= j < |init| ==> init[j] == counts[j];
      if last.1 > best.1 {
        assert FirstMaxAt(counts, |counts| - 1, last);
      } else {
        assert FirstMaxAt(counts, k, best);
      }
    }
  }

  lemma {:induction false} CountOfEntry(counts: Counts, j: nat)
    requires DistinctKeys(counts) && j < |counts|
    ensures CountOf(counts, counts[j].0) == counts[j].1
    decreases j
  {
    if j > 0 {
      var rest := counts[1..];
      assert DistinctKeys(rest) by {
        forall i, k | 0 <= i < k < |rest|
          ensures rest[i].0 != rest[k].0
        {
          assert rest[i] == counts[i + 1] && rest[k] == counts[k + 1];
        }
      }
      CountOfEntry(rest, j - 1);
      assert rest[j - 1] == counts[j];
    }
  }

  lemma {:induction false} CountOfAbsent(counts: Counts, p: Param)
    requires p !in KeySet(counts)
    ensures CountOf(counts, p) == 0
    decreases |counts|
  {
    if counts != [] {
      CountOfAbsent(counts[1..], p);
    }
  }

  /** The primary concern is a parameter that occurs most often across the
      findings' parameter lists, with its number of occurrences; there is
      one exactly when some finding names a parameter. */
  lemma PrimaryConcernIsMostFrequent(anomalies: seq<Anomaly>)
    ensures MostAffected(ParameterCounts(anomalies)).None? <==> AllParameters(anomalies) == []
    ensures match MostAffected(ParameterCounts(anomalies))
      case Some(entry) =>
        entry.1 == multiset(AllParameters(anomalies))[entry.0]
        && forall q: Param :: multiset(AllParameters(anomalies))[q] <= entry.1
      case None => true
  {
    var ps := AllParameters(anomalies);
    var counts := ParameterCounts(anomalies);
    TallyCounts(ps);
    if ps == [] {
      assert counts == [];
    } else {
      assert ps[0] in ps;
      assert ps[0] in KeySet(counts);
      assert counts != [];
    }
    match MostAffected(counts)
    case Some(entry) =>
      MostAffectedIsFirstMax(counts);
      var k :| FirstMaxAt(counts, k, entry);
      CountOfEntry(counts, k);
      forall q: Param
        ensures multiset(ps)[q] <= entry.1
      {
        KeySetMembers(counts, q);
        if q in KeySet(counts) {
          var j :| 0 <= j < |counts| && counts[j].0 == q;
          CountOfEntry(counts, j);
        } else {
          CountOfAbsent(counts, q);
        }
      }
    case None =>
  }

  // ---------------------------------------------------------------------
  // Pattern flag, average confidence, maintenance age

  /** The test behind `hasPatternAnomalies` for one type string. */
  predicate IsPatternKind(kind: string) {
    Contains(kind, "pattern") || Contains(kind, "bearing") || Contains(kind, "impeller")
  }

  predicate HasPatternAnomalies(anomalies: seq<Anomaly>) {
    exists i :: 0 <= i < |anomalies| && IsPatternKind(anomalies[i].kind)
  }

  /** Of the engine's finding types, the flag is raised by the bearing and
      impeller patterns only: not by the electrical pattern. */
  lemma PatternFlagByRule(rule: Rule)
    ensures IsPatternKind(MLModel.RuleKind(rule)) <==> rule != ElectricalRule
  {
    match rule
    case BearingRule =>
      PrefixContains(MLModel.RuleKind(rule), "bearing");
    case ImpellerRule =>
      PrefixContains(MLModel.RuleKind(rule), "impeller");
    case ElectricalRule =>
      var k := MLModel.RuleKind(rule);
      assert k == "electrical_fault";
      assert 'p' !in k && 'b' !in k && 'm' !in k;
      AbsentCharNoMatch(k, "pattern", 0, 0);
      AbsentCharNoMatch(k, "bearing", 0, 0);
      AbsentCharNoMatch(k, "impeller", 0, 1);
  }

  /** A part of each of "pattern", "bearing" and "impeller" that occurs in
      neither half keeps the flag down on the concatenation. */
  lemma NoFlagByChars(x: string, y: string, i: nat, j: nat, l: nat)
    requires i < 7 && "pattern"[i] !in x && "pattern"[i] !in y
    requires j < 7 && "bearing"[j] !in x && "bearing"[j] !in y
    requires l < 8 && "impeller"[l] !in x && "impeller"[l] !in y
    ensures !IsPatternKind(x + y)
  {
    AbsentCharNoMatch(x + y, "pattern", 0, i);
    AbsentCharNoMatch(x + y, "bearing", 0, j);
    AbsentCharNoMatch(x + y, "impeller", 0, l);
  }

  /** Likewise when 'p' is never followed by 'a' and no 'b' or 'i' occurs. */
  lemma NoFlagByPair(x: string, y: string)
    requires NoPair(x, 'p', 'a') && NoPair(y, 'p', 'a') && (x != [] && y != [] ==> !(x[|x| - 1] == 'p' && y[0] == 'a'))
    requires 'b' !in x && 'b' !in y && 'i' !in x && 'i' !in y
    ensures !IsPatternKind(x + y)
  {
    NoPairConcat(x, y, 'p', 'a');
    NoPairNoMatch(x + y, "pattern", 0);
    AbsentCharNoMatch(x + y, "bearing", 0, 0);
    AbsentCharNoMatch(x + y, "impeller", 0, 0);
  }

  /** A parameter name that lacks the chosen letters keeps the flag down
      for its threshold type. */
  lemma SuffixedNoFlag(name: string, i: nat, j: nat, l: nat)
    requires (i == 0 || i == 6) && "pattern"[i] !in name
    requires (j == 0 || j == 6) && "bearing"[j] !in name
    requires (l == 0 || l == 1) && "impeller"[l] !in name
    ensures !IsPatternKind(name + "_threshold")
  {
    NoFlagByChars(name, "_threshold", i, j, l);
  }

  /** A parameter name that lacks the chosen letters keeps the flag down
      for its statistical type. */
  lemma PrefixedNoFlag(name: string, i: nat, j: nat, l: nat)
    requires (i == 0 || i == 2) && "pattern"[i] !in name
    requires (j == 0 || j == 6) && "bearing"[j] !in name
    requires (l == 0 || l == 2) && "impeller"[l] !in name
    ensures !IsPatternKind("ml_anomaly_" + name)
  {
    NoFlagByChars("ml_anomaly_", name, i, j, l);
  }

  /** A parameter name in which 'p' is never followed by 'a' and that
      lacks 'b' and 'i' keeps the flag down for its statistical type. */
  lemma PairedNoFlag(name: string)
    requires NoPair(name, 'p', 'a') && (name != [] ==> name[0] != 'a')
    requires 'b' !in name && 'i' !in name
    ensures !IsPatternKind("ml_anomaly_" + name)
  {
    AbsentNoPair("ml_anomaly_", 'p', 'a');
    NoFlagByPair("ml_anomaly_", name);
  }

  /** No `<parameter>_threshold` type raises the flag. */
  lemma ThresholdKindNoFlag(p: Param)
    ensures !IsPatternKind(PhysicsChecker.ThresholdKind(p))
  {
    var name := p.Name();
    match p
    case Vibration => SuffixedNoFlag(name, 0, 6, 1);
    case Temperature => SuffixedNoFlag(name, 6, 0, 0);
    case Pressure => SuffixedNoFlag(name, 6, 0, 1);
    case FlowRate => SuffixedNoFlag(name, 0, 0, 1);
    case Current => SuffixedNoFlag(name, 0, 0, 1);
    case Voltage => SuffixedNoFlag(name, 0, 0, 1);
  }

  /** No `ml_anomaly_<parameter>` type raises the flag. "temperature" holds
      every letter of "pattern", but its 'p' is followed by 'e'. */
  lemma StatKindNoFlag(p: Param)
    ensures !IsPatternKind(MLModel.StatKind(p))
  {
    var name := p.Name();
    match p
    case Vibration => PrefixedNoFlag(name, 0, 6, 2);
    case Temperature =>
      assert NoPair(name, 'p', 'a');
      PairedNoFlag(name);
    case Pressure => PrefixedNoFlag(name, 2, 0, 0);
    case FlowRate => PrefixedNoFlag(name, 0, 0, 0);
    case Current => PrefixedNoFlag(name, 0, 0, 0);
    case Voltage => PrefixedNoFlag(name, 0, 0, 0);
  }

  /** Of the engine's other finding types, neither a threshold type nor a
      statistical type raises the flag. */
  lemma EngineKindsFlag(p: Param)
    ensures !IsPatternKind(PhysicsChecker.ThresholdKind(p)) && !IsPatternKind(MLModel.StatKind(p))
  {
    ThresholdKindNoFlag(p);
    StatKindNoFlag(p);
  }

  /** Sum of the confidences, folded from the left. */
  function SumConfidence(anomalies: seq<Anomaly>): real
    decreases |anomalies|
  {
    if anomalies == [] then 0.0
    else SumConfidence(anomalies[..|anomalies| - 1]) + anomalies[|anomalies| - 1].confidence
  }

  /** `avgConfidence`; the early return for an empty list makes n > 0 here. */
  function AverageConfidence(anomalies: seq<Anomaly>): real
    requires |anomalies| > 0
  {
    SumConfidence(anomalies) / (|anomalies| as real)
  }

  lemma {:induction false} SumConfidenceBounds(anomalies: seq<Anomaly>, lo: real, hi: real)
    requires forall i :: 0 <= i < |anomalies| ==> lo <= anomalies[i].confidence <= hi
    ensures (|anomalies| as real) * lo <= SumConfidence(anomalies) <= (|anomalies| as real) * hi
    decreases |anomalies|
  {
    if anomalies != [] {
      SumConfidenceBounds(anomalies[..|anomalies| - 1], lo, hi);
      var n := (|anomalies| - 1) as real;
      assert (n + 1.0) * lo == n * lo + lo && (n + 1.0) * hi == n * hi + hi;
    }
  }

  /** The average lies between the least and the greatest possible
      confidence; in particular in [0, 1] when every confidence does. */
  lemma AverageConfidenceBounds(anomalies: seq<Anomaly>, lo: real, hi: real)
    requires |anomalies| > 0
    requires forall i :: 0 <= i < |anomalies| ==> lo <= anomalies[i].confidence <= hi
    ensures lo <= AverageConfidence(anomalies) <= hi
  {
    SumConfidenceBounds(anomalies, lo, hi);
    var n := |anomalies| as real;
    var avg := AverageConfidence(anomalies);
    assert avg * n == SumConfidence(anomalies);
    if avg < lo {
      Stats.MulStrict(n, avg, lo, n * avg, n * lo);
    }
    if avg > hi {
      Stats.MulStrict(n, hi, avg, n * hi, n * avg);
    }
  }

  const MillisPerDay := 1000 * 60 * 60 * 24

  /** `Math.floor((Date.now() - maintainedAt) / 86400000)`; the divisor is
      positive, so Dafny's division is the floor. */
  function DaysSince(now: int, maintainedAt: int): (d: int)
    ensures d * MillisPerDay <= now - maintainedAt < (d + 1) * MillisPerDay
  {
    (now - maintainedAt) / MillisPerDay
  }

  // ---------------------------------------------------------------------
  // Recommendation text

  /** The text a finding's recommendation stands for, from the detector
      that made it. A table entry is never the fallback text, and a
      statistical estimate asks for immediate action exactly when it is
      critical. */
  function RecommendationText(r: Recommendation): (t: string)
    ensures r.TableAdvice? ==> t == PhysicsChecker.Advice(r.param, r.severity) && t != PhysicsChecker.Fallback
    ensures r.EstimateAdvice? ==> (EndsWith(t, MLModel.Urgent) <==> r.severity == Critical)
  {
    match r
    case TableAdvice(p, s) =>
      PhysicsChecker.RecommendationLookup(p.Name(), s.Name());
      PhysicsChecker.AdviceIsNotFallback(p, s);
      PhysicsChecker.GetRecommendation(p.Name(), s.Name())
    case EstimateAdvice(p, s, days) =>
      MLModel.RecommendationUrgency(p, s, days);
      MLModel.MLAdviceText(p, s, days)
    case RuleAdviceOf(rule) => MLModel.RuleAdvice(rule)
  }

  // ---------------------------------------------------------------------
  // Per-pump report

  /** One line of a report, with the values it shows. */
  datatype Line =
    | AnomalyTitle(pumpName: string)
    | NormalTitle(pumpName: string)
    | LocationLine(location: string)
    | TimestampLine(timestamp: int)
    | Blank
    | AllInRange
    | EfficiencyLine(efficiency: real)
    | HoursLine(hours: nat)
    | GroupHeader(severity: Severity, count: nat)
    | Bullet(description: Description)
    | ActionLine(recommendation: Recommendation)
    | RecommendationLine(recommendation: Recommendation)
    | ReadingsHeader
    | ReadingLine(param: Param, value: real, checked: bool)
    | ReminderHeader
    | ReminderLine(days: int)
    | InsightsHeader
    | PrimaryConcern(param: Param, count: nat)
    | ComplexPatterns
    | AverageConfidenceLine(percent: real)
    | DaysSinceMaintenance(days: int)
    | LowEfficiency(efficiency: real)

  /** Title, location and timestamp, then an empty line. */
  function HeaderLines(title: Line, pump: Pump, data: Reading): seq<Line> {
    [title, LocationLine(pump.location), TimestampLine(data.timestamp), Blank]
  }

  /** The six current readings (ticked in the normal report), then an empty line. */
  function ReadingLines(data: Reading, checked: bool): seq<Line> {
    [ReadingsHeader]
      + seq(6, i requires 0 <= i < 6 => ReadingLine(AllParams[i], data.Value(AllParams[i]), checked))
      + [Blank]
  }

  /** `generateNormalReport`; days is the age of the last maintenance. */
  function NormalReport(data: Reading, pump: Pump, days: int): seq<Line> {
    HeaderLines(NormalTitle(pump.name), pump, data)
      + [AllInRange, EfficiencyLine(pump.efficiency), HoursLine(pump.operatingHours), Blank]
      + ReadingLines(data, true)
      + (if days > 90 then [ReminderHeader, ReminderLine(days)] else [])
  }

  /** `generateMaintenanceInsights`. */
  function InsightLines(anomalies: seq<Anomaly>, pump: Pump, days: int): seq<Line>
    requires |anomalies| > 0
  {
    [InsightsHeader]
      + (match MostAffected(ParameterCounts(anomalies))
         case Some(entry) => [PrimaryConcern(entry.0, entry.1)]
         case None => [])
      + (if HasPatternAnomalies(anomalies) then [ComplexPatterns] else [])
      + [AverageConfidenceLine(AverageConfidence(anomalies) * 100.0), DaysSinceMaintenance(days)]
      + (if pump.efficiency < 85.0 then [LowEfficiency(pump.efficiency)] else [])
  }

  /** The lines one finding contributes to its severity's section: critical
      findings carry their recommendation as the action to take, high ones as
      a recommendation, medium and low ones only their description. */
  function FindingLines(s: Severity, a: Anomaly): seq<Line> {
    match s
    case Critical => [Bullet(a.description), ActionLine(a.recommendation), Blank]
    case High => [Bullet(a.description), RecommendationLine(a.recommendation), Blank]
    case _ => [Bullet(a.description)]
  }

  function ItemLines(s: Severity, g: seq<Anomaly>): seq<Line>
    decreases |g|
  {
    if g == [] then [] else ItemLines(s, g[..|g| - 1]) + FindingLines(s, g[|g| - 1])
  }

  /** One severity's section: omitted when the group is empty. */
  function SectionLines(s: Severity, g: seq<Anomaly>): seq<Line> {
    if g == [] then []
    else [GroupHeader(s, |g|)] + ItemLines(s, g) + (if s == Medium || s == Low then [Blank] else [])
  }

  /** `generateReport`: the normal report when there are no findings,
      otherwise the sections in the order critical, high, medium, low, the
      readings and the insights. */
  function ReportLines(anomalies: seq<Anomaly>, data: Reading, pump: Pump, days: int): seq<Line> {
    if anomalies == [] then NormalReport(data, pump, days)
    else
      HeaderLines(AnomalyTitle(pump.name), pump, data)
        + SectionLines(Critical, Group(anomalies, Critical))
        + SectionLines(High, Group(anomalies, High))
        + SectionLines(Medium, Group(anomalies, Medium))
        + SectionLines(Low, Group(anomalies, Low))
        + ReadingLines(data, false)
        + InsightLines(anomalies, pump, days)
  }

  /** Appends one severity's section to the report, one finding at a time
      (the `forEach` with `report += ...`). */
  method AppendSection(report: seq<Line>, s: Severity, g: seq<Anomaly>) returns (r: seq<Line>)
    ensures r == report + SectionLines(s, g)
  {
    if |g| == 0 {
      return report;
    }
    var items: seq<Line> := [];
    var i := 0;
    while i < |g|
      invariant 0 <= i <= |g|
      invariant items == ItemLines(s, g[..i])
    {
      assert g[..i + 1][..i] == g[..i];
      items := items + FindingLines(s, g[i]);
      i := i + 1;
    }
    assert g[..i] == g;
    var tail: seq<Line> := if s == Medium || s == Low then [Blank] else [];
    r := report + ([GroupHeader(s, |g|)] + items + tail);
  }

  /** `generateReport` for the reading and pump, at clock time now, for a
      pump last maintained at maintainedAt (both in milliseconds). */
  method GenerateReport(anomalies: seq<Anomaly>, data: Reading, pump: Pump, now: int, maintainedAt: int)
    returns (report: seq<Line>)
    ensures report == ReportLines(anomalies, data, pump, DaysSince(now, maintainedAt))
  {
    var days := DaysSince(now, maintainedAt);
    if |anomalies| == 0 {
      return NormalReport(data, pump, days);
    }
    report := HeaderLines(AnomalyTitle(pump.name), pump, data);
    report := AppendSection(report, Critical, Group(anomalies, Critical));
    report := AppendSection(report, High, Group(anomalies, High));
    report := AppendSection(report, Medium, Group(anomalies, Medium));
    report := AppendSection(report, Low, Group(anomalies, Low));
    report := report + ReadingLines(data, false);
    report := report + InsightLines(anomalies, pump, days);
  }

  /** The descriptions on the bullet lines of a report, in order. */
  function Bullets(lines: seq<Line>): seq<Description>
    decreases |lines|
  {
    if lines == [] then []
    else
      var last := lines[|lines| - 1];
      Bullets(lines[..|lines| - 1]) + (if last.Bullet? then [last.description] else [])
  }

  lemma {:induction false} BulletsAppend(a: seq<Line>, b: seq<Line>)
    ensures Bullets(a + b) == Bullets(a) + Bullets(b)
    decreases |b|
  {
    if b == [] {
      assert a + b == a;
    } else {
      assert (a + b)[..|a + b| - 1] == a + b[..|b| - 1];
      BulletsAppend(a, b[..|b| - 1]);
    }
  }

  function Descriptions(g: seq<Anomaly>): seq<Description> {
    seq(|g|, i requires 0 <= i < |g| => g[i].description)
  }

  lemma FindingBullets(s: Severity, a: Anomaly)
    ensures Bullets(FindingLines(s, a)) == [a.description]
  {
    var lines := FindingLines(s, a);
    if |lines| == 3 {
      assert lines[..2][..1] == [lines[0]];
      assert Bullets(lines[..1]) == [a.description];
      assert Bullets(lines[..2]) == [a.description];
    } else {
      assert lines[..0] == [];
    }
  }

  lemma {:induction false} ItemBullets(s: Severity, g: seq<Anomaly>)
    ensures Bullets(ItemLines(s, g)) == Descriptions(g)
    decreases |g|
  {
    if g != [] {
      var init, last := g[..|g| - 1], g[|g| - 1];
      ItemBullets(s, init);
      BulletsAppend(ItemLines(s, init), FindingLines(s, last));
      FindingBullets(s, last);
      DescriptionsSnoc(g);
    }
  }

  lemma DescriptionsSnoc(g: seq<Anomaly>)
    requires g != []
    ensures Descriptions(g) == Descriptions(g[..|g| - 1]) + [g[|g| - 1].description]
  {
  }

  lemma SectionBullets(s: Severity, g: seq<Anomaly>)
    ensures Bullets(SectionLines(s, g)) == Descriptions(g)
  {
    if g != [] {
      var tail: seq<Line> := if s == Medium || s == Low then [Blank] else [];
      BulletsFramed(GroupHeader(s, |g|), ItemLines(s, g), tail);
      ItemBullets(s, g);
    }
  }

  /** A header line before and at most one blank line after leave the bullets unchanged. */
  lemma BulletsFramed(head: Line, items: seq<Line>, tail: seq<Line>)
    requires !head.Bullet? && (tail == [] || tail == [Blank])
    ensures Bullets([head] + items + tail) == Bullets(items)
  {
    BulletsAppend([head] + items, tail);
    if tail != [] { NoBulletSingleton(Blank); }
    BulletsAppend([head], items);
    NoBulletSingleton(head);
  }

  lemma {:induction false} NoBullets(lines: seq<Line>)
    requires forall i :: 0 <= i < |lines| ==> !lines[i].Bullet?
    ensures Bullets(lines) == []
    decreases |lines|
  {
    if lines != [] {
      NoBullets(lines[..|lines| - 1]);
    }
  }

  lemma BulletsOfSeven(a: seq<Line>, b: seq<Line>, c: seq<Line>, d: seq<Line>, e: seq<Line>, f: seq<Line>, g: seq<Line>)
    ensures Bullets(a + b + c + d + e + f + g)
      == Bullets(a) + Bullets(b) + Bullets(c) + Bullets(d) + Bullets(e) + Bullets(f) + Bullets(g)
  {
    BulletsAppend(a + b + c + d + e + f, g);
    BulletsAppend(a + b + c + d + e, f);
    BulletsAppend(a + b + c + d, e);
    BulletsAppend(a + b + c, d);
    BulletsAppend(a + b, c);
    BulletsAppend(a, b);
  }

  lemma NoBulletSingleton(x: Line)
    requires !x.Bullet?
    ensures Bullets([x]) == []
  {
    assert [x][..0] == [];
  }

  lemma InsightsHaveNoBullets(anomalies: seq<Anomaly>, pump: Pump, days: int)
    requires |anomalies| > 0
    ensures Bullets(InsightLines(anomalies, pump, days)) == []
  {
    var concern: seq<Line> := match MostAffected(ParameterCounts(anomalies))
      case Some(entry) => [PrimaryConcern(entry.0, entry.1)]
      case None => [];
    var patterns: seq<Line> := if HasPatternAnomalies(anomalies) then [ComplexPatterns] else [];
    var figures := [AverageConfidenceLine(AverageConfidence(anomalies) * 100.0), DaysSinceMaintenance(days)];
    var efficiency: seq<Line> := if pump.efficiency < 85.0 then [LowEfficiency(pump.efficiency)] else [];
    assert InsightLines(anomalies, pump, days) == [InsightsHeader] + concern + patterns + figures + efficiency;
    NoBulletSingleton(InsightsHeader);
    if concern != [] { NoBulletSingleton(concern[0]); }
    if patterns != [] { NoBulletSingleton(ComplexPatterns); }
    if efficiency != [] { NoBulletSingleton(efficiency[0]); }
    NoBullets(figures);
    BulletsAppend([InsightsHeader] + concern + patterns + figures, efficiency);
    BulletsAppend([InsightsHeader] + concern + patterns, figures);
    BulletsAppend([InsightsHeader] + concern, patterns);
    BulletsAppend([InsightsHeader], concern);
  }

  lemma DropEmpty<T>(a: seq<T>, b: seq<T>, c: seq<T>, d: seq<T>)
    ensures [] + a + b + c + d + [] + [] == a + b + c + d
  {
  }

  /** Every finding of the report appears as exactly one bullet with its
      description, in its severity's section, the sections in the order
      critical, high, medium, low; the normal report has no bullets. */
  lemma ReportBullets(anomalies: seq<Anomaly>, data: Reading, pump: Pump, days: int)
    ensures anomalies == [] ==> Bullets(ReportLines(anomalies, data, pump, days)) == []
    ensures anomalies != [] ==> (Bullets(ReportLines(anomalies, data, pump, days)) ==
      Descriptions(Group(anomalies, Critical)) + Descriptions(Group(anomalies, High))
      + Descriptions(Group(anomalies, Medium)) + Descriptions(Group(anomalies, Low)))
  {
    if anomalies == [] {
      NoBullets(NormalReport(data, pump, days));
    } else {
      var head := HeaderLines(AnomalyTitle(pump.name), pump, data);
      var readings := ReadingLines(data, false);
      var insights := InsightLines(anomalies, pump, days);
      assert Bullets(head) == [] by { NoBullets(head); }
      assert Bullets(readings) == [] by { NoBullets(readings); }
      InsightsHaveNoBullets(anomalies, pump, days);
      SectionBullets(Critical, Group(anomalies, Critical));
      SectionBullets(High, Group(anomalies, High));
      SectionBullets(Medium, Group(anomalies, Medium));
      SectionBullets(Low, Group(anomalies, Low));
      var c := SectionLines(Critical, Group(anomalies, Critical));
      var h := SectionLines(High, Group(anomalies, High));
      var m := SectionLines(Medium, Group(anomalies, Medium));
      var l := SectionLines(Low, Group(anomalies, Low));
      assert ReportLines(anomalies, data, pump, days) == head + c + h + m + l + readings + insights;
      BulletsOfSeven(head, c, h, m, l, readings, insights);
      DropEmpty(Bullets(c), Bullets(h), Bullets(m), Bullets(l));
    }
  }

  /** So a report on n findings has n bullets. */
  lemma ReportBulletCount(anomalies: seq<Anomaly>, data: Reading, pump: Pump, days: int)
    ensures |Bullets(ReportLines(anomalies, data, pump, days))| == |anomalies|
  {
    ReportBullets(anomalies, data, pump, days);
    GroupsPartition(anomalies);
  }

  /** The report is the normal one exactly when there are no findings. */
  lemma ReportNormalIffNoFindings(anomalies: seq<Anomaly>, data: Reading, pump: Pump, days: int)
    ensures ReportLines(anomalies, data, pump, days)[0] == NormalTitle(pump.name) <==> anomalies == []
    ensures anomalies == [] ==> (ReminderHeader in ReportLines(anomalies, data, pump, days) <==> days > 90)
  {
    if anomalies == [] {
      var r := ReportLines(anomalies, data, pump, days);
      assert ReminderHeader !in HeaderLines(NormalTitle(pump.name), pump, data);
      assert ReminderHeader !in ReadingLines(data, true);
    }
  }

  // ---------------------------------------------------------------------
  // Summary over all pumps

  const NormalSummary := "All pumps operating normally. No anomalies detected."

  function CountSeverity(anomalies: seq<Anomaly>, s: Severity): nat {
    |Group(anomalies, s)|
  }

  /** The status word of `generateSummary`. */
  datatype Status = CriticalStatus | HighAlert | Caution | Monitoring {
    function Text(): string {
      match this
      case CriticalStatus => "CRITICAL"
      case HighAlert => "HIGH ALERT"
      case Caution => "CAUTION"
      case Monitoring => "MONITORING"
    }
  }

  function SummaryStatus(anomalies: seq<Anomaly>): Status {
    if CountSeverity(anomalies, Critical) > 0 then CriticalStatus
    else if CountSeverity(anomalies, High) > 0 then HighAlert
    else if CountSeverity(anomalies, Medium) > 0 then Caution
    else Monitoring
  }

  function CountSentence(n: nat, text: string): string {
    if n > 0 then NatToString(n) + text else ""
  }

  /** `generateSummary`. */
  function GenerateSummary(anomalies: seq<Anomaly>): string {
    if anomalies == [] then NormalSummary
    else
      "System Status: " + SummaryStatus(anomalies).Text() + "\n"
      + CountSentence(CountSeverity(anomalies, Critical), " critical alerts require immediate attention. ")
      + CountSentence(CountSeverity(anomalies, High), " high priority issues detected. ")
      + CountSentence(CountSeverity(anomalies, Medium), " medium priority items for review. ")
      + CountSentence(CountSeverity(anomalies, Low), " low priority observations noted.")
  }

  lemma CountPositive(anomalies: seq<Anomaly>, s: Severity)
    ensures CountSeverity(anomalies, s) > 0 <==> exists i :: 0 <= i < |anomalies| && anomalies[i].severity == s
  {
    var g := Group(anomalies, s);
    if |g| > 0 {
      assert g[0] in g;
    }
  }

  /** The status is the highest severity present: CRITICAL if any finding
      is critical, otherwise HIGH ALERT if any is high, otherwise CAUTION if
      any is medium, otherwise (all low) MONITORING. */
  lemma SummaryStatusIsHighestSeverity(anomalies: seq<Anomaly>)
    ensures SummaryStatus(anomalies) == CriticalStatus <==>
      exists i :: 0 <= i < |anomalies| && anomalies[i].severity == Critical
    ensures SummaryStatus(anomalies) == HighAlert <==>
      (forall i :: 0 <= i < |anomalies| ==> anomalies[i].severity != Critical)
      && exists i :: 0 <= i < |anomalies| && anomalies[i].severity == High
    ensures SummaryStatus(anomalies) == Caution <==>
      (forall i :: 0 <= i < |anomalies| ==> anomalies[i].severity.Rank() <= Medium.Rank())
      && exists i :: 0 <= i < |anomalies| && anomalies[i].severity == Medium
    ensures SummaryStatus(anomalies) == Monitoring <==>
      forall i :: 0 <= i < |anomalies| ==> anomalies[i].severity == Low
  {
    CountPositive(anomalies, Critical);
    CountPositive(anomalies, High);
    CountPositive(anomalies, Medium);
  }

  /** An empty list gives the fixed all-normal message; otherwise the
      summary opens with the status line. */
  lemma SummaryOpensWithStatus(anomalies: seq<Anomaly>)
    ensures anomalies == [] ==> GenerateSummary(anomalies) == NormalSummary
    ensures anomalies != [] ==> "System Status: " + SummaryStatus(anomalies).Text() + "\n" <= GenerateSummary(anomalies)
  {
    if anomalies != [] {
      PrefixOfAppends("System Status: " + SummaryStatus(anomalies).Text() + "\n",
        CountSentence(CountSeverity(anomalies, Critical), " critical alerts require immediate attention. "),
        CountSentence(CountSeverity(anomalies, High), " high priority issues detected. "),
        CountSentence(CountSeverity(anomalies, Medium), " medium priority items for review. "),
        CountSentence(CountSeverity(anomalies, Low), " low priority observations noted."));
    }
  }

  lemma PrefixOfAppends(a: string, b: string, c: string, d: string, e: string)
    ensures a <= a + b + c + d + e
  {
    assert (a + b + c + d + e)[..|a|] == a;
  }

  /** The four status words are distinct, so the status line names the
      status. */
  lemma StatusTextsDistinct(s: Status, t: Status)
    ensures s.Text() == t.Text() ==> s == t
  {
    assert |"CRITICAL"| == 8 && |"HIGH ALERT"| == 10 && |"CAUTION"| == 7 && |"MONITORING"| == 10;
    assert "HIGH ALERT"[0] != "MONITORING"[0];
  }
}
