/** The anomaly list's view logic: most severe first and newest first within
    one severity, and the ML/Physics tag shown beside each finding. */
module AnomalyList {
  import opened Types
  import opened Text
  import Seqs
  import PhysicsChecker
  import MLModel

  /** The sort comparator: a negative result puts a before b. */
  function Compare(a: Anomaly, b: Anomaly): int {
    var severityDiff := b.severity.Rank() - a.severity.Rank();
    if severityDiff != 0 then severityDiff else b.timestamp - a.timestamp
  }

  /** Reference order, stated without the comparator: a may come before b when
      it is more severe, or equally severe and no older. */
  predicate Precedes(a: Anomaly, b: Anomaly) {
    AtLeast(a.severity, b.severity) && (a.severity == b.severity ==> a.timestamp >= b.timestamp)
  }

  /** The comparator's sign is the reference order, and it is zero exactly
      for equal severity and equal timestamp. */
  lemma CompareMeansPrecedes(a: Anomaly, b: Anomaly)
    ensures Compare(a, b) <= 0 <==> Precedes(a, b)
    ensures Compare(a, b) == 0 <==> a.severity == b.severity && a.timestamp == b.timestamp
  {
  }

  /** A consistent comparator: reflexive zero, antisymmetric sign, transitive. */
  lemma CompareIsPreorder(a: Anomaly, b: Anomaly, c: Anomaly)
    ensures Compare(a, a) == 0
    ensures Compare(a, b) == -Compare(b, a)
    ensures Compare(a, b) <= 0 && Compare(b, c) <= 0 ==> Compare(a, c) <= 0
    ensures Compare(a, b) < 0 && Compare(b, c) < 0 ==> Compare(a, c) < 0
  {
  }

  /** Every pair appears in comparator order. */
  predicate Sorted(s: seq<Anomaly>) {
    forall i, j :: 0 <= i < j < |s| ==> Compare(s[i], s[j]) <= 0
  }

  /** Inserts x ahead of the first element it does not follow. */
  function Insert(x: Anomaly, s: seq<Anomaly>): (r: seq<Anomaly>)
    requires Sorted(s)
    ensures multiset(r) == multiset(s) + multiset{x}
    ensures |r| == |s| + 1
    ensures Sorted(r)
    decreases |s|
  {
    if s == [] || Compare(x, s[0]) <= 0 then
      PrependSorted(x, s);
      [x] + s
    else
      var rest := Insert(x, s[1..]);
      ConsSorted(s[0], x, s[1..], rest);
      assert s == [s[0]] + s[1..];
      [s[0]] + rest
  }

  /** x may head a sorted list whose first element it precedes. */
  lemma PrependSorted(x: Anomaly, s: seq<Anomaly>)
    requires Sorted(s)
    requires s == [] || Compare(x, s[0]) <= 0
    ensures Sorted([x] + s)
  {
    forall j | 0 <= j < |s|
      ensures Compare(x, s[j]) <= 0
    {
      CompareIsPreorder(x, s[0], s[j]);
    }
  }

  /** h may head rest when it precedes x and everything in the tail rest was
      built from. */
  lemma ConsSorted(h: Anomaly, x: Anomaly, tail: seq<Anomaly>, rest: seq<Anomaly>)
    requires Sorted([h] + tail) && Sorted(rest)
    requires Compare(h, x) <= 0
    requires multiset(rest) == multiset(tail) + multiset{x}
    ensures Sorted([h] + rest)
  {
    forall j | 0 <= j < |rest|
      ensures Compare(h, rest[j]) <= 0
    {
      assert rest[j] in multiset(rest);
      if rest[j] != x {
        assert rest[j] in multiset(tail);
        var i :| 0 <= i < |tail| && tail[i] == rest[j];
        assert ([h] + tail)[0] == h && ([h] + tail)[i + 1] == rest[j];
      }
    }
  }

  /** `[...anomalies].sort(comparator)`: a sorted copy. Being a value, the
      argument is left as it was. */
  function SortAnomalies(s: seq<Anomaly>): (r: seq<Anomaly>)
    ensures multiset(r) == multiset(s)
    ensures |r| == |s|
    ensures Sorted(r)
    decreases |s|
  {
    if s == [] then []
    else
      assert s == [s[0]] + s[1..];
      Insert(s[0], SortAnomalies(s[1..]))
  }

  /** The sorted list read back in the source's terms: severity rank never
      rises along the list, and within one severity timestamps never rise. */
  lemma {:induction false} SortedBySeverityThenTime(s: seq<Anomaly>, i: nat, j: nat)
    requires i < j < |SortAnomalies(s)|
    ensures SortAnomalies(s)[i].severity.Rank() >= SortAnomalies(s)[j].severity.Rank()
    ensures SortAnomalies(s)[i].severity == SortAnomalies(s)[j].severity ==>
      SortAnomalies(s)[i].timestamp >= SortAnomalies(s)[j].timestamp
  {
    var r := SortAnomalies(s);
    assert Compare(r[i], r[j]) <= 0;
    CompareMeansPrecedes(r[i], r[j]);
  }

  /** The test selecting the findings that tie under the comparator. */
  function SameKey(severity: Severity, timestamp: int): Anomaly -> bool {
    (a: Anomaly) => a.severity == severity && a.timestamp == timestamp
  }

  /** Inserting x into a sorted list keeps the relative order of x and its ties. */
  lemma {:induction false} InsertKeepsTies(x: Anomaly, s: seq<Anomaly>, k: Severity, t: int)
    requires Sorted(s)
    ensures Seqs.Filter(SameKey(k, t), Insert(x, s)) == Seqs.Filter(SameKey(k, t), [x] + s)
    decreases |s|
  {
    var f := SameKey(k, t);
    if s != [] && Compare(x, s[0]) > 0 {
      var rest := Insert(x, s[1..]);
      assert Insert(x, s) == [s[0]] + rest;
      InsertKeepsTies(x, s[1..], k, t);
      Seqs.FilterSamePrefix(f, [s[0]], rest, [x] + s[1..]);
      Seqs.FilterSwap(f, s[0], x, s[1..]);
      assert [s[0]] + s[1..] == s;
    }
  }

  /** The sort is stable: the findings that tie keep their original order.
      Together with Sorted and the permutation this fixes the result
      completely, as a stable sort does. */
  lemma {:induction false} SortIsStable(s: seq<Anomaly>, k: Severity, t: int)
    ensures Seqs.Filter(SameKey(k, t), SortAnomalies(s)) == Seqs.Filter(SameKey(k, t), s)
    decreases |s|
  {
    if s != [] {
      var f := SameKey(k, t);
      SortIsStable(s[1..], k, t);
      InsertKeepsTies(s[0], SortAnomalies(s[1..]), k, t);
      Seqs.FilterAppend(f, [s[0]], SortAnomalies(s[1..]));
      Seqs.FilterAppend(f, [s[0]], s[1..]);
      assert s == [s[0]] + s[1..];
    }
  }

  /** The small tag beside a finding. */
  datatype Label = MLLabel | PhysicsLabel

  /** `type.includes('ml') ? 'ML' : 'Physics'`. */
  function TypeLabel(kind: string): Label {
    if Contains(kind, "ml") then MLLabel else PhysicsLabel
  }

  /** The type icon: the lightning mark or the warning triangle. */
  datatype TypeIcon = Lightning | Triangle

  /** The icon for a finding type: lightning for `ml` or `pattern` types. */
  function TypeIconOf(kind: string): TypeIcon {
    if Contains(kind, "ml") || Contains(kind, "pattern") then Lightning else Triangle
  }

  /** No threshold type mentions `ml` or `pattern`. Only `temperature` has
      an `m`, never followed by `l`; the two keys with a `p` have no `n`. */
  lemma ThresholdKindUntagged(p: Param)
    ensures !Contains(PhysicsChecker.ThresholdKind(p), "ml") && !Contains(PhysicsChecker.ThresholdKind(p), "pattern")
  {
    var k, name, suffix := PhysicsChecker.ThresholdKind(p), p.Name(), "_threshold";
    assert k == name + suffix;
    assert 'm' !in suffix && 'p' !in suffix && 'n' !in suffix;
    if p == Temperature {
      assert NoPair(name, 'm', 'l');
      AbsentNoPair(suffix, 'm', 'l');
      NoPairConcat(name, suffix, 'm', 'l');
      NoPairNoMatch(k, "ml", 0);
    } else {
      assert 'm' !in name;
      AbsentCharNoMatch(k, "ml", 0, 0);
    }
    if p == Temperature || p == Pressure {
      assert 'n' !in name;
      AbsentCharNoMatch(k, "pattern", 0, 6);
    } else {
      assert 'p' !in name;
      AbsentCharNoMatch(k, "pattern", 0, 0);
    }
  }

  /** No pattern rule's type mentions `ml` or `pattern`. */
  lemma RuleKindUntagged(rule: Rule)
    ensures !Contains(MLModel.RuleKind(rule), "ml") && !Contains(MLModel.RuleKind(rule), "pattern")
  {
    var k := MLModel.RuleKind(rule);
    match rule
    case BearingRule =>
      assert k == "bearing_degradation";
      assert 'm' !in k && 'p' !in k;
      AbsentCharNoMatch(k, "ml", 0, 0);
      AbsentCharNoMatch(k, "pattern", 0, 0);
    case ImpellerRule =>
      assert k == "impeller_wear";
      assert 't' !in k;
      NoPairNoMatch(k, "ml", 0);
      AbsentCharNoMatch(k, "pattern", 0, 2);
    case ElectricalRule =>
      assert k == "electrical_fault";
      assert 'm' !in k && 'p' !in k;
      AbsentCharNoMatch(k, "ml", 0, 0);
      AbsentCharNoMatch(k, "pattern", 0, 0);
  }

  /** Of the engine's finding types only the statistical ones are tagged ML
      and get the lightning icon; threshold findings and all three pattern
      findings, although the latter come from the ML agent, are tagged
      Physics and get the triangle. */
  lemma LabelsOfEngineKinds(p: Param, rule: Rule)
    ensures TypeLabel(MLModel.StatKind(p)) == MLLabel
    ensures TypeIconOf(MLModel.StatKind(p)) == Lightning
    ensures TypeLabel(PhysicsChecker.ThresholdKind(p)) == PhysicsLabel
    ensures TypeIconOf(PhysicsChecker.ThresholdKind(p)) == Triangle
    ensures TypeLabel(MLModel.RuleKind(rule)) == PhysicsLabel
    ensures TypeIconOf(MLModel.RuleKind(rule)) == Triangle
  {
    PrefixContains(MLModel.StatKind(p), "ml");
    ThresholdKindUntagged(p);
    RuleKindUntagged(rule);
  }
}
