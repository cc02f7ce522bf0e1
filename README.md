# Pump anomaly engine — a Dafny model

This project models the anomaly-classification engine of an offshore pump
monitoring dashboard. Four simulated pumps report six parameters per reading
(vibration, temperature, pressure, flow rate, current, voltage). Each
monitoring cycle runs every reading through two detectors:

- the **physics checker** compares each value with the pump's inclusive
  operating range and grades the relative deviation;
- the **ML model** keeps a bounded history per pump (newest 100 readings),
  scores every parameter by its z-score over that window, applies three
  fixed multi-parameter failure signatures (bearing, impeller, electrical)
  and estimates time to failure from the trend of the last twenty readings.

Around the detectors sit the aggregation rules:

- the **reporter**'s per-pump report: findings grouped by severity, a
  parameter frequency tally, the primary concern, the pattern flag, the
  average confidence, and the one-line status summary;
- the **anomaly list**'s ordering (most severe first, newest first within a
  severity) and its ML/Physics tag;
- the **dashboard**'s one-minute system status, its bounded buffers
  (50 readings per pump, 100 findings in the log), the per-card and
  per-report selections, and the monitoring cycle that ties it together.

One module per source file: `Types` (readings, ranges, findings, and a
`Num` type for the JavaScript numbers a detector can produce — finite, the
two infinities, NaN), `SampleData`, `PhysicsChecker`, `MLModel`, `Reporter`,
`AnomalyList` and `Dashboard`. Three helper modules support them: `Stats`
(mean, population variance, Samuelson's inequality), `Seqs` (filter,
last-n) and `Text` (substring search and number formatting).

The engine's state follows the source's form:

- the ML model is a class whose `historicalData` dictionary is a `map`
  field that `AddData` reassigns;
- the threshold check, the section-by-section report building and the
  monitoring cycle are methods with loops, each proved equal to a
  reference function;
- the rest are functions, with lemmas stating what the source promises.

Divisions by zero are resolved exactly as JavaScript resolves them:

- A physics range with `min == max` gives +Infinity, so the severity is
  critical. A value equal to that bound gives 0/0 = NaN, so the severity
  is low.
- A window with zero spread gives a NaN z-score for a value at the mean,
  which raises no finding. Any other value gets +Infinity, which raises a
  critical finding with confidence 0.99 and an estimate of 1 day.
- A zero older mean makes that trend an infinity or NaN. The clamp turns
  +Infinity into 0.95 and -Infinity into 0. A NaN probability, from 0/0 or
  from opposite infinities, makes the prediction `Indeterminate`.

Where the code and the documented design disagree, the model follows the
code:

- The pattern rules run only behind the same ten-reading minimum as the
  z-scores. So with a short history no electrical-fault finding is
  reported, however extreme the reading.
- Zero divisors are not guarded. They behave as described above.
- The three pattern findings have types without `ml` in them. So the
  anomaly list tags them "Physics" and shows the triangle icon, although
  the ML model produces them.
- The report's pattern flag is never raised by `electrical_fault`. Its
  `pattern` test matches no type the engine produces.

## Model

| member | source | states |
|---|---|---|
| Types.ClassifyBands | src/agents/PhysicsChecker.ts:48-51 | with ordered breakpoints each severity holds on exactly one interval of the score (critical above the top breakpoint, low at or below the bottom one); both detectors grade through it |
| Types.ClassifyMonotone | src/agents/MLModel.ts:112-117 | a larger score never gives a lower severity, and +Infinity is critical |
| Types.AllParamsIndexed | src/agents/PhysicsChecker.ts:10-17 | the check order lists each of the six parameters exactly once, at its own index |
| SampleData.GenerateSensorData | src/data/sampleData.ts:85-97 | the reading carries the requested pump id and the clock time, and every field is non-negative |
| SampleData.NoiseBounds | src/data/sampleData.ts:86 | a draw in [0, 1) gives noise in [-0.1, 0.1) |
| SampleData.GeneratedWithinNoiseBand | src/data/sampleData.ts:91-96 | each generated field lies in [base - 0.1 k, base + 0.1 k) for the field's noise factor k |
| SampleData.ShippedThresholdsWellFormed | src/data/sampleData.ts:42-75 | the threshold table and the simulator cover exactly the four shipped pump ids, and every range has min < max |
| SampleData.HealthyPumpsInRange | src/data/sampleData.ts:79-81 | PUMP-001 to PUMP-003 always generate values strictly inside all their ranges |
| SampleData.FailingPumpOutOfRange | src/data/sampleData.ts:82 | PUMP-004 always generates values outside all six of its ranges |
| PhysicsChecker.CalculateSeverity | src/agents/PhysicsChecker.ts:41-52 | `calculateSeverity`: the relative deviation in IEEE arithmetic, graded by the breakpoints 0.5, 0.3, 0.1; its properties are stated by PhysicsChecker.SeverityOfRange, PhysicsChecker.DeviationAboveOne and Types.ClassifyBands |
| PhysicsChecker.SeverityOfRange | src/agents/PhysicsChecker.ts:41-52 | on a proper range every out-of-range value is critical; on a zero-width range the value is critical exactly when it differs from the bound, low otherwise; an inverted range gives low |
| PhysicsChecker.DeviationAboveOne | src/agents/PhysicsChecker.ts:42-46 | outside a proper range the relative deviation is finite and above 1 |
| PhysicsChecker.GetRecommendation | src/agents/PhysicsChecker.ts:54-95 | `getRecommendation`: the advice table looked up by parameter key and severity name, with the fallback; its properties are stated by PhysicsChecker.RecommendationLookup and PhysicsChecker.AdviceIsNotFallback |
| PhysicsChecker.ParamNamed | src/agents/PhysicsChecker.ts:94 | the parameter key lookup is the inverse of the key names |
| PhysicsChecker.SeverityNamed | src/agents/PhysicsChecker.ts:94 | the severity lookup is the inverse of the severity names |
| PhysicsChecker.RecommendationLookup | src/agents/PhysicsChecker.ts:54-95 | the fallback advice is returned exactly when the parameter or the severity is not a table key; otherwise the table entry is |
| PhysicsChecker.AdviceIsNotFallback | src/agents/PhysicsChecker.ts:55-92 | none of the 24 table entries is the fallback text |
| PhysicsChecker.ThresholdFindings | src/agents/PhysicsChecker.ts:5-39 | the findings `checkThresholds` returns for a pump's ranges; its properties are stated by PhysicsChecker.NoFindingsIffInRange, PhysicsChecker.FindingIffOutOfRange, PhysicsChecker.FindingsInFixedOrder and PhysicsChecker.FindingFields |
| PhysicsChecker.FiredMember | src/agents/PhysicsChecker.ts:19-21 | a parameter is reported exactly when it is checked and its value is outside its range |
| PhysicsChecker.FiredInOrder | src/agents/PhysicsChecker.ts:10-19 | the reported parameters keep the fixed check order |
| PhysicsChecker.CheckThresholds | src/agents/PhysicsChecker.ts:5-39 | no result (the source throws) exactly for a pump without a threshold table; otherwise the loop returns the reference findings for that pump's ranges |
| PhysicsChecker.NoFindingsIffInRange | src/agents/PhysicsChecker.ts:19-36 | no finding at all exactly when every value lies within its range |
| PhysicsChecker.FindingIffOutOfRange | src/agents/PhysicsChecker.ts:19-36 | there is a finding about parameter p exactly when p's value is outside its range |
| PhysicsChecker.FindingsInFixedOrder | src/agents/PhysicsChecker.ts:10-36 | at most six findings, each about one parameter, in the fixed parameter order, so never two about the same parameter |
| PhysicsChecker.FindingFields | src/agents/PhysicsChecker.ts:23-33 | every finding has the reading's pump and timestamp, type `<param>_threshold`, confidence 0.95, its parameter alone, an above/below flag true exactly when the value exceeds max, and the table advice for its severity; it is critical on a proper range |
| PhysicsChecker.ShippedFindingsCritical | src/agents/PhysicsChecker.ts:21-33 | with the shipped table every physics finding is critical: the lower grades are unreachable |
| PhysicsChecker.HealthyPumpsNoFindings | src/data/sampleData.ts:44-66 | simulated readings of the three healthy pumps raise no physics finding |
| PhysicsChecker.FailingPumpSixCritical | src/data/sampleData.ts:68-73 | a simulated reading of PUMP-004 raises six critical findings, one per parameter, in the fixed order |
| MLModel.AppendedKeepsNewest | src/agents/MLModel.ts:6-18 | the history keeps the last 100 of the old history plus the reading: the reading is last, the length stays within 100, order is kept, and only a full history loses its head |
| MLModel.MLModel.constructor | src/agents/MLModel.ts:4 | the model starts with no history |
| MLModel.MLModel.AddData | src/agents/MLModel.ts:6-18 | the reading's pump gets the bounded append of its history; every other pump's history is unchanged |
| MLModel.MLModel.DetectAnomalies | src/agents/MLModel.ts:20-59 | the loop returns the reference findings for the pump's current history |
| MLModel.MLModel.ScoreParameter | src/agents/MLModel.ts:30-34 | the score equals the reference z-score; with a true square root, a reading in the window scores NaN or z with z^2 <= N - 1, a window without spread gives NaN at its mean and +Infinity elsewhere, and with spread the 2.5 threshold is passed exactly when the squared deviation exceeds 6.25 times the variance |
| MLModel.MLModel.PredictFailure | src/agents/MLModel.ts:125-150 | a pump with fewer than twenty readings gets the no-signal default (probability 0, 365 days); any estimate has probability in [0, 0.95] and 18 to 365 days |
| MLModel.ZScore | src/agents/MLModel.ts:30-34 | the z-score over a window in IEEE arithmetic; its properties are stated by MLModel.ZScoreSquaredForm, MLModel.ZScoreZeroVariance and MLModel.ZScoreInWindow |
| MLModel.MLSeverity | src/agents/MLModel.ts:112-117 | `calculateMLSeverity`: breakpoints 4, 3.5, 3; its properties are stated by Types.ClassifyBands and Types.ClassifyMonotone |
| MLModel.MLRecommendation | src/agents/MLModel.ts:119-123 | `getMLRecommendation`; its properties are stated by MLModel.DaysToFailure and MLModel.RecommendationUrgency |
| MLModel.MLFindings | src/agents/MLModel.ts:20-59 | what `detectAnomalies` returns on a history; its properties are stated by MLModel.StatFindingIffAboveThreshold, MLModel.StatFindingsShape, MLModel.StatFindingFields and MLModel.PatternRules |
| MLModel.Confidence | src/agents/MLModel.ts:37 | above the threshold the confidence lies in (0.625, 0.99] |
| MLModel.DaysToFailure | src/agents/MLModel.ts:120 | above the threshold the estimate is 1 to 12 days, +Infinity included |
| MLModel.RecommendationUrgency | src/agents/MLModel.ts:119-123 | the advice ends with the call for immediate action exactly when the severity is critical, whatever the day estimate |
| MLModel.ZFiredMember | src/agents/MLModel.ts:29-36 | a parameter fires exactly when its z-score exceeds 2.5 |
| MLModel.ZFiredInOrder | src/agents/MLModel.ts:27-29 | statistical findings follow the fixed parameter order, one per parameter at most |
| MLModel.StatFindingsShape | src/agents/MLModel.ts:29-52 | one statistical finding per firing parameter, with that parameter alone and the severity of its z-score |
| MLModel.StatFindingIffAboveThreshold | src/agents/MLModel.ts:20-59 | below ten readings nothing is reported, pattern findings included; otherwise a finding about p alone is reported exactly when p's z-score exceeds 2.5 |
| MLModel.StatFindingFields | src/agents/MLModel.ts:36-50 | every statistical finding has the reading's pump and timestamp, type `ml_anomaly_<param>`, the severity of its z-score, confidence in (0.625, 0.99], an estimate of 1 to 12 days, and urgent advice exactly when critical |
| MLModel.ZScoreSquaredForm | src/agents/MLModel.ts:31-36 | with non-zero variance the z-score exceeds t exactly when (v - mean)^2 > t^2 times the variance |
| MLModel.ZScoreZeroVariance | src/agents/MLModel.ts:32-34 | with zero variance the score is NaN at the mean (no finding) and +Infinity elsewhere (critical) |
| Stats.VarianceNonNegative | src/agents/MLModel.ts:32 | the population variance is never negative, so the square root is defined |
| Stats.SamuelsonBound | src/agents/MLModel.ts:30-34 | every value of a window lies within sqrt(N - 1) standard deviations of the window's mean |
| MLModel.ZScoreInWindow | src/agents/MLModel.ts:30-34 | for a reading already in the window of N readings the z-score is NaN or a finite z with z^2 <= N - 1 |
| MLModel.SmallWindowSeverity | src/agents/MLModel.ts:36-38 | on a window holding the reading, up to 10 readings every statistical finding is low and up to 17 none is critical |
| MLModel.ShippedPumpPatterns | src/data/sampleData.ts:79-82 | PUMP-004 meets all three pattern conditions on every simulated reading; the healthy pumps meet none |
| MLModel.DetectPatterns | src/agents/MLModel.ts:61-110 | `detectPatterns`; its properties are stated by MLModel.PatternRules, MLModel.PatternReportedIffFires and MLModel.PatternFindingFields |
| MLModel.FiredRulesUnfolded | src/agents/MLModel.ts:61-110 | the rules that fire are tried in the order bearing, impeller, electrical |
| MLModel.PatternRules | src/agents/MLModel.ts:61-110 | at most three pattern findings, one per firing rule, in that order |
| MLModel.PatternReportedIffFires | src/agents/MLModel.ts:65-107 | a rule's finding is reported exactly when its strict inequalities hold |
| MLModel.KindsDistinct | src/agents/MLModel.ts:61-110 | findings of different rules always differ |
| MLModel.PatternFindingFields | src/agents/MLModel.ts:65-107 | each pattern finding has the reading's pump and timestamp and its rule's fixed severity, confidence and parameter pair (high 0.87, medium 0.82, critical 0.91) |
| MLModel.PatternParameterPairs | src/agents/MLModel.ts:61-110 | every pattern finding names two parameters |
| MLModel.Predict | src/agents/MLModel.ts:125-150 | `predictFailure` on a history; its properties are stated by MLModel.PredictBounds, MLModel.PredictWithBaselines, MLModel.IndeterminateNeedsZeroBaseline and MLModel.PredictLastTwenty |
| MLModel.ProbabilityClamped | src/agents/MLModel.ts:146 | the clamp keeps the probability in [0, 0.95] whatever the trends, and it is NaN exactly when the trends' sum is |
| MLModel.TimeToFailureMonotone | src/agents/MLModel.ts:147 | days to failure never grow as the probability grows |
| MLModel.PredictBounds | src/agents/MLModel.ts:125-150 | fewer than twenty readings give exactly (0, 365); every estimate has probability in [0, 0.95] and 18 to 365 days |
| MLModel.PredictWithBaselines | src/agents/MLModel.ts:130-147 | with non-zero older means the estimate is the clamped, ten-fold sum of the two relative trends of the last ten readings over the ten before |
| MLModel.IndeterminateNeedsZeroBaseline | src/agents/MLModel.ts:143-146 | the prediction is indeterminate only with twenty readings or more and a zero older mean |
| MLModel.PredictLastTwenty | src/agents/MLModel.ts:130-131 | only the last twenty readings matter |
| Reporter.Group | src/agents/Reporter.ts:9-12 | a group holds exactly the findings of its severity |
| Reporter.GroupMultiset | src/agents/Reporter.ts:9-12 | a group keeps each finding of its severity as often as it occurs |
| Reporter.GroupsPartition | src/agents/Reporter.ts:9-12 | the four groups split the findings: together they hold every finding exactly as often, and their sizes add up |
| Reporter.BumpEffect | src/agents/Reporter.ts:99 | one increment raises one count by one, adds the key if new, and changes no other count |
| Reporter.ParameterCounts | src/agents/Reporter.ts:97-102 | `parameterCounts`; its properties are stated by Reporter.ParameterCountsCorrect and Reporter.TallyCounts |
| Reporter.TallyCounts | src/agents/Reporter.ts:97-102 | the tally counts every parameter exactly as often as it occurs, with distinct keys and positive counts, and has exactly the occurring keys |
| Reporter.ParameterCountsCorrect | src/agents/Reporter.ts:97-102 | each parameter's count is its number of occurrences across the findings' parameter lists, and the counts add up to their total length |
| Reporter.MostAffected | src/agents/Reporter.ts:104-107 | there is a most-affected entry exactly when there are counts |
| Reporter.MostAffectedIsFirstMax | src/agents/Reporter.ts:104-105 | the chosen entry has the maximal count, and every earlier entry has a smaller one: ties go to the first-inserted key, as the stable sort gives |
| Reporter.PrimaryConcernIsMostFrequent | src/agents/Reporter.ts:104-109 | the primary concern is shown exactly when some finding names a parameter, and it is a most frequent parameter with its number of occurrences |
| Reporter.HasPatternAnomalies | src/agents/Reporter.ts:111 | `hasPatternAnomalies`; what each engine finding type does to it is stated by Reporter.PatternFlagByRule (the three pattern-rule types) and Reporter.EngineKindsFlag (the threshold and statistical types) |
| Reporter.PatternFlagByRule | src/agents/Reporter.ts:111 | the bearing and impeller findings raise the pattern flag, and the electrical finding does not |
| Reporter.EngineKindsFlag | src/agents/Reporter.ts:111 | no per-parameter threshold type (`<parameter>_threshold`) and no statistical type (`ml_anomaly_<parameter>`) raises the pattern flag |
| Reporter.AverageConfidence | src/agents/Reporter.ts:116 | `avgConfidence`, over a non-empty list as the early return guarantees; its bounds are stated by Reporter.AverageConfidenceBounds |
| Reporter.SumConfidenceBounds | src/agents/Reporter.ts:116 | the confidence sum lies between n times the least and n times the greatest confidence |
| Reporter.AverageConfidenceBounds | src/agents/Reporter.ts:116 | the average lies between the least and the greatest confidence, so it lies in [0, 1] when every confidence does |
| Reporter.DaysSince | src/agents/Reporter.ts:82-84 | the day count is the floor of the elapsed milliseconds over a day's length |
| Reporter.RecommendationText | src/agents/Reporter.ts:22 | a table recommendation is the physics advice and never the fallback; an estimate's text is urgent exactly when it is critical |
| Reporter.NormalReport | src/agents/Reporter.ts:65-92 | `generateNormalReport` as report lines; the reminder rule is stated by Reporter.ReportNormalIffNoFindings |
| Reporter.InsightLines | src/agents/Reporter.ts:94-129 | `generateMaintenanceInsights` as report lines; its figures are stated by Reporter.PrimaryConcernIsMostFrequent, Reporter.PatternFlagByRule and Reporter.AverageConfidenceBounds |
| Reporter.ReportLines | src/agents/Reporter.ts:4-63 | `generateReport` as report lines; its properties are stated by Reporter.ReportBullets, Reporter.ReportBulletCount and Reporter.ReportNormalIffNoFindings |
| Reporter.AppendSection | src/agents/Reporter.ts:18-48 | adding a section finding by finding appends exactly that section's lines |
| Reporter.GenerateReport | src/agents/Reporter.ts:4-63 | the report built step by step is the reference report, with the maintenance age in whole days |
| Reporter.SectionBullets | src/agents/Reporter.ts:18-48 | a section's bullets are its findings' descriptions in order |
| Reporter.ReportBullets | src/agents/Reporter.ts:4-63 | an empty list gives no bullets; otherwise the bullets are the descriptions of the critical, then high, then medium, then low findings, in list order within each |
| Reporter.ReportBulletCount | src/agents/Reporter.ts:9-48 | a report on n findings has exactly n finding bullets |
| Reporter.ReportNormalIffNoFindings | src/agents/Reporter.ts:4-92 | the report is the normal one exactly when there are no findings, and it carries the maintenance reminder exactly when more than 90 days have passed |
| Reporter.GenerateSummary | src/agents/Reporter.ts:131-149 | `generateSummary`; its properties are stated by Reporter.SummaryOpensWithStatus, Reporter.SummaryStatusIsHighestSeverity and Reporter.StatusTextsDistinct |
| Reporter.CountPositive | src/agents/Reporter.ts:136-139 | a severity's count is positive exactly when some finding has that severity |
| Reporter.SummaryStatusIsHighestSeverity | src/agents/Reporter.ts:141 | the status is CRITICAL, HIGH ALERT, CAUTION or MONITORING according to the highest severity present |
| Reporter.SummaryOpensWithStatus | src/agents/Reporter.ts:131-146 | an empty list gives the fixed all-normal message; otherwise the summary opens with the status line |
| Reporter.StatusTextsDistinct | src/agents/Reporter.ts:141 | the four status words differ, so the status line names the status |
| AnomalyList.Compare | src/components/AnomalyList.tsx:37-43 | the sort comparator; its properties are stated by AnomalyList.CompareMeansPrecedes and AnomalyList.CompareIsPreorder |
| AnomalyList.CompareMeansPrecedes | src/components/AnomalyList.tsx:37-43 | the comparator is non-positive exactly when a is at least as severe and, at equal severity, no older; it is zero exactly on equal severity and timestamp |
| AnomalyList.CompareIsPreorder | src/components/AnomalyList.tsx:37-43 | the comparator is zero on equal arguments, antisymmetric in sign and transitive |
| AnomalyList.Insert | src/components/AnomalyList.tsx:37 | inserting into a sorted list keeps it sorted and adds exactly the one element |
| AnomalyList.SortAnomalies | src/components/AnomalyList.tsx:37-43 | the sorted copy is a permutation of the list, ordered by the comparator |
| AnomalyList.SortedBySeverityThenTime | src/components/AnomalyList.tsx:38-42 | along the sorted list the severity rank never rises, and within a severity the timestamp never rises |
| AnomalyList.SortIsStable | src/components/AnomalyList.tsx:37-43 | findings that tie keep their original order |
| AnomalyList.TypeLabel | src/components/AnomalyList.tsx:74 | the ML/Physics tag; what it gives for each engine finding type is stated by AnomalyList.LabelsOfEngineKinds |
| AnomalyList.TypeIconOf | src/components/AnomalyList.tsx:30-35 | `getTypeIcon`; what it gives for each engine finding type is stated by AnomalyList.LabelsOfEngineKinds |
| AnomalyList.ThresholdKindUntagged | src/components/AnomalyList.tsx:31 | no threshold finding type contains `ml` or `pattern` |
| AnomalyList.RuleKindUntagged | src/components/AnomalyList.tsx:31 | no pattern finding type contains `ml` or `pattern` |
| AnomalyList.LabelsOfEngineKinds | src/components/AnomalyList.tsx:74 | only statistical findings get the ML tag and the lightning icon; threshold and pattern findings get the Physics tag and the triangle |
| Dashboard.GetSystemStatus | src/components/Dashboard.tsx:214-222 | `getSystemStatus`; its properties are stated by Dashboard.SystemStatusIff, Dashboard.QuietFindingsNeverRaise and Dashboard.StatusWindowIsStrict |
| Dashboard.CountRecentPositive | src/components/Dashboard.tsx:215-217 | a severity's recent count is positive exactly when a recent finding has that severity |
| Dashboard.SystemStatusIff | src/components/Dashboard.tsx:214-222 | the status is critical exactly when a finding of the last minute is critical; warning exactly when none is critical and one is high; normal otherwise |
| Dashboard.QuietFindingsNeverRaise | src/components/Dashboard.tsx:214-222 | logging a medium or low finding, or one a minute old or older, leaves the status unchanged |
| Dashboard.StatusWindowIsStrict | src/components/Dashboard.tsx:215 | a critical finding exactly 60000 ms old no longer counts, and one a millisecond younger does |
| Dashboard.PushReading | src/components/Dashboard.tsx:99-107 | the chart buffer push with `slice(-50)`; its properties are stated by Dashboard.PushReadingKeepsNewest |
| Dashboard.PushReadingKeepsNewest | src/components/Dashboard.tsx:99-107 | the chart buffer is the last 50 of the old buffer plus the reading: non-empty, within 50, the reading last, and nothing dropped below the limit |
| Seqs.KeepLast | src/components/Dashboard.tsx:106 | `slice(-n)` keeps a suffix of at most n elements, all of them when there are no more, exactly n otherwise |
| Dashboard.AppendLog | src/components/Dashboard.tsx:180 | the log is the last 100 of the old log and the cycle's findings |
| Dashboard.AppendLogKeepsRecent | src/components/Dashboard.tsx:180 | the log holds at most 100 findings and is a suffix of old and new together; it ends with all new findings when there are at most 100, and nothing is dropped under the limit |
| Dashboard.CardAnomalies | src/components/Dashboard.tsx:282-284 | the card's filter; its property is stated by Dashboard.CardAnomaliesExact |
| Dashboard.CardAnomaliesExact | src/components/Dashboard.tsx:282-284 | a card shows exactly its pump's findings younger than five minutes, each as often as the log holds it |
| Dashboard.ReportAnomalies | src/components/Dashboard.tsx:149 | the report's filter; its property is stated by Dashboard.ReportAnomaliesExact |
| Dashboard.ReportAnomaliesExact | src/components/Dashboard.tsx:149 | the report gets exactly the selected pump's findings of the cycle, of any age |
| Dashboard.ShippedPumps | src/data/sampleData.ts:3-82 | every shipped pump has base values and a threshold table, and no two share an id |
| Dashboard.CycleReadings | src/components/Dashboard.tsx:96-97 | one reading per shipped pump, in pump order, stamped with the cycle's time |
| Dashboard.PushBuffer | src/components/Dashboard.tsx:99-107 | only the reading's pump buffer changes, to the bounded push |
| Dashboard.ProcessPump | src/components/Dashboard.tsx:97-134 | one pump's step buffers the reading and adds it to the model's history. It collects the threshold findings, then the ML findings on the history that already holds the reading |
| Dashboard.ProcessData | src/components/Dashboard.tsx:93-180 | the loop's buffers, histories and findings equal the reference folds over the cycle's readings, and the log is the bounded append |
| Dashboard.PushAllNewest | src/components/Dashboard.tsx:147 | after pushing a sequence of readings, each pump's buffer ends with its last reading of the sequence |
| Dashboard.PushAllBounded | src/components/Dashboard.tsx:105-107 | if no buffer exceeded 50 before the pushes, none does after |
| Dashboard.CycleLatestReading | src/components/Dashboard.tsx:147 | after a cycle each shipped pump's latest buffered reading is the one generated for it in the cycle |
| Dashboard.WarmUpFindingsLow | src/components/Dashboard.tsx:132-133 | because the reading is added before detection, a pump with at most nine earlier readings gets only low statistical findings |

## Left out

- The cloud and AI services are foreign I/O: the AWS data service and its configuration, both generative-AI clients, the connection checker, and the enhanced reporter that orchestrates them. So are the presentation-only components.
- React state, `setInterval`/`setTimeout`, the sleeps and the progress messages of the monitoring cycle are left out. The cycle is one call that receives the previous buffers, the previous log and the model.
- Each render creates a new ML model, and the interval captures the state of its own render. Which model and which buffers the next cycle actually sees is therefore not modelled; they are the cycle's parameters.
- The shallow copy `{ ...sensorData }` shares the per-pump arrays, so `push` also changes the previous state's arrays in place. The buffers are modelled as values, and that aliasing is not captured.
- Wall-clock time is one parameter `now` per cycle. The source calls `Date.now()` separately for each id, for the system status, for the card filter, for each simulated reading's timestamp (src/data/sampleData.ts:89; readings of one cycle differ by at least 700 ms because of the sleeps at src/components/Dashboard.tsx:117 and :130) and for the days since maintenance in the report (src/agents/Reporter.ts:83 and :120).
- `Math.random()` is six draws per reading, passed in; the model assumes nothing about them beyond [0, 1).
- `Math.sqrt` is a parameter `sqrt` with the property "non-negative and squares back". No square root is computed.
- Floating point is modelled as exact reals. Only the IEEE outcomes the engine can reach are modelled: NaN and the infinities from a zero divisor, and `Math.abs`, `Math.min`, `Math.max` and `+` on them. Rounding error is not modelled.
- Anomaly ids are built as in the source, from pump, parameter and clock time. Ids can repeat, as they can in the source, so no uniqueness is claimed.
- Text formatting: `toFixed`, `toLocaleString`, emoji and line breaks. Descriptions are a datatype holding the values they show, and report lines are a `Line` datatype. The exact strings are kept only where a property depends on them: the summary, the advice texts and the finding types.
- Date parsing of `lastMaintenance`: the report takes the maintenance time in milliseconds as a parameter.
- The comparator's rank 0 for an unknown severity: `Severity` has only the four known values, so it cannot occur.
- Severity colours and icons, and the card and chart rendering, are left out.
- The unused history argument of `detectPatterns` is left out.
- Reporter.MostAffected: its ensures only says when an entry exists. The maximum and the tie rule are stated by Reporter.MostAffectedIsFirstMax, and the count-as-occurrences claim by Reporter.PrimaryConcernIsMostFrequent.
