/** Comparing distributions: the tester's verify-against-baseline check and the chronic
    drift of a suite run against stored goldens. */
module Drift {
  import opened Prelude
  import opened Stats
  import opened Sorting

  datatype Sample = Sample(metric: string, summary: Summary)

  /** `{s.metric: s for s in samples}.get(metric)`: the last entry of a metric wins. */
  function LastFor(samples: seq<Sample>, metric: string): (r: Option<Sample>)
    ensures r.Some? ==> exists i | 0 <= i < |samples| ::
      && samples[i] == r.value && samples[i].metric == metric
      && forall j | i < j < |samples| :: samples[j].metric != metric
    ensures r.None? ==> forall s | s in samples :: s.metric != metric
  {
    if samples == [] then None
    else
      var last := samples[|samples| - 1];
      if last.metric == metric then Some(last) else LastFor(samples[..|samples| - 1], metric)
  }

  // ----- verify against the baseline -----------------------------------------------------

  predicate IsAnomalous(sample: Sample, baseline: seq<Sample>) {
    var b := LastFor(baseline, sample.metric);
    b.Some? && Flagged(sample.summary.mean, b.value.summary.mean, b.value.summary.variance)
  }

  function Anomalies(measured: seq<Sample>, baseline: seq<Sample>): seq<string> {
    if measured == [] then []
    else
      var front, last := measured[..|measured| - 1], measured[|measured| - 1];
      Anomalies(front, baseline) + (if IsAnomalous(last, baseline) then [last.metric] else [])
  }

  /** `_compare_to_baseline`: the metrics whose mean left three standard deviations, in the
      order they were measured. */
  method CompareToBaseline(measured: seq<Sample>, baseline: seq<Sample>) returns (anomalies: seq<string>)
    ensures anomalies == Anomalies(measured, baseline)
    ensures forall m :: m in anomalies <==> exists s | s in measured :: s.metric == m && IsAnomalous(s, baseline)
  {
    anomalies := [];
    if baseline == [] {
      NoBaselineNoAnomalies(measured);
      return;
    }
    for n := 0 to |measured|
      invariant anomalies == Anomalies(measured[..n], baseline)
      invariant forall m :: m in anomalies <==> exists i | 0 <= i < n ::
          measured[i].metric == m && IsAnomalous(measured[i], baseline)
    {
      var b := LastFor(baseline, measured[n].metric);
      if b.Some? && b.value.summary.variance != 0.0 {
        if Flagged(measured[n].summary.mean, b.value.summary.mean, b.value.summary.variance) {
          anomalies := anomalies + [measured[n].metric];
        }
      }
      assert measured[..n + 1][..n] == measured[..n];
    }
    assert measured[..|measured|] == measured;
  }

  lemma NoBaselineNoAnomalies(measured: seq<Sample>)
    ensures Anomalies(measured, []) == []
  {
  }

  /** Reported are exactly the metrics that the baseline holds with some deviation and whose new mean is more
      than three standard deviations, either way, from the one the baseline lists last. */
  lemma AnomalousIff(sample: Sample, baseline: seq<Sample>, stdev: real)
    requires var b := LastFor(baseline, sample.metric);
             b.Some? ==> stdev >= 0.0 && stdev * stdev == b.value.summary.variance
    ensures IsAnomalous(sample, baseline) <==>
      exists i | 0 <= i < |baseline| ::
        && baseline[i].metric == sample.metric && (forall j | i < j < |baseline| :: baseline[j].metric != sample.metric)
        && stdev != 0.0
        && (sample.summary.mean - baseline[i].summary.mean > 3.0 * stdev
           || baseline[i].summary.mean - sample.summary.mean > 3.0 * stdev)
  {
    var b := LastFor(baseline, sample.metric);
    if b.Some? {
      hide Flagged, Shifted;
      ShiftedIffFlagged(sample.summary.mean, b.value.summary.mean, stdev);
      ShiftedIffFar(sample.summary.mean, b.value.summary.mean, stdev);
    }
  }

  /** The tester never reports a metric whose new mean lies within the range of a baseline of
      at most ten samples. */
  lemma VerifyAcceptsTheBaselineRange(measured: Sample, raw: seq<real>, baseline: seq<Sample>)
    requires 1 <= |raw| <= 10 && InRange(measured.summary.mean, raw)
    requires FromSamples(raw) == Some(Sampled(baseline, measured.metric))
    ensures !IsAnomalous(measured, baseline)
  {
    var s := Sort(raw, RealLeq);
    SortLength(raw);
    SortMembers(raw, RealLeq);
    var x := measured.summary.mean;
    var i, k :| 0 <= i < |raw| && 0 <= k < |raw| && raw[i] <= x <= raw[k];
    assert raw[i] in s && raw[k] in s;
    assert InRange(x, s);
    MeanAndVariance(s);
    RangeNotFlagged(s, Mean(s), Variance(s), x);
  }

  /** The summary the baseline holds for a metric; a flat one when it holds none. */
  function Sampled(baseline: seq<Sample>, metric: string): Summary {
    var b := LastFor(baseline, metric);
    if b.Some? then b.value.summary else Summary(0.0, 0.0, 0.0, 0.0, 0.0)
  }

  // ----- one metric against its golden ------------------------------------------------------

  datatype Direction = HigherWorse | LowerWorse

  datatype Statistic = MeanValue | P50 | P95 | P99

  datatype Threshold = Threshold(metric: string, statistic: Statistic, maxRatio: real,
                                 direction: Direction, absFloor: real)

  /** The bounds the schema enforces on a threshold. */
  type Budget = t: Threshold | t.maxRatio > 1.0 && t.absFloor >= 0.0
    witness Threshold("", P95, 1.1, HigherWorse, 0.0)

  datatype MetricDrift = MetricDrift(metric: string, golden: real, current: real, regressed: bool, missing: bool)

  function Value(s: Summary, statistic: Statistic): real {
    match statistic
    case MeanValue => s.mean
    case P50 => s.p50
    case P95 => s.p95
    case P99 => s.p99
  }

  function CompareMetric(golden: Sample, current: Sample, t: Budget): MetricDrift {
    var g, c := Value(golden.summary, t.statistic), Value(current.summary, t.statistic);
    var regressed :=
      if g <= t.absFloor then false
      else if t.direction == HigherWorse then c > g * t.maxRatio
      else c < g / t.maxRatio;
    MetricDrift(t.metric, g, c, regressed, false)
  }

  /** The exact condition for a regression: the golden statistic is above the floor, and the current one has
      moved in the worse direction by more than the permitted ratio. */
  lemma RegressesIff(golden: Sample, current: Sample, t: Budget)
    ensures var d := CompareMetric(golden, current, t);
            && d.metric == t.metric && !d.missing
            && d.golden == Reading(golden.summary, t.statistic) && d.current == Reading(current.summary, t.statistic)
            && (d.regressed <==>
                  && d.golden > t.absFloor
                  && (t.direction == HigherWorse ==> d.current > d.golden * t.maxRatio)
                  && (t.direction == LowerWorse ==> d.current * t.maxRatio < d.golden))
  {
    var g, c := Reading(golden.summary, t.statistic), Reading(current.summary, t.statistic);
    var q := g / t.maxRatio;
    assert q * t.maxRatio == g;
    assert (q - c) * t.maxRatio == q * t.maxRatio - c * t.maxRatio;
    if c < q {
      PositiveProduct(q - c, t.maxRatio);
    } else {
      ScaleMonotone(q, c, t.maxRatio);
    }
  }

  /** Which number of a summary a threshold is about. */
  function Reading(s: Summary, statistic: Statistic): real {
    if statistic == MeanValue then s.mean else if statistic == P50 then s.p50
    else if statistic == P95 then s.p95 else s.p99
  }

  /** A distribution never regresses against itself; this is where the bounds on thresholds
      are needed. */
  lemma NoDriftFromItself(s: Sample, t: Budget)
    ensures !CompareMetric(s, s, t).regressed
  {
    var g := Value(s.summary, t.statistic);
    if g > t.absFloor {
      BudgetBrackets(g, t.maxRatio);
    }
  }

  lemma BudgetBrackets(g: real, ratio: real)
    requires g > 0.0 && ratio > 1.0
    ensures g / ratio < g < g * ratio
  {
    PositiveProduct(g, ratio - 1.0);
    assert g * (ratio - 1.0) == g * ratio - g;
    var q := g / ratio;
    assert q * ratio == g;
    assert q * (ratio - 1.0) == q * ratio - q;
    if q >= g {
      PositiveProduct(q, ratio - 1.0);
    }
  }

  lemma StatisticsFollowSamples(lo: seq<real>, hi: seq<real>, statistic: Statistic)
    requires lo != [] && Dominated(lo, hi)
    ensures FromSamples(lo).Some? && FromSamples(hi).Some?
    ensures Value(FromSamples(lo).value, statistic) <= Value(FromSamples(hi).value, statistic)
  {
    SummaryMonotone(lo, hi, 0.5);
    SummaryMonotone(lo, hi, 0.95);
    SummaryMonotone(lo, hi, 0.99);
  }

  /** A regression, once flagged, stays flagged when every current sample moves further in the
      worse direction. */
  lemma WorseSamplesStayRegressed(golden: Sample, bad: seq<real>, worse: seq<real>, t: Budget)
    requires bad != [] && |worse| == |bad|
    requires if t.direction == HigherWorse then Dominated(bad, worse) else Dominated(worse, bad)
    ensures FromSamples(bad).Some? && FromSamples(worse).Some?
    ensures CompareMetric(golden, Sample(t.metric, FromSamples(bad).value), t).regressed ==>
        CompareMetric(golden, Sample(t.metric, FromSamples(worse).value), t).regressed
  {
    if t.direction == HigherWorse {
      StatisticsFollowSamples(bad, worse, t.statistic);
    } else {
      StatisticsFollowSamples(worse, bad, t.statistic);
    }
  }

  /** One entry per threshold, in order: a comparison when both sides hold the metric, and
      otherwise an entry marked missing that never counts as a regression. */
  predicate Assessed(golden: seq<Sample>, current: seq<Sample>, t: Budget, d: MetricDrift) {
    var g, c := LastFor(golden, t.metric), LastFor(current, t.metric);
    if g.Some? && c.Some? then d == CompareMetric(g.value, c.value, t)
    else
      && d.metric == t.metric && d.missing && !d.regressed
      && d.golden == (if g.Some? then Value(g.value.summary, t.statistic) else 0.0)
      && d.current == (if c.Some? then Value(c.value.summary, t.statistic) else 0.0)
  }

  method CompareMetrics(golden: seq<Sample>, current: seq<Sample>, thresholds: seq<Budget>)
    returns (drifts: seq<MetricDrift>)
    ensures |drifts| == |thresholds|
    ensures forall i | 0 <= i < |drifts| :: Assessed(golden, current, thresholds[i], drifts[i])
  {
    drifts := [];
    for n := 0 to |thresholds|
      invariant |drifts| == n
      invariant forall i | 0 <= i < n :: Assessed(golden, current, thresholds[i], drifts[i])
    {
      var t := thresholds[n];
      var g, c := LastFor(golden, t.metric), LastFor(current, t.metric);
      if g.None? || c.None? {
        var gv := if g.Some? then Value(g.value.summary, t.statistic) else 0.0;
        var cv := if c.Some? then Value(c.value.summary, t.statistic) else 0.0;
        drifts := drifts + [MetricDrift(t.metric, gv, cv, false, true)];
      } else {
        drifts := drifts + [CompareMetric(g.value, c.value, t)];
      }
    }
  }

  // ----- a suite run against its goldens -------------------------------------------------------

  datatype Outcome = Pass | Regressed | BaselineFail | ErrorOutcome

  datatype Evidence = Evidence(passing: set<string>, metrics: seq<Sample>, thresholds: seq<Budget>)

  datatype Verdict = Verdict(scenario: string, outcome: Outcome, evidence: Option<Evidence>)

  datatype Golden = Golden(passing: set<string>, metrics: seq<Sample>)

  datatype ScenarioDrift = ScenarioDrift(scenario: string, regressed: set<string>, recovered: set<string>,
                                         metrics: seq<MetricDrift>, missingGolden: bool, unassessed: bool)
  {
    predicate Drifted() {
      !unassessed && (regressed != {} || exists i | 0 <= i < |metrics| :: metrics[i].regressed)
    }
  }

  predicate Trustworthy(v: Verdict) {
    v.outcome == Pass || v.outcome == Regressed
  }

  function EvidenceOf(v: Verdict): Evidence {
    v.evidence.GetOr(Evidence({}, [], []))
  }

  /** A dict comprehension: a later verdict of the same scenario replaces an earlier one. */
  function GoldensFromRun(verdicts: seq<Verdict>): map<string, Golden> {
    if verdicts == [] then map[]
    else
      var v := verdicts[|verdicts| - 1];
      var earlier := GoldensFromRun(verdicts[..|verdicts| - 1]);
      if Trustworthy(v) then earlier[v.scenario := Golden(EvidenceOf(v).passing, EvidenceOf(v).metrics)]
      else earlier
  }

  /** What one entry of a drift report has to say about a verdict. */
  predicate Describes(d: ScenarioDrift, v: Verdict, goldens: map<string, Golden>) {
    && d.scenario == v.scenario
    && d.unassessed == (v.outcome == BaselineFail || v.outcome == ErrorOutcome)
    && d.missingGolden == (Trustworthy(v) && v.scenario !in goldens)
    && (d.unassessed || d.missingGolden ==> d.regressed == {} && d.recovered == {} && d.metrics == [])
    && (Trustworthy(v) && v.scenario in goldens ==>
          var g, e := goldens[v.scenario], EvidenceOf(v);
          && d.regressed == g.passing - e.passing
          && d.recovered == e.passing - g.passing
          && |d.metrics| == |e.thresholds|
          && forall i | 0 <= i < |d.metrics| :: Assessed(g.metrics, e.metrics, e.thresholds[i], d.metrics[i]))
  }

  predicate Report(scenarios: seq<ScenarioDrift>, verdicts: seq<Verdict>, goldens: map<string, Golden>) {
    |scenarios| == |verdicts| && forall i | 0 <= i < |scenarios| :: Describes(scenarios[i], verdicts[i], goldens)
  }

  method DriftReport(verdicts: seq<Verdict>, goldens: map<string, Golden>) returns (scenarios: seq<ScenarioDrift>)
    ensures Report(scenarios, verdicts, goldens)
  {
    scenarios := [];
    for n := 0 to |verdicts|
      invariant |scenarios| == n && forall i | 0 <= i < n :: Describes(scenarios[i], verdicts[i], goldens)
    {
      var v := verdicts[n];
      if !Trustworthy(v) {
        scenarios := scenarios + [ScenarioDrift(v.scenario, {}, {}, [], false, true)];
        continue;
      }
      if v.scenario !in goldens {
        scenarios := scenarios + [ScenarioDrift(v.scenario, {}, {}, [], true, false)];
        continue;
      }
      var g, e := goldens[v.scenario], EvidenceOf(v);
      var metrics := CompareMetrics(g.metrics, e.metrics, e.thresholds);
      scenarios := scenarios
        + [ScenarioDrift(v.scenario, g.passing - e.passing, e.passing - g.passing, metrics, false, false)];
    }
  }

  function RegressedScenarios(scenarios: seq<ScenarioDrift>): nat {
    if scenarios == [] then 0
    else (if scenarios[0].Drifted() then 1 else 0) + RegressedScenarios(scenarios[1..])
  }

  /** No scenario id was measured twice. Verdicts without a trustworthy baseline may repeat one. */
  predicate MeasuredOnce(verdicts: seq<Verdict>) {
    forall i, j | 0 <= i < j < |verdicts| && Trustworthy(verdicts[i]) && Trustworthy(verdicts[j]) ::
      verdicts[i].scenario != verdicts[j].scenario
  }

  lemma {:induction false} GoldenOfMeasuredOnce(verdicts: seq<Verdict>, i: nat)
    requires i < |verdicts| && MeasuredOnce(verdicts) && Trustworthy(verdicts[i])
    ensures verdicts[i].scenario in GoldensFromRun(verdicts)
    ensures GoldensFromRun(verdicts)[verdicts[i].scenario]
         == Golden(EvidenceOf(verdicts[i]).passing, EvidenceOf(verdicts[i]).metrics)
  {
    if i < |verdicts| - 1 {
      GoldenOfMeasuredOnce(verdicts[..|verdicts| - 1], i);
    }
  }

  /** The golden of a scenario measured at i is the one of i or of a later verdict. */
  lemma {:induction false} GoldenIsLatest(verdicts: seq<Verdict>, i: nat) returns (k: nat)
    requires i < |verdicts| && Trustworthy(verdicts[i])
    ensures i <= k < |verdicts| && Trustworthy(verdicts[k]) && verdicts[k].scenario == verdicts[i].scenario
    ensures verdicts[i].scenario in GoldensFromRun(verdicts)
    ensures GoldensFromRun(verdicts)[verdicts[i].scenario]
         == Golden(EvidenceOf(verdicts[k]).passing, EvidenceOf(verdicts[k]).metrics)
  {
    var n := |verdicts| - 1;
    if Trustworthy(verdicts[n]) && verdicts[n].scenario == verdicts[i].scenario {
      k := n;
    } else {
      k := GoldenIsLatest(verdicts[..n], i);
    }
  }

  /** Frozen are the scenarios with a baseline that measured cleanly, each as its last such verdict has it. */
  lemma {:induction false} GoldensAre(verdicts: seq<Verdict>, scenario: string)
    ensures scenario in GoldensFromRun(verdicts) <==>
      exists i | 0 <= i < |verdicts| :: Measures(verdicts[i], scenario)
    ensures forall i | 0 <= i < |verdicts| && Measures(verdicts[i], scenario)
        && (forall j | i < j < |verdicts| :: !Measures(verdicts[j], scenario)) ::
      && scenario in GoldensFromRun(verdicts)
      && GoldensFromRun(verdicts)[scenario] ==
           if verdicts[i].evidence.None? then Golden({}, [])
           else Golden(verdicts[i].evidence.value.passing, verdicts[i].evidence.value.metrics)
  {
    if verdicts != [] {
      var front := verdicts[..|verdicts| - 1];
      GoldensAre(front, scenario);
      assert forall i | 0 <= i < |front| :: front[i] == verdicts[i];
      assert Measures(verdicts[|verdicts| - 1], scenario) <==>
        Trustworthy(verdicts[|verdicts| - 1]) && verdicts[|verdicts| - 1].scenario == scenario;
    }
  }

  predicate Measures(v: Verdict, scenario: string) {
    v.scenario == scenario && (v.outcome == Pass || v.outcome == Regressed)
  }

  /** The count of a drift report. */
  lemma {:induction false} RegressedScenariosCounts(scenarios: seq<ScenarioDrift>)
    ensures RegressedScenarios(scenarios) == |Select(scenarios, (d: ScenarioDrift) => !d.unassessed
        && (d.regressed != {} || exists i | 0 <= i < |d.metrics| :: d.metrics[i].regressed))|
  {
    if scenarios != [] {
      RegressedScenariosCounts(scenarios[1..]);
    }
  }

  lemma {:induction false} NoneDrifted(scenarios: seq<ScenarioDrift>)
    ensures RegressedScenarios(scenarios) == 0 <==> forall i | 0 <= i < |scenarios| :: !scenarios[i].Drifted()
  {
    if scenarios != [] {
      NoneDrifted(scenarios[1..]);
      if RegressedScenarios(scenarios) == 0 {
        forall i | 0 <= i < |scenarios| ensures !scenarios[i].Drifted() {
          if i > 0 {
            assert scenarios[i] == scenarios[1..][i - 1];
          }
        }
      } else if !scenarios[0].Drifted() {
        var i :| 0 <= i < |scenarios[1..]| && scenarios[1..][i].Drifted();
        assert scenarios[i + 1].Drifted();
      }
    }
  }

  /** The round trip: a run compared with the goldens frozen from that same run has no
      regressed scenario, provided no scenario was measured twice. */
  lemma FreezeThenCompareIsClean(verdicts: seq<Verdict>, scenarios: seq<ScenarioDrift>)
    requires MeasuredOnce(verdicts)
    requires Report(scenarios, verdicts, GoldensFromRun(verdicts))
    ensures RegressedScenarios(scenarios) == 0
  {
    forall i | 0 <= i < |scenarios| ensures !scenarios[i].Drifted() {
      var v, d := verdicts[i], scenarios[i];
      if Trustworthy(v) {
        GoldenOfMeasuredOnce(verdicts, i);
        forall k | 0 <= k < |d.metrics| ensures !d.metrics[k].regressed {
          var t := EvidenceOf(v).thresholds[k];
          var s := LastFor(EvidenceOf(v).metrics, t.metric);
          if s.Some? {
            NoDriftFromItself(s.value, t);
          }
        }
      }
    }
    NoneDrifted(scenarios);
  }

  /** The same scenarios with the same outcomes, whatever has been measured. */
  predicate SameOutcomes(a: seq<Verdict>, b: seq<Verdict>) {
    |a| == |b| && forall i | 0 <= i < |a| :: a[i].scenario == b[i].scenario && a[i].outcome == b[i].outcome
  }

  /** Evidence in which one journey passes everywhere but at i. */
  function FailingAt(verdicts: seq<Verdict>, i: nat): (r: seq<Verdict>)
    ensures SameOutcomes(r, verdicts)
  {
    seq(|verdicts|, k requires 0 <= k < |verdicts| =>
      verdicts[k].(evidence := Some(Evidence(if k == i then {} else {"checkout"}, [], []))))
  }

  /** The drift report, where no metric has a threshold. */
  function BareReport(verdicts: seq<Verdict>, goldens: map<string, Golden>): seq<ScenarioDrift> {
    seq(|verdicts|, k requires 0 <= k < |verdicts| =>
      var v := verdicts[k];
      if !Trustworthy(v) then ScenarioDrift(v.scenario, {}, {}, [], false, true)
      else if v.scenario !in goldens then ScenarioDrift(v.scenario, {}, {}, [], true, false)
      else
        var g, e := goldens[v.scenario], EvidenceOf(v);
        ScenarioDrift(v.scenario, g.passing - e.passing, e.passing - g.passing, [], false, false))
  }

  lemma BareReportIs(verdicts: seq<Verdict>, i: nat, goldens: map<string, Golden>)
    ensures Report(BareReport(FailingAt(verdicts, i), goldens), FailingAt(verdicts, i), goldens)
  {
  }

  /** A scenario measured twice: the later golden is held against the earlier verdict, so a journey
      that only the later one saw passing counts as regressed. */
  lemma MeasuredTwiceDrifts(verdicts: seq<Verdict>, i: nat, j: nat)
      returns (vs: seq<Verdict>, scenarios: seq<ScenarioDrift>)
    requires i < j < |verdicts| && Trustworthy(verdicts[i]) && Trustworthy(verdicts[j])
    requires verdicts[i].scenario == verdicts[j].scenario
    ensures SameOutcomes(vs, verdicts) && Report(scenarios, vs, GoldensFromRun(vs)) && RegressedScenarios(scenarios) > 0
  {
    vs := FailingAt(verdicts, i);
    scenarios := BareReport(vs, GoldensFromRun(vs));
    BareReportIs(verdicts, i, GoldensFromRun(vs));
    hide BareReport;
    var k := GoldenIsLatest(vs, j);
    assert GoldensFromRun(vs)[vs[i].scenario].passing == {"checkout"};
    assert "checkout" in scenarios[i].regressed && scenarios[i].Drifted();
    NoneDrifted(scenarios);
  }

  /** The smallest such run: one scenario, measured twice. */
  lemma RepeatedScenarioDrifts()
    ensures var verdicts := [Verdict("scn", Pass, Some(Evidence({}, [], []))),
                             Verdict("scn", Pass, Some(Evidence({"checkout"}, [], [])))];
            forall scenarios: seq<ScenarioDrift> | Report(scenarios, verdicts, GoldensFromRun(verdicts)) ::
              RegressedScenarios(scenarios) > 0
  {
    var verdicts := [Verdict("scn", Pass, Some(Evidence({}, [], []))),
                     Verdict("scn", Pass, Some(Evidence({"checkout"}, [], [])))];
    assert GoldensFromRun(verdicts)["scn"] == Golden({"checkout"}, []);
    forall scenarios: seq<ScenarioDrift> | Report(scenarios, verdicts, GoldensFromRun(verdicts))
      ensures RegressedScenarios(scenarios) > 0
    {
      assert Describes(scenarios[0], verdicts[0], GoldensFromRun(verdicts));
      assert "checkout" in scenarios[0].regressed;
      assert scenarios[0].Drifted();
      NoneDrifted(scenarios);
    }
  }

  /** The exact condition: freezing goldens and comparing at once reports no regressed scenario,
      whatever has been measured, if and only if no scenario was measured twice. */
  lemma RoundTripIsCleanIff(verdicts: seq<Verdict>)
    ensures (forall vs, scenarios | SameOutcomes(vs, verdicts) && Report(scenarios, vs, GoldensFromRun(vs)) ::
              RegressedScenarios(scenarios) == 0) <==>
       MeasuredOnce(verdicts)
  {
    if MeasuredOnce(verdicts) {
      forall vs, scenarios | SameOutcomes(vs, verdicts) && Report(scenarios, vs, GoldensFromRun(vs))
        ensures RegressedScenarios(scenarios) == 0
      {
        FreezeThenCompareIsClean(vs, scenarios);
      }
    } else {
      var i, j :| 0 <= i < j < |verdicts| && Trustworthy(verdicts[i]) && Trustworthy(verdicts[j])
               && verdicts[i].scenario == verdicts[j].scenario;
      var vs, scenarios := MeasuredTwiceDrifts(verdicts, i, j);
    }
  }

  /** The two lists of a scenario's drift are exactly the difference: applied to the golden's
      passing set they give the current one. */
  lemma DriftReconstructsCurrent(d: ScenarioDrift, v: Verdict, goldens: map<string, Golden>)
    requires Describes(d, v, goldens) && Trustworthy(v) && v.scenario in goldens
    ensures (goldens[v.scenario].passing - d.regressed) + d.recovered == EvidenceOf(v).passing
    ensures d.regressed !! d.recovered
  {
  }
}
