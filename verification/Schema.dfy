/** The benchmark report: what was observed on each side, and when a run counts as complete. */
module Schema {
  import opened Wrappers

  datatype Metric =
    | Cold | Warm | Install | Bundle | Disk | Rss | Pss
    | KernelStart | KernelExec | Bash | GitStatus | Output | Mixed | Interrupt | Snapshot | Restore
    | KernelRss | LoadedRss | FrameDecode
    | ResumeLarge | ResumeLargeCpu | SwitchLarge | SwitchLargeCpu | AgentsView | AgentsViewCpu
    | AgentsRoster | AgentsRosterCpu | AgentsOpen | AgentsOpenCpu | AgentsReopen | AgentsReopenCpu
    | SubagentOpen | SubagentOpenCpu | ParentOpen | ParentOpenCpu | UiRss
    | ScheduledCatalog | ScheduledCatalogCpu | ScheduledCatalogWarm | ScheduledCatalogWarmCpu
    | ColdOpenCatalog | ColdOpenCatalogCpu

  datatype Phase = PreparePhase | InstallPhase | MeasurePhase | RuntimePhase | TransportPhase | UiPhase

  const UI_METRICS: seq<Metric> := [
    ResumeLarge, ResumeLargeCpu, SwitchLarge, SwitchLargeCpu, AgentsView, AgentsViewCpu,
    AgentsRoster, AgentsRosterCpu, AgentsOpen, AgentsOpenCpu, AgentsReopen, AgentsReopenCpu,
    SubagentOpen, SubagentOpenCpu, ParentOpen, ParentOpenCpu, UiRss,
    ScheduledCatalog, ScheduledCatalogCpu, ScheduledCatalogWarm, ScheduledCatalogWarmCpu,
    ColdOpenCatalog, ColdOpenCatalogCpu
  ]

  const PHASES: seq<Phase> := [PreparePhase, InstallPhase, MeasurePhase, RuntimePhase, TransportPhase, UiPhase]

  function PhaseMetrics(phase: Phase): seq<Metric> {
    match phase
    case PreparePhase => [Bundle]
    case InstallPhase => [Install]
    case MeasurePhase => [Cold, Warm, Rss, Disk]
    case RuntimePhase =>
      [KernelStart, KernelExec, Bash, GitStatus, Output, Mixed, Interrupt, Snapshot, Restore, KernelRss, LoadedRss]
    case TransportPhase => [FrameDecode]
    case UiPhase => UI_METRICS
  }

  predicate IsUiMetric(m: Metric) {
    match m
    case ResumeLarge => true
    case ResumeLargeCpu => true
    case SwitchLarge => true
    case SwitchLargeCpu => true
    case AgentsView => true
    case AgentsViewCpu => true
    case AgentsRoster => true
    case AgentsRosterCpu => true
    case AgentsOpen => true
    case AgentsOpenCpu => true
    case AgentsReopen => true
    case AgentsReopenCpu => true
    case SubagentOpen => true
    case SubagentOpenCpu => true
    case ParentOpen => true
    case ParentOpenCpu => true
    case UiRss => true
    case ScheduledCatalog => true
    case ScheduledCatalogCpu => true
    case ScheduledCatalogWarm => true
    case ScheduledCatalogWarmCpu => true
    case ColdOpenCatalog => true
    case ColdOpenCatalogCpu => true
    case _ => false
  }

  datatype Config = Config(trials: nat, installTrials: nat, uiTrials: nat, failureLimit: nat)

  /** The field bounds that the completeness argument needs. */
  predicate ConfigValid(c: Config) {
    3 <= c.trials <= 50 && 1 <= c.installTrials <= 10 && 1 <= c.uiTrials <= 50 && 1 <= c.failureLimit <= 10
  }

  datatype Observation = Observation(trial: nat, value: Option<real>, error: Option<string>)

  /** Either a value or an error, and never both. */
  predicate ObservationValid(o: Observation) {
    o.value.None? != o.error.None?
  }

  datatype Side = Side(sha: string, metrics: map<Metric, seq<Observation>>, error: Option<string>)

  function Samples(side: Side, m: Metric): seq<Observation> {
    if m in side.metrics then side.metrics[m] else []
  }

  /** How many observations of a metric a finished side has. */
  function ExpectedCount(c: Config, m: Metric): nat {
    if m == Bundle || m == Disk then 1
    else if m == Install then c.installTrials
    else if IsUiMetric(m) then c.uiTrials
    else c.trials
  }

  predicate DistinctTrials(samples: seq<Observation>) {
    forall i, j | 0 <= i < j < |samples| :: samples[i].trial != samples[j].trial
  }

  /** What `validate_outcome` and `validate_revisions` let through for one side. */
  predicate SideValid(c: Config, side: Side) {
    forall m <- side.metrics ::
      var samples := side.metrics[m];
      && |samples| <= ExpectedCount(c, m) && DistinctTrials(samples)
      && forall s <- samples :: ObservationValid(s) && s.trial < ExpectedCount(c, m)
  }

  /** Python's truthiness of an optional string. */
  predicate Truthy(s: Option<string>) {
    s.Some? && s.value != ""
  }

  /** The metrics a trial of a phase must produce: the disk is measured only by the first. */
  predicate Due(phase: Phase, trial: nat, m: Metric) {
    m in PhaseMetrics(phase) && (m != Disk || trial == 0)
  }

  function DueMetrics(phase: Phase, trial: nat): seq<Metric> {
    Keep(PhaseMetrics(phase), trial)
  }

  function Keep(metrics: seq<Metric>, trial: nat): (kept: seq<Metric>)
    ensures forall m :: m in kept <==> m in metrics && (m != Disk || trial == 0)
  {
    if metrics == [] then []
    else (if metrics[0] != Disk || trial == 0 then [metrics[0]] else []) + Keep(metrics[1..], trial)
  }

  function OfTrial(samples: seq<Observation>, trial: nat): (r: seq<Observation>)
    ensures forall s :: s in r <==> s in samples && s.trial == trial
  {
    if samples == [] then []
    else (if samples[0].trial == trial then [samples[0]] else []) + OfTrial(samples[1..], trial)
  }

  /** The errors that the samples of one metric report for a trial, in order. */
  function SampleErrors(samples: seq<Observation>): seq<string> {
    if samples == [] then []
    else (if Truthy(samples[0].error) then [samples[0].error.value] else []) + SampleErrors(samples[1..])
  }

  function ReportedErrors(side: Side, metrics: seq<Metric>, trial: nat): seq<(Metric, string)> {
    if metrics == [] then []
    else Labelled(metrics[0], SampleErrors(OfTrial(Samples(side, metrics[0]), trial)))
         + ReportedErrors(side, metrics[1..], trial)
  }

  function Labelled(m: Metric, errors: seq<string>): seq<(Metric, string)> {
    seq(|errors|, i requires 0 <= i < |errors| => (m, errors[i]))
  }

  function Missing(side: Side, metrics: seq<Metric>, trial: nat): (missing: seq<Metric>)
    ensures forall m :: m in missing <==> m in metrics && OfTrial(Samples(side, m), trial) == []
  {
    if metrics == [] then []
    else (if OfTrial(Samples(side, metrics[0]), trial) == [] then [metrics[0]] else [])
         + Missing(side, metrics[1..], trial)
  }

  datatype Cause =
    SideError(message: string) | MetricError(metric: Metric, message: string) | MeasurementMissing(metric: Metric)

  /** `trial_errors`: the side's error and the trial's reported errors or, only without any, what is missing. */
  function TrialErrors(side: Side, phase: Phase, trial: nat): seq<Cause> {
    var metrics := DueMetrics(phase, trial);
    var reported := ReportedErrors(side, metrics, trial);
    var errors := (if Truthy(side.error) then [SideError(side.error.value)] else [])
                  + seq(|reported|, i requires 0 <= i < |reported| => MetricError(reported[i].0, reported[i].1));
    if errors != [] then errors
    else
      var missing := Missing(side, metrics, trial);
      seq(|missing|, i requires 0 <= i < |missing| => MeasurementMissing(missing[i]))
  }

  predicate HasTrial(samples: seq<Observation>, trial: nat) {
    exists s <- samples :: s.trial == trial
  }

  /** The trials are exactly 0 to count - 1, each observed once and with a value. */
  predicate MetricComplete(samples: seq<Observation>, count: nat) {
    && (forall s <- samples :: s.trial < count && s.value.Some?)
    && (forall t | 0 <= t < count :: HasTrial(samples, t))
    && |samples| == count
  }

  predicate SideComplete(c: Config, side: Side) {
    && (forall phase <- PHASES, m <- PhaseMetrics(phase) :: MetricComplete(Samples(side, m), ExpectedCount(c, m)))
    && !Truthy(side.error)
  }

  /** How many trials the controller runs of each phase. */
  function PhaseCount(c: Config, phase: Phase): nat {
    match phase
    case PreparePhase => 1
    case InstallPhase => c.installTrials
    case UiPhase => c.uiTrials
    case _ => c.trials
  }

  // ---------------------------------------------------------------- the two definitions agree

  /** A failed sample whose error is the empty string: it is there, it has no value, and it reports nothing. */
  predicate Silent(s: Observation) {
    s.error == Some("")
  }

  predicate NoneSilent(samples: seq<Observation>) {
    forall s <- samples :: !Silent(s)
  }

  predicate NoSilentFailures(side: Side) {
    forall phase <- PHASES, m <- PhaseMetrics(phase) :: NoneSilent(Samples(side, m))
  }

  lemma {:induction false} NoSampleErrors(samples: seq<Observation>)
    ensures SampleErrors(samples) == [] <==> forall s <- samples :: !Truthy(s.error)
  {
    if samples != [] {
      NoSampleErrors(samples[1..]);
      assert samples == [samples[0]] + samples[1..];
    }
  }

  lemma {:induction false} NoReportedErrors(side: Side, metrics: seq<Metric>, trial: nat)
    ensures ReportedErrors(side, metrics, trial) == []
            <==> forall m <- metrics, s <- Samples(side, m) | s.trial == trial :: !Truthy(s.error)
  {
    if metrics != [] {
      NoReportedErrors(side, metrics[1..], trial);
      NoSampleErrors(OfTrial(Samples(side, metrics[0]), trial));
      assert metrics == [metrics[0]] + metrics[1..];
      var first := Labelled(metrics[0], SampleErrors(OfTrial(Samples(side, metrics[0]), trial)));
      assert ReportedErrors(side, metrics, trial) == first + ReportedErrors(side, metrics[1..], trial);
    }
  }

  lemma OfTrialEmpty(samples: seq<Observation>, trial: nat)
    ensures OfTrial(samples, trial) == [] <==> !HasTrial(samples, trial)
  {
    var of := OfTrial(samples, trial);
    if of != [] {
      assert of[0] in of;
    }
    if HasTrial(samples, trial) {
      var s :| s in samples && s.trial == trial;
      assert s in of;
    }
  }

  lemma NothingMissing(side: Side, metrics: seq<Metric>, trial: nat)
    ensures Missing(side, metrics, trial) == [] <==> forall m <- metrics :: HasTrial(Samples(side, m), trial)
  {
    hide HasTrial, Samples;
    var missing := Missing(side, metrics, trial);
    forall m ensures m in missing <==> m in metrics && !HasTrial(Samples(side, m), trial) {
      OfTrialEmpty(Samples(side, m), trial);
    }
    if missing != [] {
      assert missing[0] in missing;
    }
  }

  /** A trial has no errors iff the side has none and each due metric was observed for it, never with an error. */
  lemma NoTrialErrors(side: Side, phase: Phase, trial: nat)
    ensures TrialErrors(side, phase, trial) == []
            <==> (!Truthy(side.error)
                  && (forall m, s | Due(phase, trial, m) && s in Samples(side, m) && s.trial == trial ::
                      !Truthy(s.error))
                  && forall m | Due(phase, trial, m) :: HasTrial(Samples(side, m), trial))
  {
    hide HasTrial, Samples, PhaseMetrics, ReportedErrors, Missing, Keep;
    var metrics := DueMetrics(phase, trial);
    NoReportedErrors(side, metrics, trial);
    NothingMissing(side, metrics, trial);
    assert forall m :: m in metrics <==> Due(phase, trial, m);
    ErrorsOrMissing(side, phase, trial);
  }

  lemma ErrorsOrMissing(side: Side, phase: Phase, trial: nat)
    ensures var metrics := DueMetrics(phase, trial);
            TrialErrors(side, phase, trial) == []
            <==> (!Truthy(side.error) && ReportedErrors(side, metrics, trial) == []
                  && Missing(side, metrics, trial) == [])
  {
    hide ReportedErrors, Missing, Keep, PhaseMetrics;
    var reported := ReportedErrors(side, DueMetrics(phase, trial), trial);
    var missing := Missing(side, DueMetrics(phase, trial), trial);
    var causes := seq(|reported|, i requires 0 <= i < |reported| => MetricError(reported[i].0, reported[i].1));
    assert |causes| == |reported|;
    assert |seq(|missing|, i requires 0 <= i < |missing| => MeasurementMissing(missing[i]))| == |missing|;
  }

  /** Each metric is expected once per trial of its phase, save the disk, which only the first trial measures. */
  lemma CountsMatchPhases(c: Config, phase: Phase, m: Metric)
    requires m in PhaseMetrics(phase)
    ensures ExpectedCount(c, m) == if m == Disk then 1 else PhaseCount(c, phase)
  {
    hide ExpectedCount, IsUiMetric, PhaseCount;
    if phase == UiPhase {
      UiMetricsAreKeys(m);
      UiMetricCount(c, m);
    } else {
      var i :| 0 <= i < |PhaseMetrics(phase)| && PhaseMetrics(phase)[i] == m;
      OtherMetricCount(c, phase, i);
    }
  }

  lemma UiMetricCount(c: Config, m: Metric)
    requires IsUiMetric(m)
    ensures ExpectedCount(c, m) == c.uiTrials == PhaseCount(c, UiPhase) && m != Disk
  {}

  lemma OtherMetricCount(c: Config, phase: Phase, i: nat)
    requires phase != UiPhase && i < |PhaseMetrics(phase)|
    ensures var m := PhaseMetrics(phase)[i];
            ExpectedCount(c, m) == if m == Disk then 1 else PhaseCount(c, phase)
  {}

  lemma UiMetricAt(i: nat)
    requires i < |UI_METRICS|
    ensures IsUiMetric(UI_METRICS[i])
  {}

  lemma UiMetricsAreKeys(m: Metric)
    requires m in UI_METRICS
    ensures IsUiMetric(m)
  {
    hide IsUiMetric;
    var i :| 0 <= i < |UI_METRICS| && UI_METRICS[i] == m;
    UiMetricAt(i);
  }

  /** Distinct trials below a bound, covering it, number exactly the bound. */
  lemma {:induction false} CoveringCounts(samples: seq<Observation>, count: nat)
    requires DistinctTrials(samples) && forall i | 0 <= i < |samples| :: samples[i].trial < count
    requires forall t | 0 <= t < count :: HasTrial(samples, t)
    ensures |samples| == count
    decreases count
  {
    if count > 0 {
      assert HasTrial(samples, count - 1);
      var k :| 0 <= k < |samples| && samples[k].trial == count - 1;
      var rest := samples[..k] + samples[k + 1..];
      forall i | 0 <= i < |rest| ensures rest[i].trial < count - 1 {
        assert rest[i] == if i < k then samples[i] else samples[i + 1];
      }
      forall t | 0 <= t < count - 1 ensures HasTrial(rest, t) {
        assert HasTrial(samples, t);
        var i :| 0 <= i < |samples| && samples[i].trial == t;
        assert samples[i] == if i < k then rest[i] else rest[i - 1];
        assert samples[i] in rest;
      }
      CoveringCounts(rest, count - 1);
    }
  }

  predicate CleanTrial(samples: seq<Observation>, trial: nat) {
    HasTrial(samples, trial) && forall s <- samples | s.trial == trial :: !Truthy(s.error)
  }

  lemma MetricCompleteIffClean(c: Config, side: Side, m: Metric)
    requires SideValid(c, side)
    ensures MetricComplete(Samples(side, m), ExpectedCount(c, m))
            <==> (forall t: nat | t < ExpectedCount(c, m) :: CleanTrial(Samples(side, m), t))
                 && NoneSilent(Samples(side, m))
  {
    hide ExpectedCount, HasTrial, CleanTrial, MetricComplete, NoneSilent;
    var samples, count := Samples(side, m), ExpectedCount(c, m);
    forall s <- samples ensures s.trial < count && (s.value.Some? <==> s.error.None?) {
      assert ObservationValid(s);
    }
    assert DistinctTrials(samples);
    CleanMeansComplete(samples, count);
  }

  lemma CleanMeansComplete(samples: seq<Observation>, count: nat)
    requires DistinctTrials(samples)
    requires forall s <- samples :: s.trial < count && (s.value.Some? <==> s.error.None?)
    ensures MetricComplete(samples, count)
            <==> (forall t: nat | t < count :: CleanTrial(samples, t)) && NoneSilent(samples)
  {
    hide HasTrial;
    if (forall t: nat | t < count :: CleanTrial(samples, t)) && NoneSilent(samples) {
      assert forall i | 0 <= i < |samples| :: samples[i] in samples;
      assert forall t: nat | t < count :: CleanTrial(samples, t) && HasTrial(samples, t);
      CoveringCounts(samples, count);
      forall s <- samples ensures s.value.Some? {
        assert CleanTrial(samples, s.trial) && !Silent(s);
      }
    }
  }

  /** Every trial of every phase is without errors. */
  ghost predicate AllTrialsClean(c: Config, side: Side) {
    forall phase <- PHASES, trial: nat | trial < PhaseCount(c, phase) :: TrialErrors(side, phase, trial) == []
  }

  /**
   * The two definitions of done: on a validated side, the side is complete exactly when no trial that
   * the controller runs has an error and no sample failed silently. So they agree when errors say
   * something, and only an empty error string can tell them apart.
   */
  lemma DefinitionsAgree(c: Config, side: Side)
    requires ConfigValid(c) && SideValid(c, side)
    ensures SideComplete(c, side) <==> AllTrialsClean(c, side) && NoSilentFailures(side)
  {
    hide TrialErrors, MetricComplete, ExpectedCount, PhaseMetrics, NoneSilent, SideValid;
    if SideComplete(c, side) {
      forall phase <- PHASES, trial: nat | trial < PhaseCount(c, phase) ensures TrialErrors(side, phase, trial) == [] {
        CompleteTrial(c, side, phase, trial);
      }
      forall phase <- PHASES, m <- PhaseMetrics(phase) ensures NoneSilent(Samples(side, m)) {
        MetricCompleteIffClean(c, side, m);
      }
    }
    if AllTrialsClean(c, side) && NoSilentFailures(side) {
      assert TrialErrors(side, PreparePhase, 0) == [] by { assert PHASES[0] == PreparePhase; }
      NoTrialErrors(side, PreparePhase, 0);
      forall phase <- PHASES, m <- PhaseMetrics(phase)
        ensures MetricComplete(Samples(side, m), ExpectedCount(c, m))
      {
        CleanMetric(c, side, phase, m);
      }
    }
  }

  lemma CompleteTrial(c: Config, side: Side, phase: Phase, trial: nat)
    requires ConfigValid(c) && SideValid(c, side) && SideComplete(c, side)
    requires phase in PHASES && trial < PhaseCount(c, phase)
    ensures TrialErrors(side, phase, trial) == []
  {
    hide TrialErrors, PhaseMetrics, ExpectedCount, MetricComplete, NoneSilent, SideValid;
    NoTrialErrors(side, phase, trial);
    forall m | Due(phase, trial, m) ensures CleanTrial(Samples(side, m), trial) {
      CountsMatchPhases(c, phase, m);
      MetricCompleteIffClean(c, side, m);
      assert MetricComplete(Samples(side, m), ExpectedCount(c, m));
    }
  }

  lemma CleanMetric(c: Config, side: Side, phase: Phase, m: Metric)
    requires ConfigValid(c) && SideValid(c, side) && AllTrialsClean(c, side) && NoneSilent(Samples(side, m))
    requires phase in PHASES && m in PhaseMetrics(phase)
    ensures MetricComplete(Samples(side, m), ExpectedCount(c, m))
  {
    hide TrialErrors, ExpectedCount, MetricComplete, PhaseMetrics, HasTrial, Samples, SideValid, NoneSilent;
    CountsMatchPhases(c, phase, m);
    MetricCompleteIffClean(c, side, m);
    forall t: nat | t < ExpectedCount(c, m) ensures CleanTrial(Samples(side, m), t) {
      assert t < PhaseCount(c, phase) && Due(phase, t, m);
      NoTrialErrors(side, phase, t);
    }
  }

  /** The side with one sample of a metric failed with an empty message. */
  function Silenced(side: Side, m: Metric, i: nat): Side
    requires m in side.metrics && i < |side.metrics[m]|
  {
    var samples := side.metrics[m];
    side.(metrics := side.metrics[m := samples[i := Observation(samples[i].trial, None, Some(""))]])
  }

  lemma SilencedSamples(side: Side, m: Metric, i: nat, n: Metric, trial: nat)
    requires m in side.metrics && i < |side.metrics[m]|
    ensures var before, after := Samples(side, n), Samples(Silenced(side, m, i), n);
            && (HasTrial(after, trial) <==> HasTrial(before, trial))
            && ((forall s <- before | s.trial == trial :: !Truthy(s.error)) ==>
                  forall s <- after | s.trial == trial :: !Truthy(s.error))
  {
    var before, after := Samples(side, n), Samples(Silenced(side, m, i), n);
    assert |after| == |before| && forall k | 0 <= k < |before| :: after[k].trial == before[k].trial;
    forall k | 0 <= k < |after| && !(n == m && k == i) ensures after[k] in before {
      assert after[k] == before[k];
    }
    if t :| t in before && t.trial == trial {
      var k :| 0 <= k < |before| && before[k] == t;
      assert after[k] in after;
    }
    if t :| t in after && t.trial == trial {
      var k :| 0 <= k < |after| && after[k] == t;
      assert before[k] in before;
    }
  }

  /** On every complete side, silencing any one sample makes the two definitions disagree. */
  lemma SilencedSidesDisagree(c: Config, side: Side, phase: Phase, m: Metric, i: nat)
    requires ConfigValid(c) && SideValid(c, side) && SideComplete(c, side)
    requires phase in PHASES && m in PhaseMetrics(phase) && i < |Samples(side, m)|
    ensures var silenced := Silenced(side, m, i);
            SideValid(c, silenced) && AllTrialsClean(c, silenced) && !SideComplete(c, silenced)
  {
    hide TrialErrors, PhaseMetrics, ExpectedCount, HasTrial, MetricComplete;
    var silenced := Silenced(side, m, i);
    SilencedIsValid(c, side, m, i);
    forall q <- PHASES, trial: nat | trial < PhaseCount(c, q) ensures TrialErrors(silenced, q, trial) == [] {
      CompleteTrial(c, side, q, trial);
      NoTrialErrors(side, q, trial);
      NoTrialErrors(silenced, q, trial);
      forall n | Due(q, trial, n)
        ensures HasTrial(Samples(silenced, n), trial)
        ensures forall s <- Samples(silenced, n) | s.trial == trial :: !Truthy(s.error)
      {
        SilencedSamples(side, m, i, n, trial);
      }
    }
    SilencedIsIncomplete(side, m, i, ExpectedCount(c, m));
  }

  lemma SilencedIsValid(c: Config, side: Side, m: Metric, i: nat)
    requires SideValid(c, side) && m in side.metrics && i < |side.metrics[m]|
    ensures SideValid(c, Silenced(side, m, i))
  {
    hide ExpectedCount;
    var before, after := side.metrics[m], Silenced(side, m, i).metrics[m];
    assert forall k | 0 <= k < |before| :: before[k] in before && after[k].trial == before[k].trial;
    forall s <- after ensures ObservationValid(s) && s.trial < ExpectedCount(c, m) {
      var k :| 0 <= k < |after| && after[k] == s;
      assert before[k] in before;
    }
  }

  lemma SilencedIsIncomplete(side: Side, m: Metric, i: nat, count: nat)
    requires m in side.metrics && i < |side.metrics[m]|
    ensures !MetricComplete(Samples(Silenced(side, m, i), m), count)
  {
    var after := Samples(Silenced(side, m, i), m);
    assert after[i] in after && after[i].value.None?;
  }

  /** A side on which every metric was measured in every trial. */
  function FullSide(c: Config): Side {
    Side("", map m: Metric | true ::
         seq(ExpectedCount(c, m), i requires 0 <= i => Observation(i, Some(1.0), None)), None)
  }

  lemma FullSideIsComplete(c: Config)
    requires ConfigValid(c)
    ensures SideValid(c, FullSide(c)) && SideComplete(c, FullSide(c)) && |Samples(FullSide(c), Bundle)| == 1
  {
    hide PhaseMetrics;
    forall m: Metric ensures MetricComplete(Samples(FullSide(c), m), ExpectedCount(c, m)) {
      var samples := Samples(FullSide(c), m);
      forall t | 0 <= t < ExpectedCount(c, m) ensures HasTrial(samples, t) {
        assert samples[t] in samples && samples[t].trial == t;
      }
    }
  }

  /** So for every configuration there is a side that no trial complains about and that is not complete. */
  lemma SilentFailureDisagrees(c: Config)
    requires ConfigValid(c)
    ensures Bundle in FullSide(c).metrics && |FullSide(c).metrics[Bundle]| == 1
    ensures var side := Silenced(FullSide(c), Bundle, 0);
            && side.metrics[Bundle] == [Observation(0, None, Some(""))]
            && SideValid(c, side) && AllTrialsClean(c, side) && !SideComplete(c, side)
  {
    hide SideValid, AllTrialsClean, SideComplete;
    FullSideIsComplete(c);
    assert PHASES[0] == PreparePhase && PhaseMetrics(PreparePhase)[0] == Bundle;
    SilencedSidesDisagree(c, FullSide(c), PreparePhase, Bundle, 0);
  }

  // ---------------------------------------------------------------- reports

  datatype ReportStatus = Running | Completed | Partial | FailedRun | Canceled

  datatype Report = Report(
    config: Config, baseSha: string, headSha: string, status: ReportStatus,
    main: Side, prHead: Side, errors: seq<string>, warnings: seq<string>)

  predicate ReportValid(r: Report) {
    && ConfigValid(r.config)
    && r.main.sha == r.baseSha && r.prHead.sha == r.headSha
    && SideValid(r.config, r.main) && SideValid(r.config, r.prHead)
    && |r.errors| <= 30 && |r.warnings| <= 30
  }

  predicate ReportComplete(r: Report) {
    r.errors == [] && SideComplete(r.config, r.main) && SideComplete(r.config, r.prHead)
  }
}
