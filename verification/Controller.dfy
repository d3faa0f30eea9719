/** The benchmark controller: trials per phase and role, blocking a role that keeps failing the same way. */
module Controller {
  import opened Wrappers
  import opened Schema
  import opened Sorting

  datatype Role = MainRole | PrRole

  /** A cancellation or a timeout ends the run; any other exception of a trial is its failure. */
  datatype Interruption = CanceledRun | OtherException

  // ---------------------------------------------------------------- streaks of failures

  /** How many of the last attempts failed with the last attempt's own message; 0 after a success, which is "". */
  function Streak(attempts: seq<string>): (n: nat)
    ensures n <= |attempts|
  {
    var last := |attempts| - 1;
    if attempts == [] || attempts[last] == "" then 0
    else if last > 0 && attempts[last - 1] == attempts[last] then 1 + Streak(attempts[..last])
    else 1
  }

  /** A streak is exactly the longest run of identical failures at the end. */
  lemma {:induction false} StreakIsMaximal(attempts: seq<string>)
    requires attempts != [] && attempts[|attempts| - 1] != ""
    ensures var n, failure := Streak(attempts), attempts[|attempts| - 1];
            && 1 <= n && (forall i | |attempts| - n <= i < |attempts| :: attempts[i] == failure)
            && (n < |attempts| ==> attempts[|attempts| - n - 1] != failure)
  {
    var last := |attempts| - 1;
    if last > 0 && attempts[last - 1] == attempts[last] {
      StreakIsMaximal(attempts[..last]);
    }
  }

  /** No window of more than `limit` consecutive attempts fails with one and the same message. */
  predicate NeverExceeds(attempts: seq<string>, limit: nat) {
    forall i | 0 <= i <= |attempts| :: Streak(attempts[..i]) <= limit
  }

  lemma {:induction false} NoLongRun(attempts: seq<string>, limit: nat, from: nat, failure: string)
    requires NeverExceeds(attempts, limit) && failure != ""
    requires from + limit < |attempts|
    ensures exists i | from <= i <= from + limit :: attempts[i] != failure
  {
    if forall i | from <= i <= from + limit :: attempts[i] == failure {
      RunIsStreak(attempts, from, from + limit + 1, failure);
    }
  }

  lemma {:induction false} RunIsStreak(attempts: seq<string>, from: nat, end: nat, failure: string)
    requires from < end <= |attempts| && failure != "" && forall i | from <= i < end :: attempts[i] == failure
    ensures Streak(attempts[..end]) >= end - from
    decreases end
  {
    if from + 1 < end {
      RunIsStreak(attempts, from, end - 1, failure);
      assert attempts[..end][..end - 1] == attempts[..end - 1];
    }
  }

  lemma StreakAfter(attempts: seq<string>, failure: string)
    ensures Streak(attempts + [failure]) ==
            if failure == "" then 0
            else if attempts != [] && attempts[|attempts| - 1] == failure then Streak(attempts) + 1 else 1
    ensures (attempts + [failure])[..|attempts|] == attempts
  {}

  // ---------------------------------------------------------------- messages

  predicate Contains(s: string, part: string) {
    exists i | 0 <= i <= |s| :: part <= s[i..]
  }

  function Text(name: Metric -> string, cause: Cause): string {
    match cause
    case SideError(message) => message
    case MetricError(m, message) => name(m) + ": " + message
    case MeasurementMissing(m) => name(m) + ": measurement missing"
  }

  function Joined(name: Metric -> string, causes: seq<Cause>): string {
    if causes == [] then ""
    else if |causes| == 1 then Text(name, causes[0])
    else Text(name, causes[0]) + "; " + Joined(name, causes[1..])
  }

  /** The trial's own causes replace the exception's message, unless they only say what is missing. */
  function FailureOf(name: Metric -> string, exception: string, causes: seq<Cause>): string {
    if causes == [] then exception
    else if exception == "" || exists c <- causes :: !Contains(Text(name, c), "measurement missing")
    then Joined(name, causes)
    else exception
  }

  /** An attempt is recorded as a success exactly if nothing was thrown and the trial has no errors. */
  lemma SuccessExactly(name: Metric -> string, side: Side, phase: Phase, trial: nat, exception: string)
    ensures FailureOf(name, exception, TrialErrors(side, phase, trial)) == ""
            <==> exception == "" && TrialErrors(side, phase, trial) == []
  {
    hide Contains, DueMetrics, ReportedErrors, Missing;
    var causes := TrialErrors(side, phase, trial);
    if causes != [] {
      SomethingSaid(name, side, phase, trial);
      JoinedSaysFirst(name, causes);
    }
  }

  lemma SomethingSaid(name: Metric -> string, side: Side, phase: Phase, trial: nat)
    ensures var causes := TrialErrors(side, phase, trial);
            causes != [] ==> Text(name, causes[0]) != ""
  {
    hide DueMetrics, ReportedErrors, Missing;
  }

  lemma JoinedSaysFirst(name: Metric -> string, causes: seq<Cause>)
    requires causes != [] && Text(name, causes[0]) != ""
    ensures Joined(name, causes) != ""
  {
    hide Text;
  }

  function Skipped(failure: string): string {
    "skipped remaining trials after identical consecutive failures; last cause: " + failure
  }

  predicate Distinct(roles: seq<Role>) {
    forall i, j | 0 <= i < j < |roles| :: roles[i] != roles[j]
  }

  function Truncated<T>(s: seq<T>, limit: nat): seq<T> {
    if |s| > limit then s[..limit] else s
  }

  /** The phases that need an installation, and a role whose first one did not succeed. */
  predicate Barred(r: Report, phase: Phase, role: Role) {
    && phase in [MeasurePhase, RuntimePhase, UiPhase]
    && !exists s <- Samples(if role == MainRole then r.main else r.prHead, Install) :: s.trial == 0 && s.value.Some?
  }

  /**
   * What the scheduler has done with one role when it is about to start trial `trial`: a barred role tries
   * nothing, a blocked one has stopped after exactly `limit` identical failures, and every other role has
   * taken part in every trial so far.
   */
  ghost predicate Scheduled(attempts: seq<string>, barred: bool, blocked: bool, trial: nat, count: nat, limit: nat) {
    && NeverExceeds(attempts, limit)
    && (if barred then blocked && attempts == []
        else if blocked then |attempts| < count && Streak(attempts) == limit
        else |attempts| == trial && (trial < count ==> Streak(attempts) < limit))
  }

  ghost predicate OnTrack(roles: seq<Role>, attempts: map<Role, seq<string>>, barred: set<Role>, blocked: set<Role>,
                          trial: nat, count: nat, limit: nat)
  {
    forall role <- roles ::
      role in attempts && Scheduled(attempts[role], role in barred, role in blocked, trial, count, limit)
  }

  /** However a phase ends, no role has exceeded the limit. */
  ghost predicate WithinLimit(attempts: map<Role, seq<string>>, limit: nat) {
    forall role <- attempts :: NeverExceeds(attempts[role], limit)
  }

  /** One phase of a run, completed or cut short. */
  datatype PhaseRecord = PhaseRecord(
    phase: Phase, barred: set<Role>, blocked: set<Role>, attempts: map<Role, seq<string>>, completed: bool)

  ghost predicate RecordFits(r: PhaseRecord, ready: seq<Role>, c: Config) {
    && r.attempts.Keys == (set role | role in ready) && WithinLimit(r.attempts, c.failureLimit)
    && (r.completed ==>
          OnTrack(ready, r.attempts, r.barred, r.blocked, PhaseCount(c, r.phase), PhaseCount(c, r.phase),
                  c.failureLimit))
  }

  /** The failures map remembers each role's current streak. */
  ghost predicate Remembers(attempts: map<Role, seq<string>>, failures: map<Role, (string, nat)>) {
    forall role <- attempts ::
      var tried := attempts[role];
      if tried == [] || tried[|tried| - 1] == "" then role !in failures
      else role in failures && failures[role] == (tried[|tried| - 1], Streak(tried))
  }

  /** A success forgets the role's failure; a failure counts how often it has been repeated. */
  function Bumped(failures: map<Role, (string, nat)>, role: Role, failure: string): (r: map<Role, (string, nat)>)
    ensures failure != "" ==> role in r && r[role].0 == failure
  {
    if failure == "" then failures - {role}
    else
      failures[role := (failure, if role in failures && failures[role].0 == failure then failures[role].1 + 1 else 1)]
  }

  lemma RemembersBumped(attempts: map<Role, seq<string>>, failures: map<Role, (string, nat)>, role: Role,
                        failure: string)
    requires role in attempts && Remembers(attempts, failures)
    ensures Remembers(attempts[role := attempts[role] + [failure]], Bumped(failures, role, failure))
    ensures failure != "" ==> Bumped(failures, role, failure)[role].1 == Streak(attempts[role] + [failure])
  {
    hide Streak;
    StreakAfter(attempts[role], failure);
  }

  const TRIAL_PHASES: seq<Phase> := [InstallPhase, MeasurePhase, RuntimePhase, TransportPhase, UiPhase]

  class Controller {
    const metricName: Metric -> string
    var report: Report
    /** Per role, the failure message of every attempt of the current phase, "" for a success. */
    ghost var attempts: map<Role, seq<string>>
    /** The phases reached so far. */
    ghost var history: seq<PhaseRecord>

    constructor (report: Report, metricName: Metric -> string)
      ensures this.report == report && this.metricName == metricName && history == []
    {
      this.report, this.metricName := report, metricName;
      attempts, history := map[], [];
    }

    function SideOf(role: Role): Side
      reads this
    {
      if role == MainRole then report.main else report.prHead
    }

    /** `save`: a completed status survives only if the report is complete; validation may refuse the rest. */
    method Save() returns (ok: bool)
      modifies this`report
      ensures report.status == Completed ==> ReportComplete(report)
      ensures report.config == old(report.config)
      ensures report.main == old(report.main) && report.prHead == old(report.prHead)
      ensures report.errors == Truncated(old(report.errors), 30)
              && report.warnings == Truncated(old(report.warnings), 30)
      ensures report.status ==
              if old(report.status) == Completed && !ReportComplete(report) then Partial else old(report.status)
      ensures ok <==> ReportValid(report)
    {
      report := report.(errors := Truncated(report.errors, 30), warnings := Truncated(report.warnings, 30));
      if report.status == Completed && !ReportComplete(report) {
        report := report.(status := Partial);
      }
      ok := ReportValid(report);
    }

    /** One remote trial: it may collect a new side, fail with a message, or be interrupted. */
    method RunTrial(role: Role) returns (exception: string, interrupted: bool)
      modifies this`report
      ensures report.config == old(report.config) && report.status == old(report.status)
      ensures report.errors == old(report.errors)
    {
      var collected: Side :| true;
      if role == MainRole {
        report := report.(main := collected);
      } else {
        report := report.(prHead := collected);
      }
      exception :| true;
      interrupted :| true;
    }

    method AddError(message: string)
      modifies this`report
      ensures report == old(report).(errors := old(report).errors + [message])
    {
      report := report.(errors := report.errors + [message]);
    }

    /**
     * Roles that start a phase blocked: those whose first installation did not succeed, in the phases
     * that need it.
     */
    method InitiallyBlocked(phase: Phase, ready: seq<Role>) returns (blocked: set<Role>)
      modifies this`report
      ensures report.config == old(report.config) && report.main == old(report.main)
              && report.prHead == old(report.prHead)
      ensures forall role :: role in blocked <==> role in ready && Barred(old(report), phase, role)
    {
      blocked := {};
      if phase !in [MeasurePhase, RuntimePhase, UiPhase] {
        return;
      }
      for i := 0 to |ready|
        invariant report.config == old(report.config) && report.main == old(report.main)
                  && report.prHead == old(report.prHead)
        invariant forall role :: role in blocked <==>
                    role in ready[..i] && !exists s <- Samples(SideOf(role), Install) :: s.trial == 0 && s.value.Some?
      {
        if !exists s <- Samples(SideOf(ready[i]), Install) :: s.trial == 0 && s.value.Some? {
          blocked := blocked + {ready[i]};
          AddError("skipped; first installation did not succeed");
        }
      }
    }

    /** The failure bookkeeping after an attempt: true when the role is to be blocked for the rest of the phase. */
    method AfterAttempt(role: Role, failure: string, failures: map<Role, (string, nat)>, trial: nat, count: nat)
      returns (updated: map<Role, (string, nat)>, block: bool)
      requires report.config.failureLimit > 0
      modifies this`report
      ensures report.config == old(report.config) && report.main == old(report.main)
              && report.prHead == old(report.prHead)
      ensures updated == Bumped(failures, role, failure)
      ensures block <==> failure != "" && updated[role].1 >= report.config.failureLimit && trial + 1 < count
    {
      hide Skipped, ConfigValid;
      if failure == "" {
        return failures - {role}, false;
      }
      var (previous, repeated) := if role in failures then failures[role] else ("", 0);
      repeated := if failure == previous then repeated + 1 else 1;
      updated := failures[role := (failure, repeated)];
      if |report.errors| < 25 {
        AddError(failure);
      }
      block := repeated >= report.config.failureLimit && trial + 1 < count;
      if block {
        AddError(Skipped(failure));
      }
    }

    /** One trial of one role that is not blocked. */
    method Attempt(role: Role, phase: Phase, failures: map<Role, (string, nat)>, trial: nat, count: nat)
      returns (completed: bool, updated: map<Role, (string, nat)>, block: bool, ghost exception: string)
      requires report.config.failureLimit > 0 && role in attempts && Remembers(attempts, failures) && trial < count
      requires Scheduled(attempts[role], false, false, trial, count, report.config.failureLimit)
      requires WithinLimit(attempts, report.config.failureLimit)
      modifies this`report, this`attempts
      ensures report.config == old(report.config)
      ensures WithinLimit(attempts, report.config.failureLimit) && attempts.Keys == old(attempts).Keys
      ensures completed ==>
                && attempts == old(attempts)[role := old(attempts)[role]
                                 + [FailureOf(metricName, exception, TrialErrors(SideOf(role), phase, trial))]]
                && Remembers(attempts, updated)
                && Scheduled(attempts[role], false, block, trial + 1, count, report.config.failureLimit)
    {
      hide Scheduled, Remembers, Bumped, Contains, Joined, TrialErrors, FailureOf, ReportComplete, ReportValid, Streak;
      hide WithinLimit;
      updated, block := failures, false;
      var thrown, interrupted := RunTrial(role);
      exception := thrown;
      if interrupted {
        return false, updated, block, exception;
      }
      var failure := FailureOf(metricName, thrown, TrialErrors(SideOf(role), phase, trial));
      updated, block := AfterAttempt(role, failure, failures, trial, count);
      ghost var before := attempts[role];
      attempts := attempts[role := before + [failure]];
      RemembersBumped(old(attempts), failures, role, failure);
      ExtendSchedule(before, failure, block, trial, count, report.config.failureLimit);
      StaysWithinLimit(old(attempts), role, failure, block, trial, count, report.config.failureLimit);
      var saved := Save();
      var withinBudget: bool :| true;
      completed := saved && withinBudget;
    }

    /** One trial of every role, in the given order, that is not blocked. */
    method RunTrialOfRoles(order: seq<Role>, phase: Phase, failures: map<Role, (string, nat)>, ghost barred: set<Role>,
                           blocked: set<Role>, trial: nat, count: nat)
      returns (completed: bool, failuresAfter: map<Role, (string, nat)>, blockedAfter: set<Role>)
      requires report.config.failureLimit > 0 && Distinct(order) && trial < count && Remembers(attempts, failures)
      requires OnTrack(order, attempts, barred, blocked, trial, count, report.config.failureLimit)
      requires WithinLimit(attempts, report.config.failureLimit)
      modifies this`report, this`attempts
      ensures report.config == old(report.config)
      ensures WithinLimit(attempts, report.config.failureLimit) && attempts.Keys == old(attempts).Keys
      ensures completed ==>
                && Remembers(attempts, failuresAfter)
                && OnTrack(order, attempts, barred, blockedAfter, trial + 1, count, report.config.failureLimit)
    {
      hide Scheduled, Remembers, WithinLimit;
      failuresAfter, blockedAfter := failures, blocked;
      for k := 0 to |order|
        invariant report.config == old(report.config)
        invariant WithinLimit(attempts, report.config.failureLimit) && attempts.Keys == old(attempts).Keys
        invariant Remembers(attempts, failuresAfter)
        invariant OnTrack(order[..k], attempts, barred, blockedAfter, trial + 1, count, report.config.failureLimit)
        invariant OnTrack(order[k..], attempts, barred, blockedAfter, trial, count, report.config.failureLimit)
      {
        var role := order[k];
        assert role == order[k..][0] && role !in order[k + 1..] && role !in order[..k];
        if role in blockedAfter {
          StaysBlocked(attempts[role], role in barred, trial, count, report.config.failureLimit);
          continue;
        }
        NotBarred(attempts[role], role in barred, trial, count, report.config.failureLimit);
        var ok, block;
        ghost var exception;
        ok, failuresAfter, block, exception := Attempt(role, phase, failuresAfter, trial, count);
        if !ok {
          return false, failuresAfter, blockedAfter;
        }
        if block {
          blockedAfter := blockedAfter + {role};
        }
      }
      assert order[..|order|] == order;
      completed := true;
    }

    /**
     * The trials of one phase. However it ends, no role ever fails more than `failureLimit` times in a
     * row in the same way. If it runs to its end, a role that stops early has exactly that many identical
     * failures as its last attempts, a role whose installation did not succeed tries nothing in the
     * phases that need it, and every other role runs every trial.
     */
    method RunPhaseTrials(phase: Phase, count: nat, ready: seq<Role>)
      returns (completed: bool, ghost barred: set<Role>, blocked: set<Role>)
      requires report.config.failureLimit > 0 && Distinct(ready)
      modifies this`report, this`attempts
      ensures report.config == old(report.config)
      ensures attempts.Keys == (set role | role in ready) && WithinLimit(attempts, report.config.failureLimit)
      ensures forall role :: role in barred <==> role in ready && Barred(old(report), phase, role)
      ensures completed ==> OnTrack(ready, attempts, barred, blocked, count, count, report.config.failureLimit)
    {
      hide Scheduled, Remembers, WithinLimit, ConfigValid, Barred;
      NothingScheduled(count, report.config.failureLimit);
      blocked := InitiallyBlocked(phase, ready);
      barred := blocked;
      attempts := map role | role in ready :: [];
      var failures: map<Role, (string, nat)> := map[];
      NothingRemembered(attempts);
      NothingTried(attempts, report.config.failureLimit);
      for trial := 0 to count
        invariant report.config == old(report.config)
        invariant WithinLimit(attempts, report.config.failureLimit) && attempts.Keys == (set role | role in ready)
        invariant Remembers(attempts, failures)
        invariant OnTrack(ready, attempts, barred, blocked, trial, count, report.config.failureLimit)
      {
        var order := if trial % 2 == 0 then ready else Reversed(ready);
        SameRoles(ready);
        completed, failures, blocked := RunTrialOfRoles(order, phase, failures, barred, blocked, trial, count);
        if !completed {
          return;
        }
      }
      completed := true;
    }

    /** The end of a run: what became of it, then the final save that may downgrade it. */
    method FinishRun(interruption: Option<Interruption>, ready: seq<Role>, warnings: seq<string>) returns (saved: bool)
      modifies this`report
      ensures report.config == old(report.config)
      ensures report.status == Completed ==> ReportComplete(report) && ready != []
      ensures interruption.Some? ==> report.status == if interruption.value == CanceledRun then Canceled else FailedRun
      ensures interruption.None? && ready == [] ==> report.status == FailedRun
      ensures interruption.None? && ready != [] && ReportComplete(old(report)) ==> report.status == Completed
    {
      hide SideComplete, SideValid, ConfigValid;
      match interruption {
        case None =>
          report := report.(status := if ReportComplete(report) then Completed else Partial);
          if ready == [] {
            report := report.(status := FailedRun);
          }
        case Some(CanceledRun) =>
          report := report.(status := Canceled);
          AddError("Workflow was canceled");
        case Some(OtherException) =>
          report := report.(status := FailedRun);
          AddError("failed");
      }
      report := report.(warnings := report.warnings + warnings);
      saved := Save();
    }

    /** Setting up the roles: one that fails is left out and reported; a cancellation or timeout ends the run. */
    method SetUp() returns (interruption: Option<Interruption>, ready: seq<Role>)
      modifies this`report
      ensures report.config == old(report.config)
      ensures Distinct(ready)
    {
      interruption, ready := None, [];
      var roles := [MainRole, PrRole];
      for k := 0 to |roles|
        invariant report.config == old(report.config)
        invariant Distinct(ready) && forall role <- ready :: role in roles[..k]
      {
        assert roles[k] !in roles[..k];
        var exception, interrupted := RunTrial(roles[k]);
        if interrupted {
          var cause: Interruption :| true;
          return Some(cause), ready;
        }
        if exception == "" {
          ready := ready + [roles[k]];
        } else {
          AddError(exception);
        }
      }
    }

    /** The phases in their order, each with its number of trials; `history` records each one reached. */
    method RunPhases(ready: seq<Role>) returns (completed: bool)
      requires report.config.failureLimit > 0 && Distinct(ready) && history == []
      modifies this
      ensures report.config == old(report.config)
      ensures forall r <- history :: RecordFits(r, ready, report.config)
      ensures |history| <= 5 && forall k | 0 <= k < |history| :: history[k].phase == TRIAL_PHASES[k]
      ensures forall k | 0 <= k < |history| - 1 :: history[k].completed
      ensures if completed then |history| == 5 && history[4].completed
              else history != [] && !history[|history| - 1].completed
    {
      hide OnTrack, WithinLimit;
      var phases := TRIAL_PHASES;
      for k := 0 to |phases|
        invariant report.config == old(report.config)
        invariant |history| == k && forall i | 0 <= i < k :: history[i].phase == TRIAL_PHASES[i] && history[i].completed
        invariant forall r <- history :: RecordFits(r, ready, report.config)
      {
        ghost var barred;
        var blocked;
        completed, barred, blocked := RunPhaseTrials(phases[k], PhaseCount(report.config, phases[k]), ready);
        ghost var record := PhaseRecord(phases[k], barred, blocked, attempts, completed);
        assert RecordFits(record, ready, report.config);
        history := history + [record];
        if !completed {
          return;
        }
      }
      completed := true;
    }

    /**
     * A whole run. Only a complete report is ever called completed; an interruption, wherever it
     * strikes, leaves the run canceled or failed. In every phase that was reached, even one that was cut
     * short, the schedule was kept.
     */
    method Run() returns (saved: bool, interruption: Option<Interruption>, ready: seq<Role>)
      requires report.config.failureLimit > 0 && history == []
      modifies this
      ensures report.config == old(report.config)
      ensures forall r <- history :: RecordFits(r, ready, report.config)
      ensures report.status == Completed ==> interruption.None? && ready != [] && ReportComplete(report)
      ensures interruption.Some? ==> report.status == if interruption.value == CanceledRun then Canceled else FailedRun
      ensures interruption.None? && ready == [] ==> report.status == FailedRun
    {
      hide ReportComplete, ReportValid, ConfigValid, RecordFits;
      interruption, ready := None, [];
      var started := Save();
      if started {
        interruption, ready := SetUp();
      } else {
        interruption := Some(OtherException);
      }
      if interruption.None? {
        var completed := RunPhases(ready);
        if !completed {
          var cause: Interruption :| true;
          interruption := Some(cause);
        }
      }
      var warnings: seq<string> :| true;
      saved := FinishRun(interruption, ready, warnings);
    }
  }

  lemma NothingScheduled(count: nat, limit: nat)
    requires limit > 0
    ensures forall barred: bool {:trigger Scheduled([], barred, barred, 0, count, limit)} ::
              Scheduled([], barred, barred, 0, count, limit)
  {}

  lemma NothingTried(attempts: map<Role, seq<string>>, limit: nat)
    requires forall role <- attempts :: attempts[role] == []
    ensures WithinLimit(attempts, limit)
  {}

  lemma NotBarred(attempts: seq<string>, barred: bool, trial: nat, count: nat, limit: nat)
    requires Scheduled(attempts, barred, false, trial, count, limit)
    ensures !barred
  {}

  lemma StaysWithinLimit(attempts: map<Role, seq<string>>, role: Role, failure: string, block: bool, trial: nat,
                         count: nat, limit: nat)
    requires role in attempts && WithinLimit(attempts, limit)
    requires Scheduled(attempts[role] + [failure], false, block, trial + 1, count, limit)
    ensures WithinLimit(attempts[role := attempts[role] + [failure]], limit)
  {
    hide NeverExceeds;
  }

  lemma NothingRemembered(attempts: map<Role, seq<string>>)
    requires forall role <- attempts :: attempts[role] == []
    ensures Remembers(attempts, map[])
  {}

  lemma SameRoles(roles: seq<Role>)
    ensures forall role :: role in Reversed(roles) <==> role in roles
    ensures Distinct(roles) ==> Distinct(Reversed(roles))
  {
    forall role <- roles ensures role in Reversed(roles) {
      var i :| 0 <= i < |roles| && roles[i] == role;
      assert Reversed(roles)[|roles| - 1 - i] == role;
    }
  }

  lemma StaysBlocked(attempts: seq<string>, barred: bool, trial: nat, count: nat, limit: nat)
    requires Scheduled(attempts, barred, true, trial, count, limit)
    ensures Scheduled(attempts, barred, true, trial + 1, count, limit)
  {}

  lemma ExtendSchedule(attempts: seq<string>, failure: string, block: bool, trial: nat, count: nat, limit: nat)
    requires limit > 0 && trial < count && Scheduled(attempts, false, false, trial, count, limit)
    requires block <==> failure != "" && Streak(attempts + [failure]) >= limit && trial + 1 < count
    ensures Scheduled(attempts + [failure], false, block, trial + 1, count, limit)
  {
    var longer := attempts + [failure];
    StreakAfter(attempts, failure);
    forall i | 0 <= i <= |longer| ensures Streak(longer[..i]) <= limit {
      if i <= |attempts| {
        assert longer[..i] == attempts[..i];
      } else {
        assert longer[..i] == longer && attempts[..|attempts|] == attempts;
      }
    }
  }
}
