/** Where each committed setup transaction takes a setup, from the job and its outcome alone
    (internal/aiaudit/setup_finalization.go, internal/projectsetup/project_setup.go). */
module SetupOutcomes {
  import opened Options
  import opened SetupPipeline
  import opened SetupSafety
  import opened Utf8

  // ---------------------------------------------------------------- finalizing the step's own job

  /** The job or the audit it stands for failed. */
  predicate Fails(status: SetupStatus, outcome: Outcome) {
    outcome.Errored? || (status == Visibility && outcome.auditFailed)
  }

  function NextStep(status: SetupStatus): SetupStatus {
    match status
    case ProfileGeneration => KeywordAnalysis
    case KeywordAnalysis => PromptGeneration
    case PromptGeneration => Visibility
    case _ => SetupCompleted
  }

  /** The prompts are done and the month's allowance has no room for an audit. */
  predicate Skips(s: State, setup: Setup, outcome: Outcome) {
    setup.status == PromptGeneration && outcome.Succeeded? && Used(s, Quota(setup.org, outcome.period)) >= outcome.limit
  }

  /** What the error column explains a failed step with. */
  function FailureText(outcome: Outcome): Option<Bytes> {
    if outcome.Errored? then NullText(CappedError(outcome.message)) else Some(VISIBILITY_AUDIT_FAILED_MESSAGE)
  }

  function SkipReasonOf(limit: int): SkipReason {
    if limit <= 0 then VisibilityDisabled else QuotaReached
  }

  lemma RoomIs(s: State, quota: Quota, limit: int)
    ensures CanReserve(s, quota, limit) <==> Used(s, quota) < limit
  {
  }

  lemma AuditMessageIsText()
    ensures NullText(VISIBILITY_AUDIT_FAILED_MESSAGE) == Some(VISIBILITY_AUDIT_FAILED_MESSAGE)
  {
  }

  predicate Carried(s: State, id: nat) {
    && id < |s.jobs| && s.jobs[id].project in s.setups
    && Carries(s, id, s.jobs[id].project, s.setups[s.jobs[id].project].status)
  }

  /** Where the outcome takes a setup of this step, and what its row then says. */
  predicate Settled(before: Setup, after: Setup, skips: bool, outcome: Outcome) {
    && (after.status == SetupFailed <==> Fails(before.status, outcome))
    && (after.status == SetupFailed ==>
          after.failedStep == FailedStepOf(before.status) && after.error == FailureText(outcome))
    && (after.status != SetupFailed ==>
          && after.status == (if skips then SetupCompleted else NextStep(before.status))
          && after.failedStep == None && after.error == None)
    && after.skip == (if skips && outcome.Succeeded? then Some(SkipReasonOf(outcome.limit)) else None)
    && after.org == before.org && after.requester == before.requester && after.crawl == before.crawl
  }

  predicate Settles(s: State, t: State, id: nat, outcome: Outcome)
    requires Carried(s, id)
  {
    var p := s.jobs[id].project;
    p in t.setups && Settled(s.setups[p], t.setups[p], Skips(s, s.setups[p], outcome), outcome)
  }

  lemma StepsSettle(s: State, id: nat, outcome: Outcome)
    requires Carried(s, id) && outcome.Succeeded?
    ensures s.jobs[id].jobType.BootstrapJob? ==> Settles(s, BootstrapSuccess(s, id), id, outcome)
    ensures s.jobs[id].jobType.KeywordJob? ==> Settles(s, KeywordSuccess(s, id), id, outcome)
  {
  }

  lemma VisibilitySettles(s: State, id: nat, outcome: Outcome)
    requires Carried(s, id) && outcome.Succeeded? && s.jobs[id].jobType.VisibilityJob?
    ensures Settles(s, VisibilitySuccess(s, id, outcome.auditFailed), id, outcome)
  {
    AuditMessageIsText();
  }

  lemma PromptSettles(s: State, id: nat, outcome: Outcome)
    requires Carried(s, id) && outcome.Succeeded? && s.jobs[id].jobType.PromptJob?
    ensures Settles(s, PromptSuccess(s, id, outcome.period, outcome.limit), id, outcome)
  {
    var p := s.jobs[id].project;
    var quota := Quota(s.setups[p].org, outcome.period);
    RoomIs(s, quota, outcome.limit);
    LaunchRows(s, p, s.setups[p].crawl, quota);
    hide AuditLaunched, CanReserve;
  }

  lemma FailureSettles(s: State, id: nat, outcome: Outcome, step: FailedStep)
    requires Carried(s, id) && outcome.Errored?
    requires FailedStepOf(s.setups[s.jobs[id].project].status) == Some(step)
    ensures var t := FailedAt(s, id, s.setups[s.jobs[id].project].status, step, outcome.message);
      Settles(s, t, id, outcome)
  {
    hide Capped, Blank;
  }

  lemma CarriedScope(s: State, id: nat)
    requires Carried(s, id) && WellScoped(s)
    ensures ScopeOf(s, s.jobs[id]).ProjectScope?
    ensures StepOf(s.jobs[id].jobType) == Some(s.setups[s.jobs[id].project].status)
  {
    assert JobScoped(s, s.jobs[id]) && PlainJob(s.jobs[id]);
  }

  /** The job that carries a setup's step decides where the setup goes: to the next step, past a
      skipped audit to the end, or to a failure at this very step with its reason. */
  lemma FinalizedSetup(s: State, id: nat, outcome: Outcome)
    requires Carried(s, id) && WellScoped(s)
    ensures Settles(s, Finalized(s, id, outcome), id, outcome)
  {
    hide BootstrapSuccess, KeywordSuccess, PromptSuccess, VisibilitySuccess, FailedAt, Settles, Carries, WellScoped;
    CarriedScope(s, id);
    match (s.jobs[id].jobType, outcome)
    case (BootstrapJob, Succeeded(_, _, _)) => StepsSettle(s, id, outcome);
    case (KeywordJob, Succeeded(_, _, _)) => StepsSettle(s, id, outcome);
    case (PromptJob, Succeeded(_, _, _)) => PromptSettles(s, id, outcome);
    case (VisibilityJob, Succeeded(_, _, _)) => VisibilitySettles(s, id, outcome);
    case (BootstrapJob, Errored(_)) => FailureSettles(s, id, outcome, AtProfileGeneration);
    case (KeywordJob, Errored(_)) => FailureSettles(s, id, outcome, AtKeywordAnalysis);
    case (PromptJob, Errored(_)) => FailureSettles(s, id, outcome, AtPromptGeneration);
    case (VisibilityJob, Errored(_)) => FailureSettles(s, id, outcome, AtVisibility);
  }

  /** The job's own row says how it ended, whatever it was for. */
  predicate JobEnds(before: Job, after: Job, scope: Scope, outcome: Outcome) {
    after == before.(
      status := if outcome.Errored? then JobFailed else JobCompleted,
      error := if outcome.Succeeded? then before.error
               else if scope.LocationScope? then Some(CappedError(outcome.message))
               else NullText(CappedError(outcome.message)))
  }

  predicate EndsJob(s: State, t: State, id: nat, outcome: Outcome)
    requires id < |s.jobs|
  {
    id < |t.jobs| && JobEnds(s.jobs[id], t.jobs[id], ScopeOf(s, s.jobs[id]), outcome)
  }

  lemma StepJobEnds(s: State, id: nat, outcome: Outcome)
    requires id < |s.jobs| && outcome.Succeeded?
    ensures EndsJob(s, BootstrapSuccess(s, id), id, outcome) && EndsJob(s, KeywordSuccess(s, id), id, outcome)
    ensures EndsJob(s, VisibilitySuccess(s, id, outcome.auditFailed), id, outcome)
  {
    hide ScopeOf;
  }

  lemma PromptJobEnds(s: State, id: nat, outcome: Outcome)
    requires id < |s.jobs| && outcome.Succeeded?
    ensures EndsJob(s, PromptSuccess(s, id, outcome.period, outcome.limit), id, outcome)
  {
    hide ScopeOf, CanReserve, FailActive;
  }

  lemma FailedJobEnds(s: State, id: nat, outcome: Outcome, expected: SetupStatus, step: FailedStep)
    requires id < |s.jobs| && outcome.Errored? && ScopeOf(s, s.jobs[id]).ProjectScope?
    ensures EndsJob(s, FailedAt(s, id, expected, step, outcome.message), id, outcome)
  {
    hide ScopeOf, Capped, Blank;
  }

  lemma FinalizedJob(s: State, id: nat, outcome: Outcome)
    requires id < |s.jobs| && WellScoped(s)
    ensures EndsJob(s, Finalized(s, id, outcome), id, outcome)
  {
    hide BootstrapSuccess, KeywordSuccess, PromptSuccess, VisibilitySuccess, FailedAt, EndsJob;
    var job := s.jobs[id];
    assert JobScoped(s, job) && PlainJob(job);
    if ScopeOf(s, job).LocationScope? {
      LocationJobEnds(s, id, outcome);
    } else {
      match (job.jobType, outcome)
      case (BootstrapJob, Succeeded(_, _, _)) => StepJobEnds(s, id, outcome);
      case (KeywordJob, Succeeded(_, _, _)) => StepJobEnds(s, id, outcome);
      case (PromptJob, Succeeded(_, _, _)) => PromptJobEnds(s, id, outcome);
      case (VisibilityJob, Succeeded(_, _, _)) => StepJobEnds(s, id, outcome);
      case (BootstrapJob, Errored(_)) => FailedJobEnds(s, id, outcome, ProfileGeneration, AtProfileGeneration);
      case (KeywordJob, Errored(_)) => FailedJobEnds(s, id, outcome, KeywordAnalysis, AtKeywordAnalysis);
      case (PromptJob, Errored(_)) => FailedJobEnds(s, id, outcome, PromptGeneration, AtPromptGeneration);
      case (VisibilityJob, Errored(_)) => FailedJobEnds(s, id, outcome, Visibility, AtVisibility);
    }
  }

  lemma LocationJobEnds(s: State, id: nat, outcome: Outcome)
    requires id < |s.jobs| && ScopeOf(s, s.jobs[id]).LocationScope?
    ensures EndsJob(s, Finalized(s, id, outcome), id, outcome)
  {
    hide ScopeOf, Capped;
  }

  // ---------------------------------------------------------------- retries

  /** Where a retry takes up a setup that failed on its way from this step. */
  function RetriedAt(status: SetupStatus): SetupStatus {
    if status == Visibility then PromptGeneration else status
  }

  /** A retry goes back to the step that failed, or to the prompts when the audit did, with one new
      pending job of that step and nothing left of the failure. */
  predicate Retries(s: State, t: State, project: nat, status: SetupStatus, owner: Option<nat>)
    requires project in s.setups
  {
    && project in t.setups
    && t.setups == s.setups[project := t.setups[project]]
    && t.setups[project] == s.setups[project].(
         status := RetriedAt(status), failedStep := None, error := None, skip := None,
         requester := if owner.Some? then owner else s.setups[project].requester)
    && |t.jobs| == |s.jobs| + 1 && t.jobs[..|s.jobs|] == s.jobs
    && t.jobs[|s.jobs|] == ProjectJob(t.jobs[|s.jobs|].jobType, project)
    && StepOf(t.jobs[|s.jobs|].jobType) == Some(RetriedAt(status))
    && t.audits == s.audits && t.used == s.used
  }

  lemma RetryTakesUp(s: State, project: nat, status: SetupStatus, crawl: nat, owner: Option<nat>)
    requires StatusIs(s, project, SetupFailed) && AwaitsJob(status)
    requires s.setups[project].failedStep == FailedStepOf(status)
    ensures Retries(s, Resumed(s, project, crawl, owner), project, status, owner)
  {
  }

  /** A finalizer that fails a setup leaves it so that a retry takes the very step up again. */
  lemma FailureIsRetried(s: State, id: nat, outcome: Outcome, crawl: nat, owner: Option<nat>)
    requires Carried(s, id) && WellScoped(s) && Fails(s.setups[s.jobs[id].project].status, outcome)
    ensures var p, t := s.jobs[id].project, Finalized(s, id, outcome);
      && StatusIs(t, p, SetupFailed)
      && Retries(t, Resumed(t, p, crawl, owner), p, s.setups[p].status, owner)
  {
    FinalizedSetup(s, id, outcome);
    CarriedAwaits(s, id);
    hide Finalized, Resumed, Retries, Carried, WellScoped, FailureText, NextStep;
    RetryTakesUp(Finalized(s, id, outcome), s.jobs[id].project, s.setups[s.jobs[id].project].status, crawl, owner);
  }

  lemma CarriedAwaits(s: State, id: nat)
    requires Carried(s, id)
    ensures AwaitsJob(s.setups[s.jobs[id].project].status)
  {
  }

  // ---------------------------------------------------------------- the crawl a setup waits for

  /** A started setup waits for its own crawl: that of another changes nothing, its completion
      enters profile generation with one job, and its loss fails the setup so that a retry crawls
      again, after which the lost crawl means nothing any more. */
  lemma OnlyItsOwnCrawl(s: State, project: nat, crawl: nat, owner: Option<nat>, other: nat, message: Bytes,
                        again: nat)
    requires StatusIs(s, project, Ready) && other != crawl && again != crawl
    ensures var started := Started(s, project, crawl, owner);
      var lost := CrawlLost(started, project, crawl, message);
      var retried := Resumed(lost, project, again, None);
      && CrawlDone(started, project, other) == started && CrawlLost(started, project, other, message) == started
      && CrawlDone(started, project, crawl)
           == State(s.setups[project := Setup(s.setups[project].org, owner, Some(crawl), ProfileGeneration,
                                              None, None, None)],
                    s.jobs + [Job(BootstrapJob, project, None, None, JobPending, None)], s.audits, s.used)
      && lost == s.(setups := s.setups[project := Setup(s.setups[project].org, owner, Some(crawl), SetupFailed,
                                                        Some(AtCrawling), None, NullText(CappedError(message)))])
      && retried == s.(setups := s.setups[project := Setup(s.setups[project].org, owner, Some(again), Crawling,
                                                           None, None, None)])
      && CrawlDone(retried, project, crawl) == retried && CrawlLost(retried, project, crawl, message) == retried
  {
    hide Capped, Blank;
  }

  // ---------------------------------------------------------------- the sweep

  /** The sweep touches exactly the running jobs it was told are stale. */
  lemma SweepFailsStaleJobs(s: State, stale: set<nat>, id: nat)
    requires id < |s.jobs|
    ensures var t := Reclaimed(s, stale);
      |t.jobs| == |s.jobs| && t.used == s.used &&
      t.jobs[id] == if id in stale && s.jobs[id].status == JobRunning
                    then s.jobs[id].(status := JobFailed, error := Some(Ascii("reclaimed: worker restarted")))
                    else s.jobs[id]
  {
    hide Strands, LosesAudit;
  }

  /** One of these running jobs is a project job of the setup's step. */
  predicate TakesItsJob(s: State, stale: set<nat>, project: nat)
    requires project in s.setups
  {
    exists id :: id in stale && id < |s.jobs| && s.jobs[id].status == JobRunning
      && s.jobs[id].project == project && s.jobs[id].location.None?
      && StepOf(s.jobs[id].jobType) == Some(s.setups[project].status)
      && (s.jobs[id].jobType.VisibilityJob? ==> !LocationAudit(s, s.jobs[id]))
  }

  /** A setup fails with the sweep exactly when one of these jobs carried its step, and a retry then
      takes that step up again. */
  lemma SweepFailsTheirSetups(s: State, stale: set<nat>, project: nat, crawl: nat, owner: Option<nat>)
    requires project in s.setups && s.setups[project].status != SetupFailed
    ensures var t := Reclaimed(s, stale);
      && project in t.setups
      && (t.setups[project].status == SetupFailed <==> TakesItsJob(s, stale, project))
      && (if t.setups[project].status == SetupFailed then
            && t.setups[project].error == Some(Ascii("reclaimed: worker restarted during setup; retry"))
            && Retries(t, Resumed(t, project, crawl, owner), project, s.setups[project].status, owner)
          else t.setups[project] == s.setups[project])
  {
    var t := Reclaimed(s, stale);
    StrandsIs(s, stale, project);
    hide Strands, LosesAudit, Retries, Resumed, TakesItsJob;
    if t.setups[project].status == SetupFailed {
      RetryTakesUp(t, project, s.setups[project].status, crawl, owner);
    }
  }

  lemma StrandsIs(s: State, stale: set<nat>, project: nat)
    requires project in s.setups
    ensures Strands(s, stale, project) <==> TakesItsJob(s, stale, project)
    ensures Strands(s, stale, project) ==> AwaitsJob(s.setups[project].status)
  {
    hide LocationAudit;
  }

  /** A running visibility job of this audit is among them. */
  predicate TakesAuditJob(s: State, stale: set<nat>, a: nat)
    requires a < |s.audits|
  {
    exists id :: id in stale && id < |s.jobs| && s.jobs[id].status == JobRunning
      && s.jobs[id].jobType.VisibilityJob? && s.jobs[id].audit == Some(a) && s.jobs[id].project == s.audits[a].project
  }

  /** Of the audits the sweep fails exactly the active location audits whose running job it takes. */
  lemma SweepFailsTheirAudits(s: State, stale: set<nat>, a: nat)
    requires a < |s.audits|
    ensures var t, audit := Reclaimed(s, stale), s.audits[a];
      var active := audit.status == AuditQueued || audit.status == AuditRunning;
      var lost := active && audit.location.Some? && TakesAuditJob(s, stale, a);
      |t.audits| == |s.audits| && t.audits[a] == if lost then audit.(status := AuditFailed) else audit
  {
    hide Strands;
  }

  // ---------------------------------------------------------------- requested audits

  /** An active audit is in the way of another one: of the same location, or for the same crawl. */
  predicate Blocked(audits: seq<Audit>, project: nat, crawl: Option<nat>, location: Option<nat>) {
    exists i :: 0 <= i < |audits| && InTheWay(audits[i], project, crawl, location)
  }

  predicate InTheWay(a: Audit, project: nat, crawl: Option<nat>, location: Option<nat>) {
    && (a.status == AuditQueued || a.status == AuditRunning) && a.project == project && a.location == location
    && (location.Some? || (crawl.Some? && a.crawl == crawl))
  }

  /** An audit is launched on request exactly while its month has room and no active audit is in
      its way; it is paid from that month, and its job knows its location when tagged. */
  lemma LaunchIs(s: State, project: nat, crawl: Option<nat>, location: Option<nat>, tagged: bool, quota: Quota,
                 limit: int)
    ensures var t := Launched(s, project, crawl, location, tagged, quota, limit);
      if Used(s, quota) < limit && !Blocked(s.audits, project, crawl, location) then
        && t.setups == s.setups
        && t.audits == s.audits + [Audit(project, crawl, location, AuditQueued, quota)]
        && t.jobs == s.jobs + [Job(VisibilityJob, project, if tagged then location else None, Some(|s.audits|),
                                   JobPending, None)]
        && Used(t, quota) == Used(s, quota) + 1
        && (forall q :: q != quota ==> Used(t, q) == Used(s, q))
      else t == s
  {
    RoomIs(s, quota, limit);
    ConflictIs(s.audits, Audit(project, crawl, location, AuditQueued, quota));
    hide CanReserve, InsertConflicts, Blocked;
  }

  lemma ConflictIs(audits: seq<Audit>, a: Audit)
    requires a.status == AuditQueued
    ensures InsertConflicts(audits, a) <==> Blocked(audits, a.project, a.crawl, a.location)
  {
    forall i | 0 <= i < |audits|
      ensures Clashes(audits[i], a) <==> InTheWay(audits[i], a.project, a.crawl, a.location)
    {
    }
    hide Clashes, InTheWay;
  }

  /** The prompts' own launch first fails the crawl's queued and running project audits, and no
      others; then it pays for one audit and enqueues that audit's job. */
  lemma LaunchReplaces(s: State, project: nat, crawl: Option<nat>, quota: Quota, i: nat)
    requires i < |s.audits|
    ensures var t, audit := AuditLaunched(s, project, crawl, quota), s.audits[i];
      var replaced := crawl.Some? && InTheWay(audit, project, crawl, None);
      && t.setups == s.setups && |t.audits| == |s.audits| + 1
      && t.audits[i] == (if replaced then audit.(status := AuditFailed) else audit)
      && t.audits[|s.audits|] == Audit(project, crawl, None, AuditQueued, quota)
      && t.jobs == s.jobs + [Job(VisibilityJob, project, None, Some(|s.audits|), JobPending, None)]
      && Used(t, quota) == Used(s, quota) + 1
      && (forall q :: q != quota ==> Used(t, q) == Used(s, q))
  {
    LaunchRows(s, project, crawl, quota);
  }

  /** A location's active audit gets a job exactly when none of its jobs is pending or running. */
  lemma AdoptionIs(s: State, a: nat)
    requires a < |s.audits|
    ensures var t, audit := Adopted(s, a), s.audits[a];
      var active := audit.status == AuditQueued || audit.status == AuditRunning;
      var served := exists id :: 0 <= id < |s.jobs| && s.jobs[id].audit == Some(a)
                                   && (s.jobs[id].status == JobPending || s.jobs[id].status == JobRunning);
      t == if active && audit.location.Some? && !served then
             s.(jobs := s.jobs + [Job(VisibilityJob, audit.project, audit.location, Some(a), JobPending, None)])
           else s
  {
  }

  // ---------------------------------------------------------------- what is written down

  /** An error column holds the longest whole-character prefix of at most 500 bytes, or nothing when
      that is only white space. */
  lemma ErrorTextIs(message: Bytes)
    requires ValidUtf8(message)
    ensures var text := CappedError(message);
      && text <= message && |text| <= 500 && ValidUtf8(text) && (text == message <==> |message| <= 500)
      && (forall n :: |text| < n <= 500 && n < |message| ==> !Boundary(message, n))
      && NullText(text) == if AllSpace(text) then None else Some(text)
  {
    CappedIs(message, 500);
    BlankIs(CappedError(message));
    hide AllSpace, Blank, Capped, ValidUtf8;
  }

  // ---------------------------------------------------------------- members and the audit worker

  /** A job enqueued by hand is a plain pending job; only prompts can be asked for a location. */
  lemma RequestIs(s: State, jobType: JobType, project: nat, location: Option<nat>)
    ensures Step(s, EnqueueManually(jobType, project, location)) ==
      s.(jobs := s.jobs + [Job(jobType, project, if jobType == PromptJob then location else None, None, JobPending,
                               None)])
  {
  }

  /** The audit sweep fails exactly the stale running audits. */
  lemma AuditSweepIs(s: State, stale: set<nat>, a: nat)
    requires a < |s.audits|
    ensures var t := Step(s, ReclaimAudits(stale));
      && t == s.(audits := t.audits) && |t.audits| == |s.audits|
      && t.audits[a] == if a in stale && s.audits[a].status == AuditRunning
                        then s.audits[a].(status := AuditFailed) else s.audits[a]
  {
  }

  /** An audit takes a new status unless it would then be in another active one's way. */
  lemma AuditStatusIs(s: State, a: nat, status: AuditStatus)
    requires a < |s.audits| && IndexAllows(s.audits)
    ensures var audit, t := s.audits[a], Step(s, SetAuditStatus(a, status));
      var active := status == AuditQueued || status == AuditRunning;
      var blocked := exists i :: 0 <= i < |s.audits| && i != a
                                   && InTheWay(s.audits[i], audit.project, audit.crawl, audit.location);
      t == if active && blocked then s else s.(audits := s.audits[a := audit.(status := status)])
  {
    var audits := s.audits[a := s.audits[a].(status := status)];
    IndexAfter(s.audits, a, status);
    hide IndexAllows, InTheWay;
  }

  lemma IndexAfter(audits: seq<Audit>, a: nat, status: AuditStatus)
    requires a < |audits| && IndexAllows(audits)
    ensures IndexAllows(audits[a := audits[a].(status := status)]) <==>
      !((status == AuditQueued || status == AuditRunning) &&
        exists i :: 0 <= i < |audits| && i != a
                      && InTheWay(audits[i], audits[a].project, audits[a].crawl, audits[a].location))
  {
    var after := audits[a := audits[a].(status := status)];
    forall i, j | 0 <= i < j < |audits| ensures !Clashes(audits[i], audits[j]) {
    }
    forall i | 0 <= i < |audits| && i != a
      ensures (if i < a then Clashes(after[i], after[a]) else Clashes(after[a], after[i])) <==>
        ((status == AuditQueued || status == AuditRunning) &&
         InTheWay(audits[i], audits[a].project, audits[a].crawl, audits[a].location))
    {
    }
    hide InTheWay, Clashes;
    if !IndexAllows(after) {
      var i, j :| 0 <= i < j < |after| && Clashes(after[i], after[j]);
      assert !Clashes(audits[i], audits[j]);
    }
  }
}
