/** What every interleaving of setup transactions keeps: no setup is stranded, statuses only move
    forward, each step enqueues one job, and audits are paid for and never overlap. */
module SetupSafety {
  import opened Options
  import opened SetupPipeline
  import opened Utf8

  // ---------------------------------------------------------------- transactions of the system

  /** Each event is one committed transaction or statement; what does not apply changes nothing. */
  datatype Event =
    | CreateSetup(project: nat, org: nat, owner: Option<nat>)
    | StartSetup(project: nat, crawl: nat, owner: Option<nat>)
    | CrawlCompleted(project: nat, crawl: nat)
    | CrawlFailed(project: nat, crawl: nat, message: Bytes)
    | Resume(project: nat, crawl: nat, owner: Option<nat>)
    | EnqueueManually(jobType: JobType, project: nat, location: Option<nat>)
    | LaunchManually(
        project: nat, auditCrawl: Option<nat>, location: Option<nat>, tagged: bool, quota: Quota, limit: int)
    | AdoptAudit(audit: nat)
    | Claim(id: nat)
    | Finalize(id: nat, outcome: Outcome)
    | ReclaimJobs(stale: set<nat>)
    | SetAuditStatus(audit: nat, status: AuditStatus)
    | ReclaimAudits(stale: set<nat>)

  function Started(s: State, project: nat, crawl: nat, owner: Option<nat>): State {
    if StatusIs(s, project, Ready) then
      var setup := s.setups[project].(requester := owner, status := Crawling, crawl := Some(crawl));
      s.(setups := s.setups[project := setup.(error := None, failedStep := None, skip := None)])
    else s
  }

  /** OnCrawlCompleted: only the setup still waiting for this very crawl moves. */
  function CrawlDone(s: State, project: nat, crawl: nat): State {
    if StatusIs(s, project, Crawling) && s.setups[project].crawl == Some(crawl) then
      var setup := s.setups[project].(status := ProfileGeneration, failedStep := None, error := None);
      Enqueued(s.(setups := s.setups[project := setup]), ProjectJob(BootstrapJob, project))
    else s
  }

  function CrawlLost(s: State, project: nat, crawl: nat, message: Bytes): State {
    if StatusIs(s, project, Crawling) && s.setups[project].crawl == Some(crawl) then
      var error := NullText(CappedError(message));
      var setup := s.setups[project].(status := SetupFailed, failedStep := Some(AtCrawling), error := error);
      s.(setups := s.setups[project := setup])
    else s
  }

  /** Where a retry of a failed step goes: a failed audit is never reused, so visibility resumes
      at the prompts. Only a failed crawl is crawled again. */
  function RetryOf(step: FailedStep, crawl: nat, owner: Option<nat>): Change {
    match step
    case AtCrawling => To(Crawling).(requester := owner, crawl := Some(crawl))
    case AtProfileGeneration => To(ProfileGeneration).(requester := owner)
    case AtKeywordAnalysis => To(KeywordAnalysis).(requester := owner)
    case _ => To(PromptGeneration).(requester := owner)
  }

  function RetryJob(step: FailedStep): JobType {
    match step
    case AtProfileGeneration => BootstrapJob
    case AtKeywordAnalysis => KeywordJob
    case _ => PromptJob
  }

  /** resumeFailedSetup, which refuses a setup without a failed step. */
  function Resumed(s: State, project: nat, crawl: nat, owner: Option<nat>): State {
    if !StatusIs(s, project, SetupFailed) then s
    else
      match s.setups[project].failedStep
      case None => s
      case Some(step) =>
        var moved := Moved(s, project, SetupFailed, RetryOf(step, crawl, owner));
        if step == AtCrawling then moved else Enqueued(moved, ProjectJob(RetryJob(step), project))
  }

  /** Only prompt generation also exists for locations. */
  function ManualJob(jobType: JobType, project: nat, location: Option<nat>): Job {
    Job(jobType, project, if jobType.PromptJob? then location else None, None, JobPending, None)
  }

  /** An audit requested by a member, or by a location's own setup, which tags the job too. */
  function Launched(s: State, project: nat, crawl: Option<nat>, location: Option<nat>, tagged: bool, quota: Quota,
                    limit: int): State
  {
    var audit := Audit(project, crawl, location, AuditQueued, quota);
    if !CanReserve(s, quota, limit) || InsertConflicts(s.audits, audit) then s
    else
      Reserved(s, quota).(
        audits := s.audits + [audit],
        jobs := s.jobs +
          [Job(VisibilityJob, project, if tagged then location else None, Some(|s.audits|), JobPending, None)])
  }

  predicate HasLiveJob(s: State, audit: nat) {
    exists id :: 0 <= id < |s.jobs| && s.jobs[id].audit == Some(audit) && Pending(s.jobs[id])
  }

  /** A location setup that already owns an active audit sees to it that it has a job. */
  function Adopted(s: State, audit: nat): State {
    if audit < |s.audits| && AuditActive(s.audits[audit]) && s.audits[audit].location.Some?
      && !HasLiveJob(s, audit) then
      var a := s.audits[audit];
      Enqueued(s, Job(VisibilityJob, a.project, a.location, Some(audit), JobPending, None))
    else s
  }

  predicate IsStale(s: State, stale: set<nat>, id: nat) {
    id in stale && id < |s.jobs| && s.jobs[id].status == JobRunning
  }

  function StepOf(jobType: JobType): Option<SetupStatus> {
    match jobType
    case BootstrapJob => Some(ProfileGeneration)
    case KeywordJob => Some(KeywordAnalysis)
    case PromptJob => Some(PromptGeneration)
    case VisibilityJob => Some(Visibility)
    case OtherJob => None
  }

  function FailedStepOf(status: SetupStatus): Option<FailedStep> {
    match status
    case ProfileGeneration => Some(AtProfileGeneration)
    case KeywordAnalysis => Some(AtKeywordAnalysis)
    case PromptGeneration => Some(AtPromptGeneration)
    case Visibility => Some(AtVisibility)
    case _ => None
  }

  predicate LocationAudit(s: State, job: Job) {
    job.audit.Some? && job.audit.value < |s.audits| && s.audits[job.audit.value].location.Some?
  }

  /** Reclaiming this job fails a setup that is at this status. */
  predicate Carries(s: State, id: nat, project: nat, status: SetupStatus) {
    && id < |s.jobs|
    && s.jobs[id].project == project
    && s.jobs[id].location.None?
    && StepOf(s.jobs[id].jobType) == Some(status)
    && (s.jobs[id].jobType.VisibilityJob? ==> !LocationAudit(s, s.jobs[id]))
  }

  predicate Strands(s: State, stale: set<nat>, project: nat) {
    && project in s.setups
    && exists id :: id in stale && IsStale(s, stale, id) && Carries(s, id, project, s.setups[project].status)
  }

  /** The audit of a stale location job dies with it. */
  predicate LosesAudit(s: State, stale: set<nat>, audit: nat) {
    && audit < |s.audits| && AuditActive(s.audits[audit]) && s.audits[audit].location.Some?
    && exists id :: id in stale && IsStale(s, stale, id) && s.jobs[id].jobType.VisibilityJob?
         && s.jobs[id].audit == Some(audit) && s.jobs[id].project == s.audits[audit].project
  }

  const RECLAIMED_JOB := Ascii("reclaimed: worker restarted")
  const RECLAIMED_SETUP := Ascii("reclaimed: worker restarted during setup; retry")

  /** ReclaimStaleRunningAIWorkerJobs: one statement fails the jobs and the setups they carry. */
  ghost function Reclaimed(s: State, stale: set<nat>): State {
    s.(jobs := seq(|s.jobs|, id requires 0 <= id < |s.jobs| =>
         if IsStale(s, stale, id) then s.jobs[id].(status := JobFailed, error := Some(RECLAIMED_JOB)) else s.jobs[id]),
       audits := seq(|s.audits|, a requires 0 <= a < |s.audits| =>
         if LosesAudit(s, stale, a) then s.audits[a].(status := AuditFailed) else s.audits[a]),
       setups := map project | project in s.setups ::
         if Strands(s, stale, project) then
           s.setups[project].(
             status := SetupFailed,
             failedStep := FailedStepOf(s.setups[project].status),
             error := Some(RECLAIMED_SETUP))
         else s.setups[project])
  }

  /** UpdateAIAuditStatus, which the unique index may refuse. */
  function AuditSet(s: State, audit: nat, status: AuditStatus): State {
    if audit >= |s.audits| then s
    else
      var audits := s.audits[audit := s.audits[audit].(status := status)];
      if IndexAllows(audits) then s.(audits := audits) else s
  }

  function AuditsReclaimed(s: State, stale: set<nat>): State {
    s.(audits := seq(|s.audits|, a requires 0 <= a < |s.audits| =>
         if a in stale && s.audits[a].status == AuditRunning then s.audits[a].(status := AuditFailed) else s.audits[a]))
  }

  ghost function Step(s: State, e: Event): State {
    match e
    case CreateSetup(project, org, owner) =>
      if project in s.setups then s
      else s.(setups := s.setups[project := Setup(org, owner, None, Ready, None, None, None)])
    case StartSetup(project, crawl, owner) => Started(s, project, crawl, owner)
    case CrawlCompleted(project, crawl) => CrawlDone(s, project, crawl)
    case CrawlFailed(project, crawl, message) => CrawlLost(s, project, crawl, message)
    case Resume(project, crawl, owner) => Resumed(s, project, crawl, owner)
    case EnqueueManually(jobType, project, location) => Enqueued(s, ManualJob(jobType, project, location))
    case LaunchManually(project, crawl, location, tagged, quota, limit) =>
      Launched(s, project, crawl, location, tagged, quota, limit)
    case AdoptAudit(audit) => Adopted(s, audit)
    case Claim(id) => if id < |s.jobs| && s.jobs[id].status == JobPending then Marked(s, id, JobRunning) else s
    case Finalize(id, outcome) =>
      if id < |s.jobs| && s.jobs[id].status != JobPending then Finalized(s, id, outcome) else s
    case ReclaimJobs(stale) => Reclaimed(s, stale)
    case SetAuditStatus(audit, status) => AuditSet(s, audit, status)
    case ReclaimAudits(stale) => AuditsReclaimed(s, stale)
  }

  ghost function Run(s: State, events: seq<Event>): State {
    if events == [] then s else Step(Run(s, events[..|events| - 1]), events[|events| - 1])
  }

  /** Events that may change a setup. */
  predicate TouchesSetups(e: Event) {
    e.CreateSetup? || e.StartSetup? || e.CrawlCompleted? || e.CrawlFailed? || e.Resume? || e.Finalize? || e.ReclaimJobs?
  }

  lemma OthersKeepSetups(s: State, e: Event)
    requires !TouchesSetups(e)
    ensures Step(s, e).setups == s.setups
  {
    hide IndexAllows, InsertConflicts, CanReserve, HasLiveJob;
  }

  const EMPTY := State(map[], [], [], map[])

  // ---------------------------------------------------------------- no setup is stranded

  predicate Pending(job: Job) {
    job.status == JobPending || job.status == JobRunning
  }

  predicate AwaitsJob(status: SetupStatus) {
    status == ProfileGeneration || status == KeywordAnalysis || status == PromptGeneration || status == Visibility
  }

  /** This job will finish or fail the setup's current step. */
  predicate Serves(s: State, id: nat, project: nat) {
    && project in s.setups && Carries(s, id, project, s.setups[project].status) && Pending(s.jobs[id])
  }

  ghost predicate Served(s: State, project: nat) {
    project in s.setups && AwaitsJob(s.setups[project].status) ==> exists id: nat :: Serves(s, id, project)
  }

  /** A visibility job's scope is known, and its location agrees with its audit's. */
  predicate JobScoped(s: State, job: Job) {
    job.jobType.VisibilityJob? && job.audit.Some? ==>
      && job.audit.value < |s.audits|
      && s.audits[job.audit.value].project == job.project
      && (job.location.Some? ==> s.audits[job.audit.value].location == job.location)
  }

  predicate PlainJob(job: Job) {
    && (job.audit.Some? ==> job.jobType.VisibilityJob?)
    && (job.location.Some? ==> job.jobType.PromptJob? || (job.jobType.VisibilityJob? && job.audit.Some?))
  }

  ghost predicate WellScoped(s: State) {
    forall id :: 0 <= id < |s.jobs| ==> JobScoped(s, s.jobs[id]) && PlainJob(s.jobs[id])
  }

  ghost predicate NoneStranded(s: State) {
    forall project :: Served(s, project)
  }

  /** Only how far the job got may differ. */
  predicate SameJob(before: Job, after: Job) {
    after == before.(status := after.status, error := after.error)
  }

  /** Audits keep their place and scope. */
  predicate AuditsKept(s: State, t: State) {
    |s.audits| <= |t.audits| &&
    forall a :: 0 <= a < |s.audits| ==>
      t.audits[a].location == s.audits[a].location && t.audits[a].project == s.audits[a].project &&
      t.audits[a].paidBy == s.audits[a].paidBy
  }

  // ---------------------------------------------------------------- what a finalizer may do

  /** The finalizers' moves: one step forward, or to an end. */
  predicate Forward(from: SetupStatus, to: SetupStatus) {
    match from
    case ProfileGeneration => to == KeywordAnalysis || to == SetupFailed
    case KeywordAnalysis => to == PromptGeneration || to == SetupFailed
    case PromptGeneration => to == Visibility || to == SetupCompleted || to == SetupFailed
    case Visibility => to == SetupCompleted || to == SetupFailed
    case _ => false
  }

  /** Only the job's own row and its project's setup may change, and at most one job is added. */
  ghost predicate Local(s: State, t: State, id: nat)
    requires id < |s.jobs|
  {
    && (forall q :: q != s.jobs[id].project ==>
          (q in s.setups <==> q in t.setups) && (q in s.setups ==> t.setups[q] == s.setups[q]))
    && (s.jobs[id].project in s.setups <==> s.jobs[id].project in t.setups)
    && |s.jobs| <= |t.jobs| <= |s.jobs| + 1
    && SameJob(s.jobs[id], t.jobs[id]) && !Pending(t.jobs[id])
    && (forall k :: 0 <= k < |s.jobs| && k != id ==> t.jobs[k] == s.jobs[k])
  }

  /** The setup moves exactly when the job carries its current step; it then enqueues the next
      step's job exactly when it has one. */
  ghost predicate Advances(s: State, t: State, id: nat)
    requires id < |s.jobs| && Local(s, t, id)
  {
    var p := s.jobs[id].project;
    if p in s.setups && Carries(s, id, p, s.setups[p].status) then
      && Forward(s.setups[p].status, t.setups[p].status)
      && (AwaitsJob(t.setups[p].status) <==> |t.jobs| == |s.jobs| + 1)
      && (AwaitsJob(t.setups[p].status) ==>
            Serves(t, |s.jobs|, p) && JobScoped(t, t.jobs[|s.jobs|]) && PlainJob(t.jobs[|s.jobs|]))
    else
      t.setups == s.setups && |t.jobs| == |s.jobs|
  }

  lemma BootstrapEffect(s: State, id: nat)
    requires id < |s.jobs| && s.jobs[id].jobType.BootstrapJob? && PlainJob(s.jobs[id])
    ensures var t := BootstrapSuccess(s, id);
      t.audits == s.audits && t.used == s.used && Local(s, t, id) && Advances(s, t, id)
  {
  }

  lemma KeywordEffect(s: State, id: nat)
    requires id < |s.jobs| && s.jobs[id].jobType.KeywordJob? && PlainJob(s.jobs[id])
    ensures var t := KeywordSuccess(s, id);
      t.audits == s.audits && t.used == s.used && Local(s, t, id) && Advances(s, t, id)
  {
  }

  /** Paying for an audit creates it, fails the crawl's active ones and enqueues its job. */
  lemma LaunchRows(s: State, project: nat, crawl: Option<nat>, quota: Quota)
    ensures var t := AuditLaunched(s, project, crawl, quota);
      && t.setups == s.setups && AuditsKept(s, t)
      && |t.audits| == |s.audits| + 1
      && t.audits[|s.audits|] == Audit(project, crawl, None, AuditQueued, quota)
      && t.jobs == s.jobs + [Job(VisibilityJob, project, None, Some(|s.audits|), JobPending, None)]
  {
  }

  lemma PromptEffect(s: State, id: nat, period: nat, limit: int)
    requires id < |s.jobs| && s.jobs[id].jobType.PromptJob? && s.jobs[id].location.None? && PlainJob(s.jobs[id])
    ensures var t := PromptSuccess(s, id, period, limit); AuditsKept(s, t) && Local(s, t, id) && Advances(s, t, id)
  {
    hide AuditLaunched, CanReserve, Reserved;
    var project := s.jobs[id].project;
    if StatusIs(s, project, PromptGeneration) {
      LaunchRows(s, project, s.setups[project].crawl, Quota(s.setups[project].org, period));
    }
  }

  lemma VisibilityEffect(s: State, id: nat, auditFailed: bool)
    requires id < |s.jobs| && s.jobs[id].jobType.VisibilityJob? && ScopeOf(s, s.jobs[id]).ProjectScope?
    requires JobScoped(s, s.jobs[id]) && PlainJob(s.jobs[id])
    ensures var t := VisibilitySuccess(s, id, auditFailed);
      t.audits == s.audits && t.used == s.used && Local(s, t, id) && Advances(s, t, id)
  {
  }

  lemma FailureEffect(s: State, id: nat, expected: SetupStatus, step: FailedStep, message: Bytes)
    requires id < |s.jobs| && StepOf(s.jobs[id].jobType) == Some(expected) && FailedStepOf(expected) == Some(step)
    requires ScopeOf(s, s.jobs[id]).ProjectScope? && JobScoped(s, s.jobs[id]) && PlainJob(s.jobs[id])
    ensures var t := FailedAt(s, id, expected, step, message);
      t.audits == s.audits && t.used == s.used && Local(s, t, id) && Advances(s, t, id)
  {
  }

  lemma LocationEffect(s: State, id: nat, outcome: Outcome)
    requires id < |s.jobs| && ScopeOf(s, s.jobs[id]).LocationScope?
    ensures var t := Finalized(s, id, outcome);
      t.audits == s.audits && t.used == s.used && Local(s, t, id) && Advances(s, t, id)
  {
  }

  /** Finalizing a job has that effect, and nothing but a prompt job touches audits. */
  lemma FinalizedEffect(s: State, id: nat, outcome: Outcome)
    requires id < |s.jobs| && WellScoped(s)
    ensures var t := Finalized(s, id, outcome); AuditsKept(s, t) && Local(s, t, id) && Advances(s, t, id)
    ensures !s.jobs[id].jobType.PromptJob? || outcome.Errored? ==>
      Finalized(s, id, outcome).audits == s.audits && Finalized(s, id, outcome).used == s.used
  {
    hide BootstrapSuccess, KeywordSuccess, PromptSuccess, VisibilitySuccess, FailedAt, Local, Advances, Marked;
    var job := s.jobs[id];
    assert JobScoped(s, job) && PlainJob(job);
    if ScopeOf(s, job).LocationScope? {
      LocationEffect(s, id, outcome);
    } else {
      match (job.jobType, outcome)
      case (BootstrapJob, Succeeded(_, _, _)) => BootstrapEffect(s, id);
      case (KeywordJob, Succeeded(_, _, _)) => KeywordEffect(s, id);
      case (PromptJob, Succeeded(_, period, limit)) => PromptEffect(s, id, period, limit);
      case (VisibilityJob, Succeeded(auditFailed, _, _)) => VisibilityEffect(s, id, auditFailed);
      case (BootstrapJob, Errored(message)) => FailureEffect(s, id, ProfileGeneration, AtProfileGeneration, message);
      case (KeywordJob, Errored(message)) => FailureEffect(s, id, KeywordAnalysis, AtKeywordAnalysis, message);
      case (PromptJob, Errored(message)) => FailureEffect(s, id, PromptGeneration, AtPromptGeneration, message);
      case (VisibilityJob, Errored(message)) => FailureEffect(s, id, Visibility, AtVisibility, message);
    }
  }

  // ---------------------------------------------------------------- no setup is stranded: every event

  lemma ServesKept(s: State, t: State, id: nat, project: nat)
    requires Serves(s, id, project) && AuditsKept(s, t) && JobScoped(s, s.jobs[id])
    requires id < |t.jobs| && SameJob(s.jobs[id], t.jobs[id]) && Pending(t.jobs[id])
    requires project in t.setups && t.setups[project].status == s.setups[project].status
    ensures Serves(t, id, project)
  {
  }

  /** Statuses stand and no job ends: everyone stays served. */
  lemma QuietStep(s: State, t: State)
    requires WellScoped(s) && NoneStranded(s) && AuditsKept(s, t) && |s.jobs| <= |t.jobs|
    requires forall id :: 0 <= id < |s.jobs| ==>
      SameJob(s.jobs[id], t.jobs[id]) && (Pending(s.jobs[id]) ==> Pending(t.jobs[id]))
    requires forall p :: p in t.setups && AwaitsJob(t.setups[p].status) ==>
      p in s.setups && t.setups[p].status == s.setups[p].status
    ensures NoneStranded(t)
  {
    hide Serves, JobScoped, AuditsKept;
    forall p ensures Served(t, p) {
      if p in t.setups && AwaitsJob(t.setups[p].status) {
        assert Served(s, p);
        var id: nat :| Serves(s, id, p);
        InRange(s, id, p);
        assert JobScoped(s, s.jobs[id]);
        ServesKept(s, t, id, p);
      }
    }
  }

  lemma InRange(s: State, id: nat, project: nat)
    requires Serves(s, id, project)
    ensures id < |s.jobs| && Pending(s.jobs[id]) && s.jobs[id].project == project
    ensures project in s.setups && Carries(s, id, project, s.setups[project].status)
  {
  }

  lemma FinalizeServes(s: State, id: nat, outcome: Outcome)
    requires id < |s.jobs| && WellScoped(s) && NoneStranded(s)
    ensures NoneStranded(Finalized(s, id, outcome))
  {
    var t := Finalized(s, id, outcome);
    FinalizedEffect(s, id, outcome);
    hide Finalized, Serves, Carries, JobScoped, PlainJob, AuditsKept, Forward;
    forall p ensures Served(t, p) {
      if p in t.setups && AwaitsJob(t.setups[p].status) {
        if p == s.jobs[id].project && Carries(s, id, p, s.setups[p].status) {
          assert Serves(t, |s.jobs|, p);
        } else {
          assert Served(s, p);
          var k: nat :| Serves(s, k, p);
          InRange(s, k, p);
          assert JobScoped(s, s.jobs[k]);
          ServesKept(s, t, k, p);
        }
      }
    }
  }

  lemma ReclaimServes(s: State, stale: set<nat>)
    requires WellScoped(s) && NoneStranded(s)
    ensures NoneStranded(Reclaimed(s, stale))
  {
    var t := Reclaimed(s, stale);
    hide Serves, Carries, JobScoped, LosesAudit;
    forall p ensures Served(t, p) {
      if p in t.setups && AwaitsJob(t.setups[p].status) {
        assert !Strands(s, stale, p);
        assert Served(s, p);
        var k: nat :| Serves(s, k, p);
        InRange(s, k, p);
        assert JobScoped(s, s.jobs[k]);
        assert !IsStale(s, stale, k);
        ServesKept(s, t, k, p);
      }
    }
  }

  /** Moving a setup onto a step together with that step's job. */
  lemma EnterServes(s: State, t: State, project: nat, jobType: JobType)
    requires WellScoped(s) && NoneStranded(s) && t.audits == s.audits
    requires t.jobs == s.jobs + [ProjectJob(jobType, project)]
    requires project in t.setups && StepOf(jobType) == Some(t.setups[project].status)
    requires forall p :: p != project && p in t.setups ==> p in s.setups && t.setups[p].status == s.setups[p].status
    ensures NoneStranded(t)
  {
    forall p ensures Served(t, p) {
      if p == project {
        assert Serves(t, |s.jobs|, p);
      } else if p in t.setups && AwaitsJob(t.setups[p].status) {
        assert Served(s, p);
        var k: nat :| Serves(s, k, p);
        ServesKept(s, t, k, p);
      }
    }
  }

  lemma ResumeServes(s: State, project: nat, crawl: nat, owner: Option<nat>)
    requires WellScoped(s) && NoneStranded(s)
    ensures NoneStranded(Resumed(s, project, crawl, owner))
  {
    hide NoneStranded, WellScoped;
    var t := Resumed(s, project, crawl, owner);
    if StatusIs(s, project, SetupFailed) && s.setups[project].failedStep.Some? {
      var step := s.setups[project].failedStep.value;
      if step == AtCrawling {
        QuietStep(s, t);
      } else {
        EnterServes(s, t, project, RetryJob(step));
      }
    }
  }

  lemma StepServes(s: State, e: Event)
    requires WellScoped(s) && NoneStranded(s)
    ensures NoneStranded(Step(s, e))
  {
    hide NoneStranded, WellScoped, Finalized, Reclaimed, Resumed;
    match e
    case Finalize(id, outcome) => if id < |s.jobs| { FinalizeServes(s, id, outcome); }
    case ReclaimJobs(stale) => ReclaimServes(s, stale);
    case Resume(project, crawl, owner) => ResumeServes(s, project, crawl, owner);
    case CrawlCompleted(project, crawl) =>
      if Step(s, e) != s {
        EnterServes(s, Step(s, e), project, BootstrapJob);
      }
    case _ =>
      if TouchesSetups(e) {
        SetupEventServes(s, e);
      } else {
        OtherEventServes(s, e);
      }
  }

  lemma SetupEventServes(s: State, e: Event)
    requires WellScoped(s) && NoneStranded(s) && (e.CreateSetup? || e.StartSetup? || e.CrawlFailed?)
    ensures NoneStranded(Step(s, e))
  {
    hide NoneStranded, WellScoped, Capped, Blank;
    QuietStep(s, Step(s, e));
  }

  lemma OtherEventServes(s: State, e: Event)
    requires WellScoped(s) && NoneStranded(s) && !TouchesSetups(e)
    ensures NoneStranded(Step(s, e))
  {
    OthersKeepSetups(s, e);
    OthersKeepRows(s, e);
    hide NoneStranded, WellScoped, Step, AuditsKept, SameJob;
    QuietStep(s, Step(s, e));
  }

  lemma OthersKeepRows(s: State, e: Event)
    requires !TouchesSetups(e)
    ensures var t := Step(s, e);
      && AuditsKept(s, t) && |s.jobs| <= |t.jobs|
      && forall id :: 0 <= id < |s.jobs| ==>
           SameJob(s.jobs[id], t.jobs[id]) && (Pending(s.jobs[id]) ==> Pending(t.jobs[id]))
  {
    hide IndexAllows, InsertConflicts, CanReserve, HasLiveJob;
  }

  // ---------------------------------------------------------------- scopes

  lemma ScopedKept(s: State, t: State)
    requires WellScoped(s) && AuditsKept(s, t) && |s.jobs| <= |t.jobs|
    requires forall id :: 0 <= id < |s.jobs| ==> SameJob(s.jobs[id], t.jobs[id])
    requires forall id :: |s.jobs| <= id < |t.jobs| ==> JobScoped(t, t.jobs[id]) && PlainJob(t.jobs[id])
    ensures WellScoped(t)
  {
    forall id | 0 <= id < |t.jobs| ensures JobScoped(t, t.jobs[id]) && PlainJob(t.jobs[id]) {
      if id < |s.jobs| {
        assert JobScoped(s, s.jobs[id]) && PlainJob(s.jobs[id]);
      }
    }
  }

  /** An added job is the next step's, so its scope is plain. */
  lemma LocalRows(s: State, t: State, id: nat)
    requires id < |s.jobs| && Local(s, t, id) && Advances(s, t, id)
    ensures |s.jobs| <= |t.jobs| && forall k :: 0 <= k < |s.jobs| ==> SameJob(s.jobs[k], t.jobs[k])
    ensures forall k :: |s.jobs| <= k < |t.jobs| ==> JobScoped(t, t.jobs[k]) && PlainJob(t.jobs[k])
  {
    hide JobScoped, PlainJob, Serves, Forward, Carries;
  }

  lemma FinalizeScopes(s: State, id: nat, outcome: Outcome)
    requires id < |s.jobs| && WellScoped(s)
    ensures WellScoped(Finalized(s, id, outcome))
  {
    FinalizedEffect(s, id, outcome);
    hide *;
    LocalRows(s, Finalized(s, id, outcome), id);
    ScopedKept(s, Finalized(s, id, outcome));
  }

  lemma LaunchScopes(s: State, e: Event)
    requires WellScoped(s) && e.LaunchManually?
    ensures WellScoped(Step(s, e))
  {
    hide WellScoped;
    ScopedKept(s, Step(s, e));
  }

  lemma EnqueueScopes(s: State, e: Event)
    requires WellScoped(s) && Step(s, e).audits == s.audits
    requires !e.Finalize? && !e.ReclaimJobs? && !e.LaunchManually?
    ensures WellScoped(Step(s, e))
  {
    hide WellScoped, IndexAllows;
    ScopedKept(s, Step(s, e));
  }

  lemma StepScopes(s: State, e: Event)
    requires WellScoped(s)
    ensures WellScoped(Step(s, e))
  {
    hide WellScoped, Finalized, LosesAudit, Strands, IsStale, FailedStepOf;
    match e
    case Finalize(id, outcome) => if id < |s.jobs| { FinalizeScopes(s, id, outcome); }
    case LaunchManually(_, _, _, _, _, _) => LaunchScopes(s, e);
    case ReclaimJobs(_) => ScopedKept(s, Step(s, e));
    case SetAuditStatus(_, _) => ScopedKept(s, Step(s, e));
    case ReclaimAudits(_) => ScopedKept(s, Step(s, e));
    case _ => EnqueueScopes(s, e);
  }

  // ---------------------------------------------------------------- one active audit for each crawl

  /** Ending audits never breaks the index. */
  lemma IndexShrinks(before: seq<Audit>, after: seq<Audit>)
    requires IndexAllows(before) && |after| == |before|
    requires forall i :: 0 <= i < |after| ==>
      after[i] == before[i].(status := after[i].status) && (AuditActive(after[i]) ==> AuditActive(before[i]))
    ensures IndexAllows(after)
  {
    forall i, j | 0 <= i < j < |after| ensures !Clashes(after[i], after[j]) {
      assert !Clashes(before[i], before[j]);
    }
  }

  lemma IndexGrows(audits: seq<Audit>, a: Audit)
    requires IndexAllows(audits) && !InsertConflicts(audits, a)
    ensures IndexAllows(audits + [a])
  {
  }

  lemma LaunchKeepsIndex(audits: seq<Audit>, project: nat, crawl: Option<nat>, quota: Quota)
    requires IndexAllows(audits)
    ensures IndexAllows(FailActive(audits, project, crawl) + [Audit(project, crawl, None, AuditQueued, quota)])
  {
    IndexShrinks(audits, FailActive(audits, project, crawl));
    IndexGrows(FailActive(audits, project, crawl), Audit(project, crawl, None, AuditQueued, quota));
  }

  lemma FinalizeKeepsIndex(s: State, id: nat, outcome: Outcome)
    requires id < |s.jobs| && WellScoped(s) && IndexAllows(s.audits)
    ensures IndexAllows(Finalized(s, id, outcome).audits)
  {
    hide IndexAllows, WellScoped, FailActive, CanReserve;
    var job := s.jobs[id];
    FinalizedEffect(s, id, outcome);
    if job.jobType.PromptJob? && outcome.Succeeded? && StatusIs(s, job.project, PromptGeneration) {
      var setup := s.setups[job.project];
      LaunchKeepsIndex(s.audits, job.project, setup.crawl, Quota(setup.org, outcome.period));
    }
  }

  lemma StepKeepsIndex(s: State, e: Event)
    requires WellScoped(s) && IndexAllows(s.audits)
    ensures IndexAllows(Step(s, e).audits)
  {
    hide IndexAllows, WellScoped, Finalized, LosesAudit;
    match e
    case Finalize(id, outcome) => if id < |s.jobs| { FinalizeKeepsIndex(s, id, outcome); }
    case LaunchManually(project, crawl, location, _, quota, _) =>
      var a := Audit(project, crawl, location, AuditQueued, quota);
      if !InsertConflicts(s.audits, a) {
        IndexGrows(s.audits, a);
      }
    case ReclaimJobs(stale) => IndexShrinks(s.audits, Step(s, e).audits);
    case ReclaimAudits(stale) => IndexShrinks(s.audits, Step(s, e).audits);
    case _ =>
  }

  // ---------------------------------------------------------------- every audit is paid for

  function PaidAudits(audits: seq<Audit>, quota: Quota): nat {
    if audits == [] then 0
    else PaidAudits(audits[..|audits| - 1], quota) + (if audits[|audits| - 1].paidBy == quota then 1 else 0)
  }

  ghost predicate Paid(s: State) {
    forall quota :: Used(s, quota) == PaidAudits(s.audits, quota)
  }

  lemma {:induction false} PaidUnchanged(before: seq<Audit>, after: seq<Audit>, quota: Quota)
    requires |after| == |before| && forall i :: 0 <= i < |after| ==> after[i].paidBy == before[i].paidBy
    ensures PaidAudits(after, quota) == PaidAudits(before, quota)
  {
    if before != [] {
      PaidUnchanged(before[..|before| - 1], after[..|after| - 1], quota);
    }
  }

  lemma PaidGrows(before: seq<Audit>, after: seq<Audit>, a: Audit, quota: Quota)
    requires |after| == |before| && forall i :: 0 <= i < |after| ==> after[i].paidBy == before[i].paidBy
    ensures PaidAudits(after + [a], quota) == PaidAudits(before, quota) + (if a.paidBy == quota then 1 else 0)
  {
    PaidUnchanged(before, after, quota);
    assert (after + [a])[..|after|] == after;
  }

  /** Paying and creating together keep the account. */
  lemma PaysForOne(s: State, t: State, quota: Quota)
    requires Paid(s) && AuditsKept(s, t) && t.used == Reserved(s, quota).used
    requires |t.audits| == |s.audits| + 1 && t.audits[|s.audits|].paidBy == quota
    ensures Paid(t)
  {
    var n := |s.audits|;
    forall q ensures Used(t, q) == PaidAudits(t.audits, q) {
      assert t.audits == t.audits[..n] + [t.audits[n]];
      PaidGrows(s.audits, t.audits[..n], t.audits[n], q);
    }
  }

  lemma PaysForNone(s: State, t: State)
    requires Paid(s) && AuditsKept(s, t) && t.used == s.used && |t.audits| == |s.audits|
    ensures Paid(t)
  {
    forall q ensures Used(t, q) == PaidAudits(t.audits, q) {
      PaidUnchanged(s.audits, t.audits, q);
    }
  }

  /** The prompt decision: an audit is launched exactly when the allowance still has room, and a
      skip neither reserves, creates nor enqueues. */
  lemma PromptDecides(s: State, id: nat, period: nat, limit: int)
    requires id < |s.jobs| && StatusIs(s, s.jobs[id].project, PromptGeneration)
    ensures var project := s.jobs[id].project;
      var setup := s.setups[project];
      var quota := Quota(setup.org, period);
      var t := PromptSuccess(s, id, period, limit);
      && t.setups[project].status == (if CanReserve(s, quota, limit) then Visibility else SetupCompleted)
      && t.setups[project].skip == (if CanReserve(s, quota, limit) then None
                                    else Some(if limit <= 0 then VisibilityDisabled else QuotaReached))
      && (CanReserve(s, quota, limit) ==>
            && t.used == Reserved(s, quota).used && AuditsKept(s, t) && |t.audits| == |s.audits| + 1
            && t.audits[|s.audits|] == Audit(project, setup.crawl, None, AuditQueued, quota)
            && t.jobs == s.jobs[id := s.jobs[id].(status := JobCompleted)] +
                         [Job(VisibilityJob, project, None, Some(|s.audits|), JobPending, None)])
      && (!CanReserve(s, quota, limit) ==>
            t.used == s.used && t.audits == s.audits && t.jobs == s.jobs[id := s.jobs[id].(status := JobCompleted)])
  {
    var project := s.jobs[id].project;
    LaunchRows(s, project, s.setups[project].crawl, Quota(s.setups[project].org, period));
  }

  lemma FinalizePays(s: State, id: nat, outcome: Outcome)
    requires id < |s.jobs| && WellScoped(s) && Paid(s)
    ensures Paid(Finalized(s, id, outcome))
  {
    FinalizedEffect(s, id, outcome);
    hide Paid, WellScoped, PromptSuccess, CanReserve, AuditsKept, Local, Advances;
    var job := s.jobs[id];
    var t := Finalized(s, id, outcome);
    if job.jobType.PromptJob? && outcome.Succeeded?
      && StatusIs(s, job.project, PromptGeneration) && job.location.None? {
      var quota := Quota(s.setups[job.project].org, outcome.period);
      PromptDecides(s, id, outcome.period, outcome.limit);
      if CanReserve(s, quota, outcome.limit) {
        PaysForOne(s, t, quota);
      } else {
        PaysForNone(s, t);
      }
    } else {
      Untouched(s, id, outcome);
      PaysForNone(s, t);
    }
  }

  lemma Untouched(s: State, id: nat, outcome: Outcome)
    requires id < |s.jobs| && WellScoped(s)
    requires !(s.jobs[id].jobType.PromptJob? && outcome.Succeeded? && s.jobs[id].location.None? &&
               StatusIs(s, s.jobs[id].project, PromptGeneration))
    ensures Finalized(s, id, outcome).audits == s.audits && Finalized(s, id, outcome).used == s.used
  {
    FinalizedEffect(s, id, outcome);
    hide WellScoped, Local, Advances, AuditsKept;
  }

  lemma StepPays(s: State, e: Event)
    requires WellScoped(s) && Paid(s)
    ensures Paid(Step(s, e))
  {
    hide Paid, WellScoped, Finalized, LosesAudit;
    match e
    case Finalize(id, outcome) => if id < |s.jobs| { FinalizePays(s, id, outcome); }
    case LaunchManually(project, crawl, location, _, quota, limit) =>
      if Step(s, e) != s {
        PaysForOne(s, Step(s, e), quota);
      }
    case _ => PaysForNone(s, Step(s, e));
  }

  // ---------------------------------------------------------------- every reachable state

  ghost predicate Safe(s: State) {
    WellScoped(s) && NoneStranded(s) && IndexAllows(s.audits) && Paid(s)
  }

  lemma StepIsSafe(s: State, e: Event)
    requires Safe(s)
    ensures Safe(Step(s, e))
  {
    hide WellScoped, NoneStranded, IndexAllows, Paid, Step;
    StepScopes(s, e);
    StepServes(s, e);
    StepKeepsIndex(s, e);
    StepPays(s, e);
  }

  /** After any run: a setup on a job step has a pending or running job of its step, a crawl has
      at most one active audit, and each allowance counts exactly its audits. */
  lemma {:induction false} RunIsSafe(s: State, events: seq<Event>)
    requires Safe(s)
    ensures Safe(Run(s, events))
  {
    hide Safe, Step;
    if events != [] {
      RunIsSafe(s, events[..|events| - 1]);
      StepIsSafe(Run(s, events[..|events| - 1]), events[|events| - 1]);
    }
  }

  lemma EmptyIsSafe()
    ensures Safe(EMPTY)
  {
  }

  /** No setup is ever stranded. */
  lemma NoSetupIsStranded(events: seq<Event>, project: nat)
    ensures var s := Run(EMPTY, events);
      project in s.setups && AwaitsJob(s.setups[project].status) ==>
        exists id: nat :: id < |s.jobs| && Pending(s.jobs[id]) && s.jobs[id].project == project
          && StepOf(s.jobs[id].jobType) == Some(s.setups[project].status)
  {
    hide Run, Step;
    EmptyIsSafe();
    RunIsSafe(EMPTY, events);
    var s := Run(EMPTY, events);
    assert Served(s, project);
    if project in s.setups && AwaitsJob(s.setups[project].status) {
      var id: nat :| Serves(s, id, project);
      assert Pending(s.jobs[id]);
    }
  }

  /** Over any run, what an allowance counts is what was created on it. */
  lemma ReservationsAreAudits(events: seq<Event>, quota: Quota)
    ensures Used(Run(EMPTY, events), quota) == PaidAudits(Run(EMPTY, events).audits, quota)
  {
    hide Run, Step;
    EmptyIsSafe();
    RunIsSafe(EMPTY, events);
  }

  lemma AuditsNeverOverlap(events: seq<Event>, i: nat, j: nat)
    requires i < j < |Run(EMPTY, events).audits|
    ensures var audits := Run(EMPTY, events).audits;
      AuditActive(audits[i]) && AuditActive(audits[j]) && audits[i].project == audits[j].project ==>
        && (audits[i].location.Some? ==> audits[j].location != audits[i].location)
        && (audits[i].location.None? && audits[j].location.None? && audits[i].crawl.Some? ==>
              audits[j].crawl != audits[i].crawl)
  {
    hide Run, Step;
    EmptyIsSafe();
    RunIsSafe(EMPTY, events);
    var audits := Run(EMPTY, events).audits;
    assert !Clashes(audits[i], audits[j]);
  }

  // ---------------------------------------------------------------- monthly limits

  predicate WithinLimit(e: Event, limit: nat) {
    match e
    case LaunchManually(_, _, _, _, _, offered) => offered <= limit
    case Finalize(_, Succeeded(_, _, offered)) => offered <= limit
    case _ => true
  }

  lemma FinalizeSpends(s: State, id: nat, outcome: Outcome, quota: Quota, limit: nat)
    requires id < |s.jobs| && WellScoped(s) && WithinLimit(Finalize(id, outcome), limit) && Used(s, quota) <= limit
    ensures Used(Finalized(s, id, outcome), quota) <= limit
  {
    hide WellScoped, Moved, FailActive;
    if s.jobs[id].jobType.PromptJob? && outcome.Succeeded? && s.jobs[id].location.None?
      && StatusIs(s, s.jobs[id].project, PromptGeneration) {
      hide PromptSuccess;
      PromptDecides(s, id, outcome.period, outcome.limit);
    } else {
      Untouched(s, id, outcome);
    }
  }

  lemma StepSpends(s: State, e: Event, quota: Quota, limit: nat)
    requires WellScoped(s) && WithinLimit(e, limit) && Used(s, quota) <= limit
    ensures Used(Step(s, e), quota) <= limit
  {
    hide WellScoped, Finalized, LosesAudit;
    if e.Finalize? && e.id < |s.jobs| {
      FinalizeSpends(s, e.id, e.outcome, quota, limit);
    }
  }

  /** No allowance is ever overspent, however many jobs and requests race for it. */
  lemma {:induction false} LimitHolds(s: State, events: seq<Event>, quota: Quota, limit: nat)
    requires Safe(s) && Used(s, quota) <= limit && forall i :: 0 <= i < |events| ==> WithinLimit(events[i], limit)
    ensures Used(Run(s, events), quota) <= limit
  {
    hide Step, WellScoped, NoneStranded, Paid, Used, WithinLimit;
    if events != [] {
      var before := Run(s, events[..|events| - 1]);
      RunIsSafe(s, events[..|events| - 1]);
      LimitHolds(s, events[..|events| - 1], quota, limit);
      StepSpends(before, events[|events| - 1], quota, limit);
    }
  }

  // ---------------------------------------------------------------- forward only

  function Rank(status: SetupStatus): nat {
    match status
    case Ready => 0
    case Crawling => 1
    case ProfileGeneration => 2
    case KeywordAnalysis => 3
    case PromptGeneration => 4
    case Visibility => 5
    case SetupCompleted => 6
    case SetupFailed => 6
  }

  predicate Ended(status: SetupStatus) {
    status == SetupCompleted || status == SetupFailed
  }

  /** Without a member's retry, statuses only advance and an ended setup never changes. */
  lemma StepAdvances(s: State, e: Event, project: nat)
    requires WellScoped(s) && project in s.setups && !(e.Resume? && e.project == project)
    ensures project in Step(s, e).setups
    ensures var t := Step(s, e);
      && Rank(s.setups[project].status) <= Rank(t.setups[project].status)
      && (Ended(s.setups[project].status) ==> t.setups[project] == s.setups[project])
      && (t.setups[project].status != s.setups[project].status ==>
            Rank(s.setups[project].status) < Rank(t.setups[project].status))
  {
    hide WellScoped, Finalized, LosesAudit, Reclaimed, Rank, Ended, IndexAllows, InsertConflicts, CanReserve;
    match e
    case Finalize(id, outcome) =>
      if id < |s.jobs| {
        FinalizedEffect(s, id, outcome);
        hide *;
        LocalAdvances(s, Finalized(s, id, outcome), id, project);
        FinalizeStep(s, id, outcome);
      }
    case _ =>
      if !TouchesSetups(e) {
        OthersKeepSetups(s, e);
        hide Step;
      } else {
        SetupEventAdvances(s, e, project);
      }
  }

  lemma SetupEventAdvances(s: State, e: Event, project: nat)
    requires project in s.setups && !(e.Resume? && e.project == project) && TouchesSetups(e) && !e.Finalize?
    ensures project in Step(s, e).setups
    ensures var t := Step(s, e);
      && Rank(s.setups[project].status) <= Rank(t.setups[project].status)
      && (Ended(s.setups[project].status) ==> t.setups[project] == s.setups[project])
      && (t.setups[project].status != s.setups[project].status ==>
            Rank(s.setups[project].status) < Rank(t.setups[project].status))
  {
    hide LosesAudit, Capped, Blank;
  }

  lemma FinalizeStep(s: State, id: nat, outcome: Outcome)
    requires id < |s.jobs|
    ensures Step(s, Finalize(id, outcome)) == if s.jobs[id].status == JobPending then s else Finalized(s, id, outcome)
  {
    hide Finalized;
  }

  lemma LocalAdvances(s: State, t: State, id: nat, project: nat)
    requires id < |s.jobs| && Local(s, t, id) && Advances(s, t, id) && project in s.setups
    ensures project in t.setups && Rank(s.setups[project].status) <= Rank(t.setups[project].status)
    ensures Ended(s.setups[project].status) ==> t.setups[project] == s.setups[project]
    ensures t.setups[project].status != s.setups[project].status ==>
      Rank(s.setups[project].status) < Rank(t.setups[project].status)
  {
    hide JobScoped, PlainJob, Serves;
  }

  lemma {:induction false} RunAdvances(s: State, events: seq<Event>, project: nat)
    requires Safe(s) && project in s.setups
    requires forall i :: 0 <= i < |events| ==> !(events[i].Resume? && events[i].project == project)
    ensures project in Run(s, events).setups
    ensures Rank(s.setups[project].status) <= Rank(Run(s, events).setups[project].status)
    ensures Ended(s.setups[project].status) ==> Run(s, events).setups[project] == s.setups[project]
  {
    hide Step, WellScoped, NoneStranded, Paid, Rank, Ended;
    if events != [] {
      var n := |events| - 1;
      RunIsSafe(s, events[..n]);
      RunAdvances(s, events[..n], project);
      StepAdvances(Run(s, events[..n]), events[n], project);
    }
  }

  /** Even a retry only restarts a failed setup; a completed one is final. */
  lemma CompletedIsFinal(s: State, e: Event, project: nat)
    requires WellScoped(s) && StatusIs(s, project, SetupCompleted)
    ensures project in Step(s, e).setups && Step(s, e).setups[project] == s.setups[project]
  {
    hide Finalized, WellScoped, Reclaimed;
    if !(e.Resume? && e.project == project) {
      StepAdvances(s, e, project);
    }
  }

  // ---------------------------------------------------------------- failed setups explain themselves

  /** A failed step is named exactly on a failed setup, so a retry always knows where to resume;
      errors are bounded and only on failed setups, skip reasons only on completed ones. */
  predicate Explained(setup: Setup) {
    && (setup.failedStep.Some? <==> setup.status == SetupFailed)
    && (setup.error.Some? ==> setup.status == SetupFailed && |setup.error.value| <= MAX_SETUP_ERROR_MESSAGE_LENGTH)
    && (setup.skip.Some? ==> setup.status == SetupCompleted)
  }

  predicate AllExplained(s: State) {
    forall project :: project in s.setups ==> Explained(s.setups[project])
  }

  /** What may be written. */
  predicate Sensible(change: Change) {
    && (change.status == SetupFailed ==> change.failedStep.Some?)
    && (change.error.Some? ==> |change.error.value| <= MAX_SETUP_ERROR_MESSAGE_LENGTH)
    && (change.skip.Some? ==> change.status == SetupCompleted)
  }

  lemma MovedExplains(s: State, project: nat, expected: SetupStatus, change: Change)
    requires AllExplained(s) && Sensible(change)
    ensures AllExplained(Moved(s, project, expected, change))
  {
  }

  lemma FinalizeExplains(s: State, id: nat, outcome: Outcome)
    requires id < |s.jobs| && AllExplained(s)
    ensures AllExplained(Finalized(s, id, outcome))
  {
    hide Explained, Capped, Blank, FailActive, CanReserve, Moved, AllExplained;
    forall t: State, u: State | t.setups == u.setups && AllExplained(t) ensures AllExplained(u) {
      SameSetups(t, u);
    }
    var project := s.jobs[id].project;
    forall t: State, expected, change | AllExplained(t) && Sensible(change)
      ensures AllExplained(Moved(t, project, expected, change))
    {
      MovedExplains(t, project, expected, change);
    }
  }

  lemma SameSetups(s: State, t: State)
    requires s.setups == t.setups && AllExplained(s)
    ensures AllExplained(t)
  {
  }

  lemma StepExplains(s: State, e: Event)
    requires AllExplained(s)
    ensures AllExplained(Step(s, e))
  {
    if !TouchesSetups(e) {
      OthersKeepSetups(s, e);
      hide *;
      SameSetups(s, Step(s, e));
    } else {
      SetupEventExplains(s, e);
    }
  }

  lemma SetupEventExplains(s: State, e: Event)
    requires AllExplained(s) && TouchesSetups(e)
    ensures AllExplained(Step(s, e))
  {
    hide Finalized, LosesAudit, Strands, Capped, Blank;
    match e
    case Finalize(id, outcome) => if id < |s.jobs| { FinalizeExplains(s, id, outcome); }
    case ReclaimJobs(stale) => ReclaimExplains(s, stale);
    case _ =>
  }

  lemma ReclaimExplains(s: State, stale: set<nat>)
    requires AllExplained(s)
    ensures AllExplained(Reclaimed(s, stale))
  {
    hide LosesAudit, IsStale;
  }

  /** So in every reachable state a failed setup can be resumed, which clears its error. */
  lemma FailedIsResumable(events: seq<Event>, project: nat, crawl: nat, owner: Option<nat>)
    requires project in Run(EMPTY, events).setups
    ensures Explained(Run(EMPTY, events).setups[project])
    ensures var s := Run(EMPTY, events);
      var t := Resumed(s, project, crawl, owner);
      s.setups[project].status == SetupFailed ==>
        && project in t.setups
        && t.setups[project].status in {Crawling, ProfileGeneration, KeywordAnalysis, PromptGeneration}
        && t.setups[project].error == None && t.setups[project].failedStep == None
        && (owner.Some? ==> t.setups[project].requester == owner)
  {
    RunExplains(EMPTY, events);
    hide *;
    ExplainedAt(Run(EMPTY, events), project);
    ResumeClears(Run(EMPTY, events), project, crawl, owner);
  }

  lemma ExplainedAt(s: State, project: nat)
    requires AllExplained(s) && project in s.setups
    ensures Explained(s.setups[project])
  {
    hide Explained;
  }

  lemma ResumeClears(s: State, project: nat, crawl: nat, owner: Option<nat>)
    requires project in s.setups && Explained(s.setups[project])
    ensures var t := Resumed(s, project, crawl, owner);
      s.setups[project].status == SetupFailed ==>
        && project in t.setups
        && t.setups[project].status in {Crawling, ProfileGeneration, KeywordAnalysis, PromptGeneration}
        && t.setups[project].error == None && t.setups[project].failedStep == None
        && (owner.Some? ==> t.setups[project].requester == owner)
  {
  }

  lemma {:induction false} RunExplains(s: State, events: seq<Event>)
    requires AllExplained(s)
    ensures AllExplained(Run(s, events))
  {
    hide AllExplained, Step;
    if events != [] {
      RunExplains(s, events[..|events| - 1]);
      StepExplains(Run(s, events[..|events| - 1]), events[|events| - 1]);
    }
  }

  // ---------------------------------------------------------------- one live job for each audit

  /** Of an audit's jobs at most one is pending or running. */
  ghost predicate OneLiveJob(s: State) {
    forall i, j :: 0 <= i < j < |s.jobs| && s.jobs[i].audit.Some? && s.jobs[j].audit == s.jobs[i].audit ==>
      !(Pending(s.jobs[i]) && Pending(s.jobs[j]))
  }

  /** Jobs keep their audits and none comes back to life; one may be added, for no audit or for one
      without a live job. */
  predicate AddsLiveJob(s: State, t: State) {
    && |s.jobs| <= |t.jobs| <= |s.jobs| + 1
    && (forall i :: 0 <= i < |s.jobs| ==> SameJob(s.jobs[i], t.jobs[i]) && (Pending(t.jobs[i]) ==> Pending(s.jobs[i])))
    && (|t.jobs| > |s.jobs| && t.jobs[|s.jobs|].audit.Some? ==> !HasLiveJob(s, t.jobs[|s.jobs|].audit.value))
  }

  lemma LiveJobKept(s: State, t: State)
    requires OneLiveJob(s) && AddsLiveJob(s, t)
    ensures OneLiveJob(t)
  {
  }

  lemma NewAuditHasNoJob(s: State)
    requires WellScoped(s)
    ensures !HasLiveJob(s, |s.audits|)
  {
    forall id | 0 <= id < |s.jobs| ensures s.jobs[id].audit != Some(|s.audits|) {
      assert JobScoped(s, s.jobs[id]) && PlainJob(s.jobs[id]);
    }
  }

  /** A finalizer's new job carries no audit, or the one just created. */
  lemma FinalizedAudit(s: State, id: nat, outcome: Outcome)
    requires id < |s.jobs|
    ensures var t := Finalized(s, id, outcome);
      |t.jobs| > |s.jobs| ==> t.jobs[|s.jobs|].audit.None? || t.jobs[|s.jobs|].audit == Some(|s.audits|)
  {
    hide CanReserve, FailActive, Capped, Blank;
  }

  lemma LocalAddsLive(s: State, t: State, id: nat)
    requires id < |s.jobs| && Local(s, t, id) && !HasLiveJob(s, |s.audits|)
    requires |t.jobs| > |s.jobs| ==> t.jobs[|s.jobs|].audit.None? || t.jobs[|s.jobs|].audit == Some(|s.audits|)
    ensures AddsLiveJob(s, t)
  {
    hide HasLiveJob;
  }

  lemma StepAddsLive(s: State, e: Event)
    requires WellScoped(s)
    ensures AddsLiveJob(s, Step(s, e))
  {
    NewAuditHasNoJob(s);
    hide WellScoped, Finalized, Reclaimed, Resumed, HasLiveJob, IndexAllows, CanReserve, InsertConflicts;
    match e
    case Finalize(id, outcome) =>
      if id < |s.jobs| {
        FinalizedEffect(s, id, outcome);
        FinalizedAudit(s, id, outcome);
        hide *;
        LocalAddsLive(s, Finalized(s, id, outcome), id);
        NothingAddsLive(s);
        FinalizeStep(s, id, outcome);
      }
    case ReclaimJobs(stale) => ReclaimAddsLive(s, stale);
    case Resume(project, crawl, owner) => ResumeAddsLive(s, project, crawl, owner);
    case _ =>
  }

  lemma NothingAddsLive(s: State)
    ensures AddsLiveJob(s, s)
  {
    hide HasLiveJob;
  }

  lemma ReclaimAddsLive(s: State, stale: set<nat>)
    ensures AddsLiveJob(s, Reclaimed(s, stale))
  {
    hide HasLiveJob, LosesAudit, Strands, IsStale;
  }

  lemma ResumeAddsLive(s: State, project: nat, crawl: nat, owner: Option<nat>)
    ensures AddsLiveJob(s, Resumed(s, project, crawl, owner))
  {
    hide HasLiveJob;
  }

  /** Over any run, whatever launches, adopts, sweeps and finalizes, no audit has two live jobs. */
  lemma {:induction false} AuditsHaveOneJob(s: State, events: seq<Event>)
    requires Safe(s) && OneLiveJob(s)
    ensures OneLiveJob(Run(s, events))
  {
    hide Step, WellScoped, NoneStranded, Paid, OneLiveJob, AddsLiveJob;
    if events != [] {
      var n := |events| - 1;
      RunIsSafe(s, events[..n]);
      AuditsHaveOneJob(s, events[..n]);
      StepAddsLive(Run(s, events[..n]), events[n]);
      LiveJobKept(Run(s, events[..n]), Step(Run(s, events[..n]), events[n]));
    }
  }

  // ---------------------------------------------------------------- one job for each step entered

  function CountJobs(jobs: seq<Job>, project: nat, jobType: JobType): nat {
    if jobs == [] then 0
    else
      var last := jobs[|jobs| - 1];
      CountJobs(jobs[..|jobs| - 1], project, jobType) +
        (if last.project == project && last.jobType == jobType then 1 else 0)
  }

  /** The event moves the project's setup onto this job type's step. */
  ghost predicate Enters(s: State, e: Event, project: nat, jobType: JobType) {
    && project in Step(s, e).setups
    && StepOf(jobType) == Some(Step(s, e).setups[project].status)
    && (project in s.setups ==> s.setups[project].status != Step(s, e).setups[project].status)
  }

  /** Jobs the event adds on its own account: members' requests and location setups. */
  ghost function Requested(s: State, e: Event, project: nat, jobType: JobType): nat {
    match e
    case EnqueueManually(t, p, _) => if t == jobType && p == project then 1 else 0
    case LaunchManually(p, _, _, _, _, _) =>
      if jobType.VisibilityJob? && p == project && |Step(s, e).jobs| > |s.jobs| then 1 else 0
    case AdoptAudit(audit) =>
      if jobType.VisibilityJob? && |Step(s, e).jobs| > |s.jobs| && s.audits[audit].project == project then 1 else 0
    case _ => 0
  }

  ghost function Entries(s: State, events: seq<Event>, project: nat, jobType: JobType): nat {
    if events == [] then 0
    else
      var n := |events| - 1;
      var before := Run(s, events[..n]);
      Entries(s, events[..n], project, jobType) +
      (if Enters(before, events[n], project, jobType) then 1 else 0) + Requested(before, events[n], project, jobType)
  }

  lemma {:induction false} CountKept(before: seq<Job>, after: seq<Job>, project: nat, jobType: JobType)
    requires |after| == |before|
    requires forall i :: 0 <= i < |after| ==>
      after[i].project == before[i].project && after[i].jobType == before[i].jobType
    ensures CountJobs(after, project, jobType) == CountJobs(before, project, jobType)
  {
    if before != [] {
      CountKept(before[..|before| - 1], after[..|after| - 1], project, jobType);
    }
  }

  /** How many of this kind the rows after the first n add; at most one row is ever added. */
  lemma CountAdded(before: seq<Job>, after: seq<Job>, project: nat, jobType: JobType)
    requires |before| <= |after| <= |before| + 1
    requires forall i :: 0 <= i < |before| ==>
      after[i].project == before[i].project && after[i].jobType == before[i].jobType
    ensures CountJobs(after, project, jobType) == CountJobs(before, project, jobType) +
      (if |after| > |before| && after[|before|].project == project && after[|before|].jobType == jobType then 1 else 0)
  {
    CountKept(before, after[..|before|], project, jobType);
    if |after| == |before| {
      assert after[..|before|] == after;
    }
  }

  lemma FinalizeEnqueues(s: State, id: nat, outcome: Outcome, project: nat, jobType: JobType)
    requires id < |s.jobs| && WellScoped(s) && s.jobs[id].status != JobPending && jobType != OtherJob
    ensures CountJobs(Step(s, Finalize(id, outcome)).jobs, project, jobType)
         == CountJobs(s.jobs, project, jobType) + (if Enters(s, Finalize(id, outcome), project, jobType) then 1 else 0)
  {
    var t := Finalized(s, id, outcome);
    FinalizedEffect(s, id, outcome);
    hide *;
    LocalEnters(s, t, id, project, jobType);
    EntersIs(s, id, outcome, project, jobType);
    CountAdded(s.jobs, t.jobs, project, jobType);
  }

  predicate EntersTo(s: State, t: State, project: nat, jobType: JobType) {
    && project in t.setups
    && StepOf(jobType) == Some(t.setups[project].status)
    && (project in s.setups ==> s.setups[project].status != t.setups[project].status)
  }

  lemma EntersIs(s: State, id: nat, outcome: Outcome, project: nat, jobType: JobType)
    requires id < |s.jobs| && s.jobs[id].status != JobPending
    ensures Step(s, Finalize(id, outcome)) == Finalized(s, id, outcome)
    ensures Enters(s, Finalize(id, outcome), project, jobType) <==>
      EntersTo(s, Finalized(s, id, outcome), project, jobType)
  {
    hide Finalized;
  }

  /** A finalizer adds a row of the step's kind exactly when it enters the step. */
  lemma LocalEnters(s: State, t: State, id: nat, project: nat, jobType: JobType)
    requires id < |s.jobs| && Local(s, t, id) && Advances(s, t, id) && jobType != OtherJob
    ensures |s.jobs| <= |t.jobs| <= |s.jobs| + 1
    ensures forall i :: 0 <= i < |s.jobs| ==>
      t.jobs[i].project == s.jobs[i].project && t.jobs[i].jobType == s.jobs[i].jobType
    ensures EntersTo(s, t, project, jobType) <==>
      |t.jobs| > |s.jobs| && t.jobs[|s.jobs|].project == project && t.jobs[|s.jobs|].jobType == jobType
  {
    hide JobScoped, PlainJob;
  }

  lemma ReclaimEnqueues(s: State, stale: set<nat>, project: nat, jobType: JobType)
    ensures CountJobs(Reclaimed(s, stale).jobs, project, jobType) == CountJobs(s.jobs, project, jobType)
    ensures !Enters(s, ReclaimJobs(stale), project, jobType)
  {
    hide LosesAudit, Strands, IsStale;
    CountKept(s.jobs, Reclaimed(s, stale).jobs, project, jobType);
  }

  lemma ResumeEnqueues(s: State, resumed: nat, crawl: nat, owner: Option<nat>, project: nat, jobType: JobType)
    requires jobType != OtherJob
    ensures CountJobs(Resumed(s, resumed, crawl, owner).jobs, project, jobType)
         == CountJobs(s.jobs, project, jobType) +
           (if Enters(s, Resume(resumed, crawl, owner), project, jobType) then 1 else 0)
  {
    hide CountJobs;
    var t := Resumed(s, resumed, crawl, owner);
    ResumeAdds(s, resumed, crawl, owner);
    hide Resumed;
    assert Step(s, Resume(resumed, crawl, owner)) == t;
    CountAdded(s.jobs, t.jobs, project, jobType);
  }

  /** A retry enqueues the job of the step it enters, and nothing for the crawl. */
  lemma ResumeAdds(s: State, resumed: nat, crawl: nat, owner: Option<nat>)
    ensures var t := Resumed(s, resumed, crawl, owner);
      && |s.jobs| <= |t.jobs| <= |s.jobs| + 1
      && (forall i :: 0 <= i < |s.jobs| ==> t.jobs[i] == s.jobs[i])
      && (forall p ::
            (p in s.setups <==> p in t.setups) && (p in s.setups && p != resumed ==> t.setups[p] == s.setups[p]))
      && (t == s || (resumed in s.setups && t.setups[resumed].status != s.setups[resumed].status))
      && (t != s ==>
            if |t.jobs| > |s.jobs| then
              t.jobs[|s.jobs|].project == resumed && StepOf(t.jobs[|s.jobs|].jobType) == Some(t.setups[resumed].status)
            else t.setups[resumed].status == Crawling)
  {
  }

  lemma StepEnqueues(s: State, e: Event, project: nat, jobType: JobType)
    requires WellScoped(s) && jobType != OtherJob
    ensures CountJobs(Step(s, e).jobs, project, jobType)
         == CountJobs(s.jobs, project, jobType) +
            (if Enters(s, e, project, jobType) then 1 else 0) + Requested(s, e, project, jobType)
  {
    hide WellScoped, Finalized, LosesAudit, CountJobs, Reclaimed, Resumed, IndexAllows, CanReserve, InsertConflicts;
    hide Launched, Adopted;
    match e
    case Finalize(id, outcome) =>
      if id < |s.jobs| && s.jobs[id].status != JobPending {
        FinalizeEnqueues(s, id, outcome, project, jobType);
      }
    case ReclaimJobs(stale) => ReclaimEnqueues(s, stale, project, jobType);
    case Resume(p, crawl, owner) => ResumeEnqueues(s, p, crawl, owner, project, jobType);
    case _ =>
      if TouchesSetups(e) {
        SetupEventEnqueues(s, e, project, jobType);
      } else {
        OtherEventEnqueues(s, e, project, jobType);
      }
  }

  lemma SetupEventEnqueues(s: State, e: Event, project: nat, jobType: JobType)
    requires jobType != OtherJob && (e.CreateSetup? || e.StartSetup? || e.CrawlFailed? || e.CrawlCompleted?)
    ensures CountJobs(Step(s, e).jobs, project, jobType)
         == CountJobs(s.jobs, project, jobType) +
            (if Enters(s, e, project, jobType) then 1 else 0) + Requested(s, e, project, jobType)
  {
    hide CountJobs, Capped, Blank;
    CountAdded(s.jobs, Step(s, e).jobs, project, jobType);
  }

  lemma OtherEventEnqueues(s: State, e: Event, project: nat, jobType: JobType)
    requires jobType != OtherJob && !TouchesSetups(e)
    ensures CountJobs(Step(s, e).jobs, project, jobType)
         == CountJobs(s.jobs, project, jobType) +
            (if Enters(s, e, project, jobType) then 1 else 0) + Requested(s, e, project, jobType)
  {
    hide CountJobs, IndexAllows, CanReserve, InsertConflicts, HasLiveJob;
    OthersKeepSetups(s, e);
    CountAdded(s.jobs, Step(s, e).jobs, project, jobType);
  }

  /** Over any run, a step's jobs are exactly the times a setup entered it plus the jobs others
      asked for: however many duplicates finalize, no entry enqueues twice or not at all. */
  lemma {:induction false} OneJobForEachEntry(s: State, events: seq<Event>, project: nat, jobType: JobType)
    requires Safe(s) && jobType != OtherJob
    ensures CountJobs(Run(s, events).jobs, project, jobType)
         == CountJobs(s.jobs, project, jobType) + Entries(s, events, project, jobType)
  {
    hide Step, WellScoped, NoneStranded, Paid, CountJobs, Enters, Requested;
    if events != [] {
      var n := |events| - 1;
      RunIsSafe(s, events[..n]);
      OneJobForEachEntry(s, events[..n], project, jobType);
      StepEnqueues(Run(s, events[..n]), events[n], project, jobType);
    }
  }
}
