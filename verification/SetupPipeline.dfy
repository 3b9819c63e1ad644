/** Project setup: job finalizers as atomic transactions (internal/aiaudit/setup_finalization.go),
    their dispatch (internal/aiaudit/worker.go) and the statements they run
    (internal/db/queries/project_setup.sql, ai_worker_jobs.sql, ai_audits.sql). */
module SetupPipeline {
  import opened Options
  import opened Utf8

  datatype SetupStatus =
    | Ready | Crawling | ProfileGeneration | KeywordAnalysis | PromptGeneration | Visibility
    | SetupCompleted | SetupFailed

  datatype FailedStep =
    AtCrawling | AtProfileGeneration | AtKeywordAnalysis | AtPromptGeneration | AtVisibility

  datatype SkipReason = VisibilityDisabled | QuotaReached

  datatype Setup = Setup(
    org: nat, requester: Option<nat>, crawl: Option<nat>, status: SetupStatus,
    failedStep: Option<FailedStep>, skip: Option<SkipReason>, error: Option<Bytes>)

  datatype JobType = BootstrapJob | KeywordJob | PromptJob | VisibilityJob | OtherJob

  datatype JobStatus = JobPending | JobRunning | JobCompleted | JobFailed

  /** Rows are numbered in insertion order. */
  datatype Job = Job(
    jobType: JobType, project: nat, location: Option<nat>, audit: Option<nat>, status: JobStatus, error: Option<Bytes>)

  datatype AuditStatus = AuditQueued | AuditRunning | AuditCompleted | AuditFailed

  /** One workspace's audit allowance of one month. */
  datatype Quota = Quota(org: nat, period: nat)

  /** `paidBy` is the allowance the audit was reserved from. */
  datatype Audit = Audit(
    project: nat, crawl: Option<nat>, location: Option<nat>, status: AuditStatus, paidBy: Quota)

  datatype State = State(setups: map<nat, Setup>, jobs: seq<Job>, audits: seq<Audit>, used: map<Quota, nat>)

  // ---------------------------------------------------------------- failure texts

  const MAX_SETUP_ERROR_MESSAGE_LENGTH := 500
  const VISIBILITY_AUDIT_FAILED_MESSAGE := Ascii("visibility audit failed")

  /** pgnull.Text: white space alone is stored as NULL. */
  function NullText(text: Bytes): Option<Bytes> {
    if Blank(text) then None else Some(text)
  }

  function CappedError(message: Bytes): Bytes {
    Capped(message, MAX_SETUP_ERROR_MESSAGE_LENGTH)
  }

  // ---------------------------------------------------------------- statements

  /** What UpdateProjectSetupStatus is told to write. */
  datatype Change = Change(
    status: SetupStatus, failedStep: Option<FailedStep>, skip: Option<SkipReason>, error: Option<Bytes>,
    requester: Option<nat>, crawl: Option<nat>)

  function To(status: SetupStatus): Change {
    Change(status, None, None, None, None, None)
  }

  function Coalesce<T>(given: Option<T>, otherwise: Option<T>): Option<T> {
    if given.Some? then given else otherwise
  }

  predicate StatusIs(s: State, project: nat, status: SetupStatus) {
    project in s.setups && s.setups[project].status == status
  }

  /** UpdateProjectSetupStatus: a compare-and-set on the expected status. A failed step and an
      error are only kept on a failed setup, the skip reason is always overwritten, and requester
      and crawl only when given. */
  function Moved(s: State, project: nat, expected: SetupStatus, change: Change): State {
    if StatusIs(s, project, expected) then s.(setups := s.setups[project := Changed(s.setups[project], change)])
    else s
  }

  function Changed(setup: Setup, change: Change): Setup {
    var fails := change.status == SetupFailed;
    setup.(status := change.status,
           failedStep := if fails then change.failedStep else None,
           error := if fails then change.error else None,
           skip := change.skip,
           requester := Coalesce(change.requester, setup.requester),
           crawl := Coalesce(change.crawl, setup.crawl))
  }

  function ProjectJob(jobType: JobType, project: nat): Job {
    Job(jobType, project, None, None, JobPending, None)
  }

  function Enqueued(s: State, job: Job): State {
    s.(jobs := s.jobs + [job])
  }

  function Marked(s: State, id: nat, status: JobStatus): State
    requires id < |s.jobs|
  {
    s.(jobs := s.jobs[id := s.jobs[id].(status := status)])
  }

  function MarkedFailed(s: State, id: nat, error: Option<Bytes>): State
    requires id < |s.jobs|
  {
    s.(jobs := s.jobs[id := s.jobs[id].(status := JobFailed, error := error)])
  }

  function Used(s: State, quota: Quota): nat {
    if quota in s.used then s.used[quota] else 0
  }

  /** ReserveAIWorkspaceMonthlyAudit inserts the month's row, or counts up while below the limit. */
  predicate CanReserve(s: State, quota: Quota, limit: int) {
    limit > 0 && (quota in s.used ==> s.used[quota] < limit)
  }

  function Reserved(s: State, quota: Quota): State {
    s.(used := s.used[quota := Used(s, quota) + 1])
  }

  predicate AuditActive(a: Audit) {
    a.status == AuditQueued || a.status == AuditRunning
  }

  predicate ActiveFor(a: Audit, project: nat, crawl: Option<nat>) {
    AuditActive(a) && a.location.None? && a.project == project && a.crawl.Some? && a.crawl == crawl
  }

  function FailActive(audits: seq<Audit>, project: nat, crawl: Option<nat>): (r: seq<Audit>)
    ensures |r| == |audits|
    ensures forall i :: 0 <= i < |r| ==>
      r[i] == if ActiveFor(audits[i], project, crawl) then audits[i].(status := AuditFailed) else audits[i]
  {
    if audits == [] then []
    else
      var last := audits[|audits| - 1];
      FailActive(audits[..|audits| - 1], project, crawl) +
      [if ActiveFor(last, project, crawl) then last.(status := AuditFailed) else last]
  }

  /** The unique indexes: of the queued and running audits, one for each crawl among a project's
      own, and one for each location. */
  predicate Clashes(a: Audit, b: Audit) {
    && AuditActive(a) && AuditActive(b) && a.project == b.project && a.location == b.location
    && (a.location.Some? || (a.crawl.Some? && a.crawl == b.crawl))
  }

  predicate IndexAllows(audits: seq<Audit>) {
    forall i, j :: 0 <= i < j < |audits| ==> !Clashes(audits[i], audits[j])
  }

  predicate InsertConflicts(audits: seq<Audit>, a: Audit) {
    exists i :: 0 <= i < |audits| && Clashes(audits[i], a)
  }

  // ---------------------------------------------------------------- finalizers as state functions

  function BootstrapSuccess(s: State, id: nat): State
    requires id < |s.jobs|
  {
    var project := s.jobs[id].project;
    Marked(
      if StatusIs(s, project, ProfileGeneration) then
        Enqueued(Moved(s, project, ProfileGeneration, To(KeywordAnalysis)), ProjectJob(KeywordJob, project))
      else s,
      id, JobCompleted)
  }

  function KeywordSuccess(s: State, id: nat): State
    requires id < |s.jobs|
  {
    var project := s.jobs[id].project;
    Marked(
      if StatusIs(s, project, KeywordAnalysis) then
        Enqueued(Moved(s, project, KeywordAnalysis, To(PromptGeneration)), ProjectJob(PromptJob, project))
      else s,
      id, JobCompleted)
  }

  /** Pays for, creates and enqueues one audit, replacing any active audit of the crawl. */
  function AuditLaunched(s: State, project: nat, crawl: Option<nat>, quota: Quota): State {
    var paid := Reserved(s, quota);
    paid.(audits := FailActive(s.audits, project, crawl) + [Audit(project, crawl, None, AuditQueued, quota)],
          jobs := s.jobs + [ProjectJob(VisibilityJob, project).(audit := Some(|s.audits|))])
  }

  function PromptSuccess(s: State, id: nat, period: nat, limit: int): State
    requires id < |s.jobs|
  {
    var project := s.jobs[id].project;
    Marked(
      if StatusIs(s, project, PromptGeneration) then
        var setup := s.setups[project];
        var quota := Quota(setup.org, period);
        if limit <= 0 then Moved(s, project, PromptGeneration, To(SetupCompleted).(skip := Some(VisibilityDisabled)))
        else if !CanReserve(s, quota, limit) then
          Moved(s, project, PromptGeneration, To(SetupCompleted).(skip := Some(QuotaReached)))
        else
          Moved(AuditLaunched(s, project, setup.crawl, quota), project, PromptGeneration, To(Visibility))
      else s,
      id, JobCompleted)
  }

  /** Every run of the audit failed. */
  function AuditLost(): Change {
    To(SetupFailed).(failedStep := Some(AtVisibility), error := NullText(VISIBILITY_AUDIT_FAILED_MESSAGE))
  }

  function VisibilitySuccess(s: State, id: nat, auditFailed: bool): State
    requires id < |s.jobs|
  {
    var project := s.jobs[id].project;
    Marked(
      if auditFailed then Moved(s, project, Visibility, AuditLost())
      else Moved(s, project, Visibility, To(SetupCompleted)),
      id, JobCompleted)
  }

  /** The message goes to the job and, while the setup is on the job's step, to the setup. */
  function FailedAt(s: State, id: nat, expected: SetupStatus, step: FailedStep, message: Bytes): State
    requires id < |s.jobs|
  {
    var error := NullText(CappedError(message));
    Moved(MarkedFailed(s, id, error), s.jobs[id].project, expected,
      To(SetupFailed).(failedStep := Some(step), error := error))
  }

  // ---------------------------------------------------------------- which finalizer a job gets

  /** How a claimed job ended. A success carries the audit's verdict, and the month and limit its
      transaction reads. */
  datatype Outcome = Succeeded(auditFailed: bool, period: nat, limit: int) | Errored(message: Bytes)

  datatype Scope = ProjectScope | LocationScope | UnknownScope

  /** A location job must never touch the project setup. A visibility job's scope is its
      audit's, and a missing audit makes finalization fail. */
  function ScopeOf(s: State, job: Job): Scope {
    match job.jobType
    case OtherJob => LocationScope
    case PromptJob => if job.location.Some? then LocationScope else ProjectScope
    case VisibilityJob =>
      if job.audit.None? then ProjectScope
      else if job.audit.value >= |s.audits| || s.audits[job.audit.value].project != job.project then UnknownScope
      else if s.audits[job.audit.value].location.Some? then LocationScope
      else ProjectScope
    case _ => ProjectScope
  }

  /** The whole effect of one committed finalization. */
  function Finalized(s: State, id: nat, outcome: Outcome): State
    requires id < |s.jobs|
  {
    var job := s.jobs[id];
    match ScopeOf(s, job)
    case UnknownScope => s
    case LocationScope =>
      if outcome.Succeeded? then Marked(s, id, JobCompleted)
      else MarkedFailed(s, id, Some(CappedError(outcome.message)))
    case ProjectScope =>
      match (job.jobType, outcome)
      case (BootstrapJob, Succeeded(_, _, _)) => BootstrapSuccess(s, id)
      case (KeywordJob, Succeeded(_, _, _)) => KeywordSuccess(s, id)
      case (PromptJob, Succeeded(_, period, limit)) => PromptSuccess(s, id, period, limit)
      case (VisibilityJob, Succeeded(auditFailed, _, _)) => VisibilitySuccess(s, id, auditFailed)
      case (BootstrapJob, Errored(message)) => FailedAt(s, id, ProfileGeneration, AtProfileGeneration, message)
      case (KeywordJob, Errored(message)) => FailedAt(s, id, KeywordAnalysis, AtKeywordAnalysis, message)
      case (PromptJob, Errored(message)) => FailedAt(s, id, PromptGeneration, AtPromptGeneration, message)
      case (VisibilityJob, Errored(message)) => FailedAt(s, id, Visibility, AtVisibility, message)
      case (OtherJob, _) => s
  }

  // ---------------------------------------------------------------- the database

  /** `fault(n)` says that the n-th statement of a transaction fails, for whatever reason. */
  class Database {
    var setups: map<nat, Setup>
    var jobs: seq<Job>
    var audits: seq<Audit>
    var used: map<Quota, nat>

    constructor ()
      ensures Now() == State(map[], [], [], map[])
    {
      setups, jobs, audits, used := map[], [], [], map[];
    }

    function Now(): State
      reads this
    {
      State(setups, jobs, audits, used)
    }

    method UpdateProjectSetupStatus(project: nat, expected: SetupStatus, change: Change) returns (moved: bool)
      modifies this`setups
      ensures moved <==> StatusIs(old(Now()), project, expected)
      ensures Now() == Moved(old(Now()), project, expected, change)
    {
      if project !in setups || setups[project].status != expected {
        return false;
      }
      var setup := setups[project].(status := change.status, skip := change.skip);
      if change.status != SetupFailed {
        setup := setup.(failedStep := None, error := None);
      } else {
        setup := setup.(failedStep := change.failedStep, error := change.error);
      }
      if change.requester.Some? {
        setup := setup.(requester := change.requester);
      }
      if change.crawl.Some? {
        setup := setup.(crawl := change.crawl);
      }
      setups := setups[project := setup];
      return true;
    }

    method EnqueueAIWorkerJob(job: Job)
      modifies this`jobs
      ensures Now() == Enqueued(old(Now()), job)
    {
      jobs := jobs + [job];
    }

    method MarkAIWorkerJob(id: nat, status: JobStatus)
      requires id < |jobs|
      modifies this`jobs
      ensures Now() == Marked(old(Now()), id, status)
    {
      jobs := jobs[id := jobs[id].(status := status)];
    }

    method MarkAIWorkerJobFailed(id: nat, error: Option<Bytes>)
      requires id < |jobs|
      modifies this`jobs
      ensures Now() == MarkedFailed(old(Now()), id, error)
    {
      jobs := jobs[id := jobs[id].(status := JobFailed, error := error)];
    }

    method ReserveAIWorkspaceMonthlyAudit(quota: Quota, limit: int) returns (reserved: bool)
      modifies this`used
      ensures reserved <==> CanReserve(old(Now()), quota, limit)
      ensures Now() == if reserved then Reserved(old(Now()), quota) else old(Now())
    {
      if limit <= 0 {
        return false;
      }
      if quota !in used {
        used := used[quota := 1];
        return true;
      }
      if used[quota] < limit {
        used := used[quota := used[quota] + 1];
        return true;
      }
      return false;
    }

    method FailActiveAIAuditsForCrawl(project: nat, crawl: Option<nat>)
      modifies this`audits
      ensures Now() == old(Now()).(audits := FailActive(old(audits), project, crawl))
    {
      for i := 0 to |audits|
        invariant |audits| == |old(audits)|
        invariant setups == old(setups) && jobs == old(jobs) && used == old(used)
        invariant forall k :: 0 <= k < i ==>
          audits[k] == if ActiveFor(old(audits)[k], project, crawl) then old(audits)[k].(status := AuditFailed)
            else old(audits)[k]
        invariant forall k :: i <= k < |audits| ==> audits[k] == old(audits)[k]
      {
        if ActiveFor(audits[i], project, crawl) {
          audits := audits[i := audits[i].(status := AuditFailed)];
        }
      }
      assert audits == FailActive(old(audits), project, crawl);
    }

    /** Inserts, unless a unique index refuses the row. */
    method CreateAIAudit(audit: Audit) returns (id: Option<nat>)
      modifies this`audits
      ensures id.None? <==> InsertConflicts(old(audits), audit)
      ensures id.Some? ==> id.value == |old(audits)| && Now() == old(Now()).(audits := old(audits) + [audit])
      ensures id.None? ==> Now() == old(Now())
    {
      for i := 0 to |audits|
        invariant forall k :: 0 <= k < i ==> !Clashes(audits[k], audit)
      {
        if Clashes(audits[i], audit) {
          return None;
        }
      }
      audits := audits + [audit];
      return Some(|audits| - 1);
    }

    method FinalizeBootstrapSuccess(id: nat, fault: nat -> bool) returns (ok: bool)
      requires id < |jobs|
      modifies this
      ensures ok ==> Now() == BootstrapSuccess(old(Now()), id)
      ensures (forall n :: !fault(n)) ==> ok
    {
      var project := jobs[id].project;
      if fault(0) { return false; }
      if project in setups && setups[project].status == ProfileGeneration {
        if fault(1) { return false; }
        var moved := UpdateProjectSetupStatus(project, ProfileGeneration, To(KeywordAnalysis));
        if moved {
          if fault(2) { return false; }
          EnqueueAIWorkerJob(ProjectJob(KeywordJob, project));
        }
      }
      if fault(3) { return false; }
      MarkAIWorkerJob(id, JobCompleted);
      return true;
    }

    method FinalizeKeywordAnalysisSuccess(id: nat, fault: nat -> bool) returns (ok: bool)
      requires id < |jobs|
      modifies this
      ensures ok ==> Now() == KeywordSuccess(old(Now()), id)
      ensures (forall n :: !fault(n)) ==> ok
    {
      var project := jobs[id].project;
      if fault(0) { return false; }
      if project in setups && setups[project].status == KeywordAnalysis {
        if fault(1) { return false; }
        var moved := UpdateProjectSetupStatus(project, KeywordAnalysis, To(PromptGeneration));
        if moved {
          if fault(2) { return false; }
          EnqueueAIWorkerJob(ProjectJob(PromptJob, project));
        }
      }
      if fault(3) { return false; }
      MarkAIWorkerJob(id, JobCompleted);
      return true;
    }

    /** Unless a statement fails it succeeds: the unique index never refuses the audit. */
    method FinalizePromptGenerationSuccess(id: nat, period: nat, limit: int, fault: nat -> bool) returns (ok: bool)
      requires id < |jobs|
      modifies this
      ensures ok ==> Now() == PromptSuccess(old(Now()), id, period, limit)
      ensures (forall n :: !fault(n)) ==> ok
    {
      var project := jobs[id].project;
      if fault(0) { return false; }
      if project !in setups || setups[project].status != PromptGeneration {
        if fault(1) { return false; }
        MarkAIWorkerJob(id, JobCompleted);
        return true;
      }
      var setup := setups[project];
      if fault(1) { return false; }
      if limit <= 0 {
        ok := CompleteSetupWithVisibilitySkip(id, VisibilityDisabled, fault);
        return ok;
      }
      var reserved := ReserveAIWorkspaceMonthlyAudit(Quota(setup.org, period), limit);
      if fault(2) { return false; }
      if !reserved {
        ok := CompleteSetupWithVisibilitySkip(id, QuotaReached, fault);
        return ok;
      }
      ok := LaunchVisibility(id, setup, Quota(setup.org, period), fault, old(Now()));
    }

    /** The rest of the prompt finalizer, once the audit is paid for. */
    method LaunchVisibility(id: nat, setup: Setup, quota: Quota, fault: nat -> bool, ghost unpaid: State)
      returns (ok: bool)
      requires id < |jobs| && Now() == Reserved(unpaid, quota)
      requires StatusIs(unpaid, jobs[id].project, PromptGeneration) && setup == unpaid.setups[jobs[id].project]
      modifies this
      ensures ok ==>
        var project := unpaid.jobs[id].project;
        Now() == Marked(
          Moved(AuditLaunched(unpaid, project, setup.crawl, quota), project, PromptGeneration, To(Visibility)),
          id, JobCompleted)
      ensures (forall n :: !fault(n)) ==> ok
    {
      var project := jobs[id].project;
      if fault(3) { return false; }
      FailActiveAIAuditsForCrawl(project, setup.crawl);
      if fault(4) { return false; }
      var audit := CreateAIAudit(Audit(project, setup.crawl, None, AuditQueued, quota));
      if audit.None? { return false; }
      if fault(5) { return false; }
      EnqueueAIWorkerJob(ProjectJob(VisibilityJob, project).(audit := audit));
      if fault(6) { return false; }
      var moved := UpdateProjectSetupStatus(project, PromptGeneration, To(Visibility));
      if fault(7) { return false; }
      MarkAIWorkerJob(id, JobCompleted);
      return true;
    }

    method CompleteSetupWithVisibilitySkip(id: nat, reason: SkipReason, fault: nat -> bool) returns (ok: bool)
      requires id < |jobs|
      modifies this
      ensures ok ==>
        var skipped := To(SetupCompleted).(skip := Some(reason));
        Now() == Marked(Moved(old(Now()), old(jobs[id].project), PromptGeneration, skipped), id, JobCompleted)
      ensures (forall n :: !fault(n)) ==> ok
    {
      if fault(8) { return false; }
      var moved := UpdateProjectSetupStatus(jobs[id].project,
        PromptGeneration, To(SetupCompleted).(skip := Some(reason)));
      if fault(9) { return false; }
      MarkAIWorkerJob(id, JobCompleted);
      return true;
    }

    method FinalizeVisibilitySuccess(id: nat, auditFailed: bool, fault: nat -> bool) returns (ok: bool)
      requires id < |jobs|
      modifies this
      ensures ok ==> Now() == VisibilitySuccess(old(Now()), id, auditFailed)
      ensures (forall n :: !fault(n)) ==> ok
    {
      var project := jobs[id].project;
      if fault(0) { return false; }
      if project in setups && setups[project].status == Visibility {
        if fault(1) { return false; }
        if auditFailed {
          var moved := UpdateProjectSetupStatus(project, Visibility, AuditLost());
        } else {
          var moved := UpdateProjectSetupStatus(project, Visibility, To(SetupCompleted));
        }
      }
      if fault(2) { return false; }
      MarkAIWorkerJob(id, JobCompleted);
      return true;
    }

    /** Every failure finalizer: mark the job, then fail the setup at the job's own step, both with
        the capped message. */
    method FinalizeFailure(id: nat, expected: SetupStatus, step: FailedStep, message: Bytes, fault: nat -> bool)
      returns (ok: bool)
      requires id < |jobs|
      modifies this
      ensures ok ==> Now() == FailedAt(old(Now()), id, expected, step, message)
      ensures (forall n :: !fault(n)) ==> ok
    {
      hide Blank, Capped;
      var capped := CapUtf8Bytes(message, MAX_SETUP_ERROR_MESSAGE_LENGTH);
      if fault(0) { return false; }
      MarkAIWorkerJobFailed(id, NullText(capped));
      if fault(1) { return false; }
      var change := To(SetupFailed).(failedStep := Some(step), error := NullText(capped));
      var moved := UpdateProjectSetupStatus(jobs[id].project, expected, change);
      return true;
    }

    method Dispatch(id: nat, outcome: Outcome, fault: nat -> bool) returns (ok: bool)
      requires id < |jobs|
      modifies this
      ensures ok ==> Now() == Finalized(old(Now()), id, outcome)
      ensures (forall n :: !fault(n)) && !ScopeOf(old(Now()), old(jobs[id])).UnknownScope? ==> ok
    {
      var job := jobs[id];
      var scope := ScopeOf(Now(), job);
      if scope.UnknownScope? {
        return false;
      }
      if scope.LocationScope? {
        if fault(0) { return false; }
        if outcome.Succeeded? {
          MarkAIWorkerJob(id, JobCompleted);
        } else {
          var capped := CapUtf8Bytes(outcome.message, MAX_SETUP_ERROR_MESSAGE_LENGTH);
          MarkAIWorkerJobFailed(id, Some(capped));
        }
        return true;
      }
      match (job.jobType, outcome)
      case (BootstrapJob, Succeeded(_, _, _)) => ok := FinalizeBootstrapSuccess(id, fault);
      case (KeywordJob, Succeeded(_, _, _)) => ok := FinalizeKeywordAnalysisSuccess(id, fault);
      case (PromptJob, Succeeded(_, period, limit)) => ok := FinalizePromptGenerationSuccess(id, period, limit, fault);
      case (VisibilityJob, Succeeded(auditFailed, _, _)) => ok := FinalizeVisibilitySuccess(id, auditFailed, fault);
      case (BootstrapJob, Errored(message)) =>
        ok := FinalizeFailure(id, ProfileGeneration, AtProfileGeneration, message, fault);
      case (KeywordJob, Errored(message)) =>
        ok := FinalizeFailure(id, KeywordAnalysis, AtKeywordAnalysis, message, fault);
      case (PromptJob, Errored(message)) =>
        ok := FinalizeFailure(id, PromptGeneration, AtPromptGeneration, message, fault);
      case (VisibilityJob, Errored(message)) => ok := FinalizeFailure(id, Visibility, AtVisibility, message, fault);
    }

    /** One transaction: everything, or nothing at all. */
    method WithSetupTx(id: nat, outcome: Outcome, fault: nat -> bool, commits: bool) returns (committed: bool)
      requires id < |jobs|
      modifies this
      ensures Now() == if committed then Finalized(old(Now()), id, outcome) else old(Now())
      ensures (forall n :: !fault(n)) && commits && !ScopeOf(old(Now()), old(jobs[id])).UnknownScope? ==> committed
    {
      var before := Now();
      var ok := Dispatch(id, outcome, fault);
      committed := ok && commits;
      if !committed {
        setups, jobs, audits, used := before.setups, before.jobs, before.audits, before.used;
      }
    }
  }
}
