/**
 The backup execution protocol: any number of concurrent `advance` calls on one operation, each
 acting on what it last read, child jobs that move on their own, and calls that die at any await.
 Child job keys belong to one step of one operation (BackupStoreRuns.StepNamesOneOperation), so
 one operation and the jobs carrying its keys are the whole picture; every other job can only make
 a lookup, a verification or an enqueue fail, which here the choices of an action do.
 */
module BackupProtocol {
  import opened Common
  import opened Texts
  import opened BackupPlan
  import opened BackupOperation

  // ---- child jobs (backup-child-job-dispatcher.js, job-registry.js) ----------

  datatype JobStatus = JobQueued | JobRunning | JobSucceeded | JobFailed | JobCancelled

  datatype JobResult =
    | DatabaseResult(databaseName: Text, backupId: Text, dumpSha256: nat, dumpBytes: int, createdAt: Stamp)
    | MailResult(mailDomainId: Text, scope: MailScope, identity: Text, sourceSnapshotSha256: nat,
                 backupId: Text, contentSha256: nat, bytes: int)

  /** What a step asks the queue for; the key is the step's digest behind a prefix. */
  datatype JobRequest = JobRequest(key: Digest, serverId: Text, operation: Executor, resourceId: Text, payload: Input)

  /** The queue draws a random UUID for each job. */
  type JobId = s: Text | IsUuid(s) witness "11111111-1111-1111-8111-111111111111"

  datatype ChildJob = ChildJob(id: JobId, request: JobRequest, status: JobStatus, result: Option<JobResult>,
                               createdAt: Stamp, finishedAt: Option<Stamp>)

  predicate IsChild(s: Step) { s.core.executor.DatabaseBackup? || s.core.executor.MailDataBackup? }

  function Intent(s: Step): WorkRef { WorkRef(Job, StepKey(s.stepDigest)) }

  function RequestFor(serverId: Text, s: Step): JobRequest {
    JobRequest(s.stepDigest, serverId, s.core.executor,
               if s.core.input.DatabaseInput? then s.core.input.databaseName
               else if s.core.input.MailInput? then s.core.input.mailDomainId else [],
               s.core.input)
  }

  /** Field by field: work for this server and step, on the step's own database or mail domain. */
  predicate NamesStep(r: JobRequest, serverId: Text, s: Step) {
    && r.serverId == serverId && r.key == s.stepDigest && r.operation == s.core.executor && r.payload == s.core.input
    && (s.core.executor.DatabaseBackup? ==> s.core.input.DatabaseInput? && r.resourceId == s.core.input.databaseName)
    && (s.core.executor.MailDataBackup? ==> s.core.input.MailInput? && r.resourceId == s.core.input.mailDomainId)
  }

  /** evidenceFromJob: the artifact of a succeeded job whose result names the step's own source. */
  function EvidenceOf(s: Step, j: ChildJob): Option<Evidence> {
    if !j.status.JobSucceeded? || j.result.None? || j.request.operation != s.core.executor then None
    else
      var input := s.core.input;
      match j.result.value
      case DatabaseResult(name, backupId, sha, bytes, createdAt) =>
        if !s.core.executor.DatabaseBackup? || !input.DatabaseInput? || name != input.databaseName
          || j.request.resourceId != input.databaseName || !IsSafe(bytes) || bytes < 1 || createdAt.Unparsable?
              then None
        else Some(Evidence(backupId, sha, bytes, Iso(createdAt)))
      case MailResult(domain, scope, identity, snapshot, backupId, sha, bytes) =>
        var at := if j.finishedAt.Some? then j.finishedAt.value else j.createdAt;
        if !s.core.executor.MailDataBackup? || !input.MailInput? || domain != input.mailDomainId || scope != input.scope
          || j.request.resourceId != input.mailDomainId || identity != input.mailIdentity
              || snapshot != input.snapshotSha256 || !IsSafe(bytes) || bytes < 0
              || at.Unparsable? then None
        else Some(Evidence(backupId, sha, bytes, Iso(at)))
  }

  function FindJob(jobs: seq<ChildJob>, key: Digest): (r: Option<nat>)
    ensures r.Some? ==> r.value < |jobs| && jobs[r.value].request.key == key
  {
    if jobs == [] then None
    else if jobs[0].request.key == key then Some(0)
    else
      var rest := FindJob(jobs[1..], key);
      if rest.Some? then Some(rest.value + 1) else None
  }

  predicate JobActive(j: ChildJob) { j.status.JobQueued? || j.status.JobRunning? }

  // ---- one call of advance ---------------------------------------------------

  datatype Fault = NoRemainingStep | Misaligned | ChildNotDispatchable | LocalNotDispatchable

  datatype Outcome = Returned | Refused | Broken(fault: Fault)

  /** Where a call stands: the step it decided on, at the await it has reached. */
  datatype Thread =
    | Fetching
    | Starting
    | Linking(k: nat)
    | Looking(k: nat, ref: WorkRef)
    | Verifying(k: nat, ref: WorkRef)
    | Enqueuing(k: nat, ref: WorkRef)
    | Succeeding(k: nat, ref: WorkRef, evidence: Evidence)
    | Failing(k: nat, ref: WorkRef, failure: Failure)
    | Preparing(k: nat)
    | LinkingLocal(k: nat, ref: WorkRef)
    | Executing(k: nat, ref: WorkRef)
    | SucceedingLocal(k: nat, ref: WorkRef, evidence: Evidence)
    | Done(outcome: Outcome)

  datatype World = World(op: Operation, jobs: seq<ChildJob>, threads: seq<Thread>)

  function FirstOpen(steps: seq<StepState>): (r: Option<nat>)
    ensures r.Some? ==> r.value < |steps| && !steps[r.value].status.StepSucceeded?
  {
    if steps == [] then None
    else if !steps[0].status.StepSucceeded? then Some(0)
    else
      var rest := FirstOpen(steps[1..]);
      if rest.Some? then Some(rest.value + 1) else None
  }

  /** The head of the loop: the next await for the operation as just read. */
  function Decide(o: Operation): Thread {
    if o.status.Succeeded? || o.status.Failed? then Done(Returned)
    else
      var open := FirstOpen(o.steps);
      if open.None? then Done(Broken(NoRemainingStep))
      else
        var k := open.value;
        if k >= |o.plan.steps| || o.steps[k].stepId != o.plan.steps[k].stepId then Done(Broken(Misaligned))
        else if !IsChild(o.plan.steps[k]) then
          if o.steps[k].status.Pending? then Preparing(k) else AfterLocalLink(o, k)
        else if o.steps[k].status.Pending? then Linking(k)
        else AfterLink(o, k)
  }

  function AfterLink(o: Operation, k: nat): Thread {
    if k < |o.steps| && o.steps[k].status.Dispatched? && o.steps[k].workRef.Some? && o.steps[k].workRef.value.kind.Job?
    then Looking(k, o.steps[k].workRef.value)
    else Done(Broken(ChildNotDispatchable))
  }

  function AfterLocalLink(o: Operation, k: nat): Thread {
    if k < |o.steps| && o.steps[k].status.Dispatched? && o.steps[k].workRef.Some?
        && o.steps[k].workRef.value.kind.Local?
    then Executing(k, o.steps[k].workRef.value)
    else Done(Broken(LocalNotDispatchable))
  }

  const FALLBACK := Failure("backup_child_failed", "Backup child job failed")

  /** safeStepFailure: an unusable code is replaced. */
  function SafeFailure(f: Failure): Failure { if FailureOk(f) then f else FALLBACK }

  datatype Lookup = Seen | Missed | Unavailable
  datatype Enqueue = Accepted | Rejected(recorded: bool)

  /** What the surroundings answer at an await. A lookup reads the job file and may miss a job not yet written to it. */
  datatype Choice = Choice(now: int, lookup: Lookup, sourceUnchanged: bool, enqueue: Enqueue,
                           jobId: JobId, prepared: WorkRef, produced: Option<Evidence>, failure: Failure)

  /** What follows from a job returned by the dispatcher. */
  function Judge(k: nat, ref: WorkRef, planned: Step, j: ChildJob, c: Choice): Thread {
    match j.status
    case JobQueued => Done(Returned)
    case JobRunning => Done(Returned)
    case JobSucceeded =>
      var evidence := EvidenceOf(planned, j);
      if evidence.Some? then Succeeding(k, ref, evidence.value) else Failing(k, ref, SafeFailure(c.failure))
    case JobFailed => Failing(k, ref, SafeFailure(c.failure))
    case JobCancelled => Failing(k, ref, SafeFailure(c.failure))
  }

  /** The work that stands in the way of a step: any database work for a database, the domain's own for mail. */
  predicate Competes(r: JobRequest, s: Step) {
    if s.core.executor.DatabaseBackup? then r.operation.DatabaseBackup?
    else r.operation.MailDataBackup? && s.core.input.MailInput? && r.resourceId == s.core.input.mailDomainId
  }

  /** verify's idle tests: its own listing for a database, the mail preview's for a mail domain. */
  predicate SourceBusy(jobs: seq<ChildJob>, s: Step) {
    exists i | 0 <= i < |jobs| :: JobActive(jobs[i]) && Competes(jobs[i].request, s)
  }

  function At(t: Thread): nat {
    match t
    case Fetching => 0
    case Starting => 0
    case Done(_) => 0
    case Linking(k) => k
    case Looking(k, _) => k
    case Verifying(k, _) => k
    case Enqueuing(k, _) => k
    case Succeeding(k, _, _) => k
    case Failing(k, _, _) => k
    case Preparing(k) => k
    case LinkingLocal(k, _) => k
    case Executing(k, _) => k
    case SucceedingLocal(k, _, _) => k
  }

  /** The registry call a thread is waiting on, if it is waiting on one. */
  function Called(o: Operation, t: Thread, c: Choice): Option<Result<Operation, OperationError>>
    requires At(t) < |o.plan.steps|
  {
    var planned := o.plan.steps[At(t)];
    match t
    case Starting => Some(Started(o, c.now))
    case Linking(_) => Some(Linked(o, planned.stepId, Intent(planned), c.now))
    case LinkingLocal(_, ref) =>
        Some(if WorkRefOk(ref) then Linked(o, planned.stepId, ref, c.now) else Err(StateInvalid))
    case Succeeding(_, ref, e) => Some(CompletedWith(o, planned.stepId, ref, e, c.now))
    case SucceedingLocal(_, ref, e) => Some(CompletedWith(o, planned.stepId, ref, e, c.now))
    case Failing(_, ref, f) => Some(StepFailing(o, planned.stepId, ref, f, c.now))
    case _ => None
  }

  function CompletedWith(o: Operation, id: Name, ref: WorkRef, e: Evidence, now: int): Result<Operation,
      OperationError> {
    var evidence := NormalizeEvidence(e);
    if evidence.Some? then StepCompleted(o, id, ref, evidence.value, now) else Err(StateInvalid)
  }

  /** Where a thread goes once the registry has returned the operation. */
  function Resumed(n: Operation, t: Thread): Thread {
    match t
    case Starting => Decide(n)
    case Linking(k) => AfterLink(n, k)
    case LinkingLocal(k, _) => AfterLocalLink(n, k)
    case Succeeding(_, _, _) => Decide(n)
    case _ => Done(Returned)
  }

  function NewJob(request: JobRequest, c: Choice): ChildJob {
    ChildJob(c.jobId, request, JobQueued, None, Stamp(c.now, true), None)
  }

  /** The awaits that change no operation: what the thread does next, and the jobs after it. */
  function Asked(o: Operation, jobs: seq<ChildJob>, t: Thread, c: Choice): (Thread, seq<ChildJob>)
    requires At(t) < |o.plan.steps|
  {
    var planned := o.plan.steps[At(t)];
    match t
    case Fetching => (if o.status.Queued? then Starting else Decide(o), jobs)
    case Looking(k, ref) =>
      if ref != Intent(planned) || c.lookup.Unavailable? then (Failing(At(t), ref, SafeFailure(c.failure)), jobs)
      else
        var found := FindJob(jobs, planned.stepDigest);
        if found.None? || c.lookup.Missed? then (Verifying(k, ref), jobs)
        else if jobs[found.value].request != RequestFor(o.serverId, planned)
            then (Failing(At(t), ref, SafeFailure(c.failure)), jobs)
        else (Judge(k, ref, planned, jobs[found.value], c), jobs)
    case Verifying(k, ref) =>
      if !c.sourceUnchanged || SourceBusy(jobs, planned) then (Failing(At(t), ref, SafeFailure(c.failure)), jobs)
      else (Enqueuing(k, ref), jobs)
    case Enqueuing(k, ref) =>
      var found, request := FindJob(jobs, planned.stepDigest), RequestFor(o.serverId, planned);
      if found.Some? then
        if jobs[found.value].request == request then (Judge(k, ref, planned, jobs[found.value], c), jobs)
            else (Failing(At(t), ref, SafeFailure(c.failure)), jobs)
      else
        var job := NewJob(request, c);
        if c.enqueue.Accepted? then (Judge(k, ref, planned, job, c), jobs + [job])
        else (Failing(At(t), ref, SafeFailure(c.failure)), if c.enqueue.recorded then jobs + [job] else jobs)
    case Preparing(k) =>
      (if c.prepared.kind.Local? then LinkingLocal(k, c.prepared) else Done(Refused), jobs)
    case Executing(k, ref) =>
      (if c.produced.Some? then SucceedingLocal(k, ref, c.produced.value)
       else Failing(At(t), ref, SafeFailure(c.failure)), jobs)
    case _ => (t, jobs)
  }

  /** One call takes one step, from one await to the next. */
  function Act(w: World, i: nat, c: Choice): World
    requires i < |w.threads|
  {
    var t := w.threads[i];
    if At(t) >= |w.op.plan.steps| then w
    else
      var commit := Called(w.op, t, c);
      if commit.None? then
        var (next, jobs) := Asked(w.op, w.jobs, t, c);
        w.(jobs := jobs, threads := w.threads[i := next])
      else if commit.value.Err? then w.(threads := w.threads[i := Done(Refused)])
      else w.(op := commit.value.value, threads := w.threads[i := Resumed(commit.value.value, t)])
  }

  /** `^[A-Za-z0-9._:-]{8,128}$` */
  predicate IsBackupId(s: Text) { 8 <= |s| <= 128 && forall i | 0 <= i < |s| :: IsAlnum(s[i]) || s[i] in "_.:-" }

  /** sanitizeResult: the one form in which the queue stores a succeeded backup's result. */
  predicate Sanitised(j: ChildJob) {
    j.result.Some?
    && match j.result.value
       case DatabaseResult(name, backupId, _, bytes, createdAt) =>
         && j.request.operation.DatabaseBackup? && j.request.payload.DatabaseInput?
         && backupId == j.id && name == j.request.payload.databaseName && name == j.request.resourceId
         && IsDatabaseName(name) && IsSafe(bytes) && bytes >= 1 && createdAt.Stamp? && createdAt.iso
       case MailResult(domain, scope, identity, snapshot, backupId, _, bytes) =>
         && j.request.operation.MailDataBackup? && j.request.payload.MailInput?
         && backupId == j.id && IsBackupId(backupId) && domain == j.request.payload.mailDomainId
         && scope == j.request.payload.scope && identity == j.request.payload.mailIdentity
         && snapshot == j.request.payload.snapshotSha256 && IsSafe(bytes) && bytes >= 0
  }

  predicate Dated(j: ChildJob) { j.finishedAt.Some? && j.finishedAt.value.Stamp? && j.finishedAt.value.iso }

  /** A job as the queue holds it: a succeeded one has a sanitised result. */
  predicate Stored(j: ChildJob) { j.status.JobSucceeded? ==> Sanitised(j) && Dated(j) }

  ghost predicate AllStored(jobs: seq<ChildJob>) { forall j | 0 <= j < |jobs| :: Stored(jobs[j]) }

  /** The dispatcher has evidence from the job, and the registry's normaliser takes it. */
  predicate Yields(s: Step, j: ChildJob) {
    EvidenceOf(s, j).Some? && NormalizeEvidence(EvidenceOf(s, j).value).Some?
  }

  /**
   Producer and consumers agree: what the queue's sanitiser stores for a step's own job, the dispatcher
   reads as evidence and the registry's normaliser accepts.
   */
  lemma StoredYields(s: Step, serverId: Text, j: ChildJob)
    requires j.request == RequestFor(serverId, s) && j.status.JobSucceeded? && Stored(j)
    ensures Yields(s, j)
  {
    assert forall i | 0 <= i < 36 :: UuidChar(i, j.id[i]);
    assert IsResourceId(j.id);
  }

  /**
   The agent and the operator move jobs: a queued job is claimed or cancelled, a running one completed.
   A succeeded completion is refused unless its result passes the queue's sanitiser.
   */
  predicate JobMoves(j: ChildJob, n: ChildJob) {
    && n.id == j.id && n.request == j.request && n.createdAt == j.createdAt
    && match j.status
       case JobQueued => (n.status.JobRunning? || n.status.JobCancelled?) && n.result == j.result
       case JobRunning => (n.status.JobSucceeded? && Stored(n)) || (n.status.JobFailed? && n.result.None?)
       case _ => false
  }

  datatype Action = Spawn | Resume(i: nat, choice: Choice) | Die(i: nat) | MoveJob(j: nat, next: ChildJob)

  function Perform(w: World, a: Action): World {
    match a
    case Spawn => w.(threads := w.threads + [Fetching])
    case Resume(i, c) => if i < |w.threads| then Act(w, i, c) else w
    case Die(i) => if i < |w.threads| then w.(threads := w.threads[i := Done(Refused)]) else w
    case MoveJob(j, next) => if j < |w.jobs| && JobMoves(w.jobs[j], next) then w.(jobs := w.jobs[j := next]) else w
  }

  function Play(w: World, actions: seq<Action>): World
    decreases |actions|
  {
    if actions == [] then w else Play(Perform(w, actions[0]), actions[1..])
  }
}
