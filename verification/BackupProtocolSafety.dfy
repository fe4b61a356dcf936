/** What every interleaving of the backup protocol keeps, and what follows for a finished backup. */
module BackupProtocolSafety {
  import opened Common
  import opened Texts
  import opened BackupPlan
  import opened BackupPlanTheorems
  import opened BackupOperation
  import opened BackupProtocol

  // ---- what the registry's answers mean for one step -------------------------

  /** The parts of a settled operation the protocol relies on. */
  ghost predicate Coherent(o: Operation) {
    && |o.steps| == |o.plan.steps| && Lifecycle(o)
    && forall i | 0 <= i < |o.steps| :: o.steps[i].stepId == o.plan.steps[i].stepId && Consistent(o.steps[i])
  }

  ghost predicate Apart(plan: Plan) {
    && (forall i, j | 0 <= i < j < |plan.steps| :: plan.steps[i].stepDigest != plan.steps[j].stepDigest)
    && (forall i, j | 0 <= i < j < |plan.steps| :: plan.steps[i].stepId != plan.steps[j].stepId)
  }

  /** Step states stand in plan order under distinct ids. */
  ghost predicate Aligned(o: Operation) {
    && |o.steps| == |o.plan.steps| && Apart(o.plan)
    && forall i | 0 <= i < |o.steps| :: o.steps[i].stepId == o.plan.steps[i].stepId
  }

  lemma SettledCoherent(o: Operation)
    requires Settled(o)
    ensures Coherent(o)
  {
    SettledStates(o);
    SettledIds(o);
  }

  lemma {:induction false} FindsStep(steps: seq<StepState>, k: nat)
    requires k < |steps| && forall i, j | 0 <= i < j < |steps| :: steps[i].stepId != steps[j].stepId
    ensures FindStep(steps, steps[k].stepId) == Some(k)
  {
    if k > 0 { FindsStep(steps[1..], k - 1); }
  }

  lemma {:induction false} FirstOpenIsFirst(steps: seq<StepState>)
    ensures FirstOpen(steps).Some? ==> forall i | 0 <= i < FirstOpen(steps).value :: steps[i].status.StepSucceeded?
    ensures FirstOpen(steps).None? <==> AllSucceeded(steps)
  {
    if steps != [] {
      FirstOpenIsFirst(steps[1..]);
      assert steps == [steps[0]] + steps[1..];
      if steps[0].status.StepSucceeded? {
        assert AllSucceeded(steps) <==> AllSucceeded(steps[1..]);
      }
    }
  }

  lemma {:induction false} NoJobOfKey(jobs: seq<ChildJob>, key: Digest)
    requires FindJob(jobs, key).None?
    ensures forall i | 0 <= i < |jobs| :: jobs[i].request.key != key
  {
    if jobs != [] {
      NoJobOfKey(jobs[1..], key);
      assert jobs == [jobs[0]] + jobs[1..];
    }
  }

  ghost predicate LinkMove(o: Operation, n: Operation, k: nat, ref: WorkRef, now: int)
    requires k < |o.steps|
  {
    || (n == o && o.steps[k].status.Dispatched? && o.steps[k].workRef == Some(ref))
    || (o.status.Running? && o.steps[k].status.Pending? && n == WithLink(o, k, ref, now))
  }

  lemma LinkMoves(o: Operation, k: nat, ref: WorkRef, now: int)
    requires Aligned(o) && k < |o.steps|
    ensures var r := Linked(o, o.plan.steps[k].stepId, ref, now);
      && (r.Ok? ==> LinkMove(o, r.value, k, ref, now))
      && (o.status.Running? && o.steps[k].status.Pending? ==> r == Ok(WithLink(o, k, ref, now)))
  {
    FindsStep(o.steps, k);
  }

  ghost predicate SuccessMove(o: Operation, n: Operation, k: nat, ref: WorkRef, e: Evidence, now: int)
    requires k < |o.steps|
  {
    || (n == o && o.steps[k].status.StepSucceeded?)
    || (o.status.Running? && o.steps[k].status.Dispatched? && n == WithSuccess(o, k, e, now))
  }

  lemma SuccessMoves(o: Operation, k: nat, ref: WorkRef, e: Evidence, now: int)
    requires Aligned(o) && k < |o.steps|
    ensures var r := StepCompleted(o, o.plan.steps[k].stepId, ref, e, now);
      && (r.Ok? ==> SuccessMove(o, r.value, k, ref, e, now))
      && (o.status.Running? && o.steps[k].status.Dispatched? && o.steps[k].workRef == Some(ref) ==>
          r == Ok(WithSuccess(o, k, e, now)))
  {
    FindsStep(o.steps, k);
  }

  ghost predicate FailureMove(o: Operation, n: Operation, k: nat, f: Failure, now: int)
    requires k < |o.steps|
  {
    || (n == o && o.steps[k].status.StepFailed?)
    || (o.status.Running? && o.steps[k].status.Dispatched? && n == WithFailure(o, k, f, now))
  }

  lemma FailureMoves(o: Operation, k: nat, ref: WorkRef, f: Failure, now: int)
    requires Aligned(o) && k < |o.steps|
    ensures var r := StepFailing(o, o.plan.steps[k].stepId, ref, f, now);
      && (r.Ok? ==> FailureMove(o, r.value, k, f, now))
      && (o.status.Running? && o.steps[k].status.Dispatched? && o.steps[k].workRef == Some(ref) ==>
          r == Ok(WithFailure(o, k, f, now)))
  {
    FindsStep(o.steps, k);
  }

  ghost predicate StartMove(o: Operation, n: Operation, now: int) {
    || (n == o && o.status.Running?)
    || (o.status.Queued? && n == o.(status := Running, startedAt := Some(Stamp(now, true))))
  }

  lemma StartMoves(o: Operation, now: int)
    ensures Started(o, now).Ok? ==> StartMove(o, Started(o, now).value, now)
    ensures o.status.Queued? ==> Started(o, now) == Ok(o.(status := Running, startedAt := Some(Stamp(now, true))))
  {
  }

  // ---- the invariant ---------------------------------------------------------

  /** succeeded* (dispatched | failed)? pending* */
  ghost predicate Shape(steps: seq<StepState>) {
    forall i, j | 0 <= i < j < |steps| :: steps[i].status.StepSucceeded? || steps[j].status.Pending?
  }

  /** A linked child step carries its own intent, a linked local step a local reference. */
  ghost predicate Referenced(o: Operation) {
    forall k | 0 <= k < |o.steps| && k < |o.plan.steps| && !o.steps[k].status.Pending? ::
      if IsChild(o.plan.steps[k]) then o.steps[k].workRef == Some(Intent(o.plan.steps[k]))
      else o.steps[k].workRef.Some? && o.steps[k].workRef.value.kind.Local?
  }

  /** Every job serves a child step that is no longer pending, and no two jobs serve the same one. */
  ghost predicate Serving(o: Operation, jobs: seq<ChildJob>) {
    && (forall i, j | 0 <= i < j < |jobs| :: jobs[i].request.key != jobs[j].request.key)
    && (forall j | 0 <= j < |jobs| :: Served(o, jobs[j]))
  }

  ghost predicate Served(o: Operation, j: ChildJob) { exists k: nat :: ServesStep(o, j, k) }

  predicate ServesStep(o: Operation, j: ChildJob, k: nat) {
    && k < |o.plan.steps| && k < |o.steps| && IsChild(o.plan.steps[k])
    && j.request == RequestFor(o.serverId, o.plan.steps[k]) && !o.steps[k].status.Pending?
  }

  /** A succeeded job whose result names the step's source backs the evidence. */
  ghost predicate Backed(jobs: seq<ChildJob>, planned: Step, e: Evidence) {
    exists j :: 0 <= j < |jobs| && jobs[j].request.key == planned.stepDigest && EvidenceOf(planned, jobs[j]) == Some(e)
  }

  ghost predicate Evidenced(o: Operation, jobs: seq<ChildJob>) {
    forall k | 0 <= k < |o.steps| && k < |o.plan.steps| && o.steps[k].status.StepSucceeded?
        && IsChild(o.plan.steps[k]) ::
      o.steps[k].evidence.Some? && Backed(jobs, o.plan.steps[k], o.steps[k].evidence.value)
  }

  ghost predicate Reached(o: Operation, k: nat) {
    k < |o.steps| && k < |o.plan.steps| && forall j | 0 <= j < k :: o.steps[j].status.StepSucceeded?
  }

  /** A thread past linking works on a step that is linked, with the step's own reference. */
  ghost predicate Holds(o: Operation, k: nat, ref: WorkRef) {
    && k < |o.steps| && k < |o.plan.steps| && !o.steps[k].status.Pending?
    && (if IsChild(o.plan.steps[k]) then ref == Intent(o.plan.steps[k]) else ref.kind.Local?)
  }

  ghost predicate ThreadOk(o: Operation, jobs: seq<ChildJob>, t: Thread) {
    match t
    case Fetching => true
    case Starting => true
    case Done(outcome) => !outcome.Broken?
    case Linking(k) => Reached(o, k) && IsChild(o.plan.steps[k])
    case Looking(k, ref) => Holds(o, k, ref) && IsChild(o.plan.steps[k])
    case Verifying(k, ref) => Holds(o, k, ref) && IsChild(o.plan.steps[k])
    case Enqueuing(k, ref) => Holds(o, k, ref) && IsChild(o.plan.steps[k])
    case Succeeding(k, ref, e) => Holds(o, k, ref) && IsChild(o.plan.steps[k]) && Backed(jobs, o.plan.steps[k], e)
    case Failing(k, ref, f) => Holds(o, k, ref) && FailureOk(f)
    case Preparing(k) => Reached(o, k) && !IsChild(o.plan.steps[k])
    case LinkingLocal(k, ref) => Reached(o, k) && !IsChild(o.plan.steps[k]) && ref.kind.Local?
    case Executing(k, ref) => Holds(o, k, ref) && !IsChild(o.plan.steps[k])
    case SucceedingLocal(k, ref, _) => Holds(o, k, ref) && !IsChild(o.plan.steps[k])
  }

  ghost predicate Sound(o: Operation, jobs: seq<ChildJob>) {
    && Coherent(o) && Apart(o.plan) && |o.steps| >= 1 && Shape(o.steps) && Referenced(o) && Serving(o, jobs)
        && Evidenced(o, jobs)
  }

  ghost predicate Inv(w: World) {
    Sound(w.op, w.jobs) && forall i | 0 <= i < |w.threads| :: ThreadOk(w.op, w.jobs, w.threads[i])
  }

  // ---- what stays true while others move -------------------------------------

  ghost predicate OpGrows(o: Operation, n: Operation) {
    && n.plan == o.plan && n.serverId == o.serverId && |n.steps| == |o.steps|
    && forall k | 0 <= k < |o.steps| ::
         (o.steps[k].status.StepSucceeded? ==> n.steps[k].status.StepSucceeded?)
         && (!o.steps[k].status.Pending? ==> !n.steps[k].status.Pending?)
  }

  ghost predicate JobsGrow(jobs: seq<ChildJob>, more: seq<ChildJob>) {
    && |jobs| <= |more|
    && forall j | 0 <= j < |jobs| ::
        more[j].request == jobs[j].request && (jobs[j].status.JobSucceeded? ==> more[j] == jobs[j])
  }

  lemma BackedStays(jobs: seq<ChildJob>, more: seq<ChildJob>, planned: Step, e: Evidence)
    requires Backed(jobs, planned, e) && JobsGrow(jobs, more)
    ensures Backed(more, planned, e)
  {
    var j :| 0 <= j < |jobs| && jobs[j].request.key == planned.stepDigest && EvidenceOf(planned, jobs[j]) == Some(e);
    assert more[j] == jobs[j];
  }

  lemma ThreadStays(o: Operation, n: Operation, jobs: seq<ChildJob>, more: seq<ChildJob>, t: Thread)
    requires ThreadOk(o, jobs, t) && OpGrows(o, n) && JobsGrow(jobs, more)
    ensures ThreadOk(n, more, t)
  {
    if t.Succeeding? { BackedStays(jobs, more, o.plan.steps[t.k], t.evidence); }
  }

  lemma WorldStays(w: World, n: World, i: nat)
    requires Inv(w) && Sound(n.op, n.jobs) && OpGrows(w.op, n.op) && JobsGrow(w.jobs, n.jobs)
    requires i < |w.threads| && |n.threads| == |w.threads| && ThreadOk(n.op, n.jobs, n.threads[i])
    requires forall j | 0 <= j < |w.threads| && j != i :: n.threads[j] == w.threads[j]
    ensures Inv(n)
  {
    forall j | 0 <= j < |n.threads| ensures ThreadOk(n.op, n.jobs, n.threads[j]) {
      if j != i { ThreadStays(w.op, n.op, w.jobs, n.jobs, w.threads[j]); }
    }
  }

  // ---- the operation's own moves ---------------------------------------------

  lemma ServingStays(o: Operation, n: Operation, jobs: seq<ChildJob>)
    requires Serving(o, jobs) && OpGrows(o, n)
    ensures Serving(n, jobs)
  {
    forall j | 0 <= j < |jobs| ensures Served(n, jobs[j]) {
      assert Served(o, jobs[j]);
      var k: nat :| ServesStep(o, jobs[j], k);
      assert ServesStep(n, jobs[j], k);
    }
  }

  lemma LinkSound(o: Operation, jobs: seq<ChildJob>, k: nat, ref: WorkRef, now: int)
    requires Sound(o, jobs) && Reached(o, k) && o.status.Running? && o.steps[k].status.Pending?
    requires if IsChild(o.plan.steps[k]) then ref == Intent(o.plan.steps[k]) else ref.kind.Local?
    ensures Sound(WithLink(o, k, ref, now), jobs) && OpGrows(o, WithLink(o, k, ref, now))
  {
    var n := WithLink(o, k, ref, now);
    assert n.steps[k].status.Dispatched?;
    ServingStays(o, n, jobs);
  }

  lemma SuccessSound(o: Operation, jobs: seq<ChildJob>, k: nat, e: Evidence, now: int)
    requires Sound(o, jobs) && k < |o.steps| && o.status.Running? && o.steps[k].status.Dispatched?
    requires IsChild(o.plan.steps[k]) ==> Backed(jobs, o.plan.steps[k], e)
    ensures Sound(WithSuccess(o, k, e, now), jobs) && OpGrows(o, WithSuccess(o, k, e, now))
  {
    var n := WithSuccess(o, k, e, now);
    assert forall m | 0 <= m < |o.steps| && m != k :: n.steps[m] == o.steps[m];
    assert !SomeFailed(n.steps);
    ServingStays(o, n, jobs);
  }

  lemma FailureSound(o: Operation, jobs: seq<ChildJob>, k: nat, f: Failure, now: int)
    requires Sound(o, jobs) && k < |o.steps| && o.status.Running? && o.steps[k].status.Dispatched?
    ensures Sound(WithFailure(o, k, f, now), jobs) && OpGrows(o, WithFailure(o, k, f, now))
  {
    var n := WithFailure(o, k, f, now);
    assert n.steps[k].status.StepFailed?;
    ServingStays(o, n, jobs);
  }

  lemma StartSound(o: Operation, n: Operation, jobs: seq<ChildJob>, now: int)
    requires Sound(o, jobs) && StartMove(o, n, now)
    ensures Sound(n, jobs) && OpGrows(o, n)
  {
    if n != o {
      assert o.steps[0].status.Pending?;
      ServingStays(o, n, jobs);
    }
  }

  /** The errors for a running operation without an open step or with an undispatchable one cannot be reached. */
  lemma DecideOk(o: Operation, jobs: seq<ChildJob>)
    requires Sound(o, jobs) && !o.status.Queued?
    ensures ThreadOk(o, jobs, Decide(o))
  {
    if o.status.Running? {
      FirstOpenIsFirst(o.steps);
      var k := FirstOpen(o.steps).value;
      assert !o.steps[k].status.StepFailed?;
      assert Consistent(o.steps[k]);
    }
  }

  // ---- one action ------------------------------------------------------------

  lemma SafeFailureOk(f: Failure)
    ensures FailureOk(SafeFailure(f))
  {
    assert FailureOk(FALLBACK);
  }

  lemma JudgeOk(o: Operation, jobs: seq<ChildJob>, k: nat, ref: WorkRef, j: nat, c: Choice)
    requires Holds(o, k, ref) && IsChild(o.plan.steps[k])
    requires j < |jobs| && jobs[j].request.key == o.plan.steps[k].stepDigest
    ensures ThreadOk(o, jobs, Judge(k, ref, o.plan.steps[k], jobs[j], c))
  {
    SafeFailureOk(c.failure);
  }

  lemma JobAdded(o: Operation, jobs: seq<ChildJob>, k: nat, ref: WorkRef, c: Choice)
    requires Sound(o, jobs) && Holds(o, k, ref) && IsChild(o.plan.steps[k])
    requires FindJob(jobs, o.plan.steps[k].stepDigest).None?
    ensures var more := jobs + [NewJob(RequestFor(o.serverId, o.plan.steps[k]), c)];
        Sound(o, more) && JobsGrow(jobs, more)
  {
    var job := NewJob(RequestFor(o.serverId, o.plan.steps[k]), c);
    var more := jobs + [job];
    NoJobOfKey(jobs, o.plan.steps[k].stepDigest);
    assert ServesStep(o, job, k);
    forall j | 0 <= j < |more| ensures Served(o, more[j]) {
      if j < |jobs| { assert Served(o, jobs[j]); }
    }
    forall m | 0 <= m < |o.steps| && o.steps[m].status.StepSucceeded? && IsChild(o.plan.steps[m])
      ensures Backed(more, o.plan.steps[m], o.steps[m].evidence.value)
    {
      BackedStays(jobs, more, o.plan.steps[m], o.steps[m].evidence.value);
    }
  }

  lemma NewJobJudged(o: Operation, jobs: seq<ChildJob>, k: nat, ref: WorkRef, c: Choice)
    requires Holds(o, k, ref) && IsChild(o.plan.steps[k])
    ensures ThreadOk(o, jobs, Judge(k, ref, o.plan.steps[k], NewJob(RequestFor(o.serverId, o.plan.steps[k]), c), c))
  {
  }

  /** The queue knows the job: it is judged, and nothing is added. */
  lemma KnownJobOk(o: Operation, jobs: seq<ChildJob>, k: nat, ref: WorkRef, c: Choice)
    requires Holds(o, k, ref) && IsChild(o.plan.steps[k]) && FindJob(jobs, o.plan.steps[k].stepDigest).Some?
    ensures var (next, more) := Asked(o, jobs, Enqueuing(k, ref), c); more == jobs && ThreadOk(o, jobs, next)
  {
    SafeFailureOk(c.failure);
    JudgeOk(o, jobs, k, ref, FindJob(jobs, o.plan.steps[k].stepDigest).value, c);
  }

  lemma UnknownJobOk(o: Operation, jobs: seq<ChildJob>, k: nat, ref: WorkRef, c: Choice)
    requires Sound(o, jobs) && Holds(o, k, ref) && IsChild(o.plan.steps[k])
    requires FindJob(jobs, o.plan.steps[k].stepDigest).None?
    ensures var (next, more) := Asked(o, jobs, Enqueuing(k, ref), c);
        Sound(o, more) && JobsGrow(jobs, more) && ThreadOk(o, more, next)
  {
    SafeFailureOk(c.failure);
    JobAdded(o, jobs, k, ref, c);
    NewJobJudged(o, jobs + [NewJob(RequestFor(o.serverId, o.plan.steps[k]), c)], k, ref, c);
  }

  lemma EnqueuedOk(o: Operation, jobs: seq<ChildJob>, k: nat, ref: WorkRef, c: Choice)
    requires Sound(o, jobs) && Holds(o, k, ref) && IsChild(o.plan.steps[k])
    ensures var (next, more) := Asked(o, jobs, Enqueuing(k, ref), c);
        Sound(o, more) && JobsGrow(jobs, more) && ThreadOk(o, more, next)
  {
    if FindJob(jobs, o.plan.steps[k].stepDigest).Some? {
      KnownJobOk(o, jobs, k, ref, c);
    } else {
      UnknownJobOk(o, jobs, k, ref, c);
    }
  }

  lemma LookedUpOk(o: Operation, jobs: seq<ChildJob>, k: nat, ref: WorkRef, c: Choice)
    requires Sound(o, jobs) && Holds(o, k, ref) && IsChild(o.plan.steps[k])
    ensures var (next, more) := Asked(o, jobs, Looking(k, ref), c); more == jobs && ThreadOk(o, jobs, next)
  {
    SafeFailureOk(c.failure);
    var found := FindJob(jobs, o.plan.steps[k].stepDigest);
    if found.Some? { JudgeOk(o, jobs, k, ref, found.value, c); }
  }

  /** An await that leaves the operation alone leaves the thread and the jobs in order. */
  lemma AskedOk(o: Operation, jobs: seq<ChildJob>, t: Thread, c: Choice)
    requires Sound(o, jobs) && ThreadOk(o, jobs, t) && At(t) < |o.plan.steps|
    ensures var (next, more) := Asked(o, jobs, t, c); Sound(o, more) && JobsGrow(jobs, more) && ThreadOk(o, more, next)
  {
    SafeFailureOk(c.failure);
    match t
    case Fetching => if !o.status.Queued? { DecideOk(o, jobs); }
    case Looking(k, ref) => LookedUpOk(o, jobs, k, ref, c);
    case Enqueuing(k, ref) => EnqueuedOk(o, jobs, k, ref, c);
    case _ =>
  }

  lemma EvidenceAccepted(e: Evidence)
    requires NormalizeEvidence(e).Some?
    ensures NormalizeEvidence(NormalizeEvidence(e).value) == NormalizeEvidence(e)
    ensures e.createdAt == Iso(e.createdAt) ==> NormalizeEvidence(e) == Some(e)
  {
  }

  lemma BackedIsIso(jobs: seq<ChildJob>, planned: Step, e: Evidence)
    requires Backed(jobs, planned, e)
    ensures e.createdAt == Iso(e.createdAt)
  {
  }

  /** A registry call that is answered leaves the operation and the thread in order. */
  lemma CalledOk(o: Operation, jobs: seq<ChildJob>, t: Thread, c: Choice)
    requires Sound(o, jobs) && ThreadOk(o, jobs, t) && At(t) < |o.plan.steps|
    requires Called(o, t, c).Some? && Called(o, t, c).value.Ok?
    ensures var n := Called(o, t, c).value.value; Sound(n, jobs) && OpGrows(o, n) && ThreadOk(n, jobs, Resumed(n, t))
  {
    var n := Called(o, t, c).value.value;
    match t
    case Starting => StartMoves(o, c.now); StartSound(o, n, jobs, c.now); DecideOk(n, jobs);
    case Linking(k) => LinkedOk(o, n, jobs, k, Intent(o.plan.steps[k]), c.now);
    case LinkingLocal(k, ref) => LinkedOk(o, n, jobs, k, ref, c.now);
    case Succeeding(k, ref, e) =>
      EvidenceAccepted(e);
      BackedIsIso(jobs, o.plan.steps[k], e);
      SuccessMoves(o, k, ref, e, c.now);
      if n != o { SuccessSound(o, jobs, k, e, c.now); }
      DecideOk(n, jobs);
    case SucceedingLocal(k, ref, e) =>
      EvidenceAccepted(e);
      SuccessMoves(o, k, ref, NormalizeEvidence(e).value, c.now);
      if n != o { SuccessSound(o, jobs, k, NormalizeEvidence(e).value, c.now); }
    case Failing(k, ref, f) =>
      FailureMoves(o, k, ref, f, c.now);
      if n != o { FailureSound(o, jobs, k, f, c.now); }
  }

  lemma LinkedOk(o: Operation, n: Operation, jobs: seq<ChildJob>, k: nat, ref: WorkRef, now: int)
    requires Sound(o, jobs) && Reached(o, k)
    requires if IsChild(o.plan.steps[k]) then ref == Intent(o.plan.steps[k]) else ref.kind.Local?
    requires Linked(o, o.plan.steps[k].stepId, ref, now) == Ok(n)
    ensures Sound(n, jobs) && OpGrows(o, n)
    ensures ThreadOk(n, jobs, if IsChild(o.plan.steps[k]) then AfterLink(n, k) else AfterLocalLink(n, k))
  {
    LinkMoves(o, k, ref, now);
    if n != o { LinkSound(o, jobs, k, ref, now); }
  }

  /** What the registry's input checks refuse: evidence or a local reference that does not fit its pattern. */
  predicate Unusable(t: Thread) {
    match t
    case Succeeding(_, _, e) => NormalizeEvidence(e).None?
    case SucceedingLocal(_, _, e) => NormalizeEvidence(e).None?
    case LinkingLocal(_, ref) => !WorkRefOk(ref)
    case _ => false
  }

  /**
   A registry call ends in an invalid state exactly for unusable evidence or an unusable reference;
   otherwise its outcome settles.
   */
  lemma CalledSettled(o: Operation, t: Thread, c: Choice)
    requires Settled(o) && At(t) < |o.plan.steps| && (t.Failing? ==> FailureOk(t.failure)) && Called(o, t, c).Some?
    ensures Called(o, t, c).value == Err(StateInvalid) <==> Unusable(t)
    ensures !Unusable(t) ==> Settles(o, Called(o, t, c).value)
  {
    var id := o.plan.steps[At(t)].stepId;
    match t
    case Starting => StartedSettles(o, c.now);
    case Linking(k) => LinkedSettles(o, id, Intent(o.plan.steps[k]), c.now);
    case LinkingLocal(_, ref) => if !Unusable(t) { LinkedSettles(o, id, ref, c.now); }
    case Succeeding(_, ref, e) => EvidenceSettles(o, id, ref, e, c.now);
    case SucceedingLocal(_, ref, e) => EvidenceSettles(o, id, ref, e, c.now);
    case Failing(_, ref, f) => FailingSettles(o, id, ref, f, c.now);
  }

  lemma EvidenceSettles(o: Operation, id: Name, ref: WorkRef, e: Evidence, now: int)
    requires Settled(o)
    ensures CompletedWith(o, id, ref, e, now) == Err(StateInvalid) <==> NormalizeEvidence(e).None?
    ensures NormalizeEvidence(e).Some? ==> Settles(o, CompletedWith(o, id, ref, e, now))
  {
    if NormalizeEvidence(e).Some? {
      EvidenceAccepted(e);
      CompletedSettles(o, id, ref, NormalizeEvidence(e).value, now);
    }
  }

  ghost predicate Safe(w: World) { Settled(w.op) && Inv(w) && AllStored(w.jobs) }

  /** New jobs have no result yet, and completions pass the sanitiser. */
  lemma AskedStored(o: Operation, jobs: seq<ChildJob>, t: Thread, c: Choice)
    requires AllStored(jobs) && At(t) < |o.plan.steps|
    ensures AllStored(Asked(o, jobs, t, c).1)
  {
  }

  lemma ActStored(w: World, i: nat, c: Choice)
    requires AllStored(w.jobs) && i < |w.threads|
    ensures AllStored(Act(w, i, c).jobs)
  {
    if At(w.threads[i]) < |w.op.plan.steps| { AskedStored(w.op, w.jobs, w.threads[i], c); }
  }

  lemma MoveStored(jobs: seq<ChildJob>, j: nat, next: ChildJob)
    requires AllStored(jobs) && j < |jobs| && JobMoves(jobs[j], next)
    ensures AllStored(jobs[j := next])
  {
  }

  lemma AskedStepKeeps(w: World, i: nat, c: Choice)
    requires Inv(w) && i < |w.threads| && At(w.threads[i]) < |w.op.plan.steps| && Called(w.op, w.threads[i], c).None?
    ensures Inv(Act(w, i, c)) && Act(w, i, c).op == w.op
  {
    AskedOk(w.op, w.jobs, w.threads[i], c);
    WorldStays(w, Act(w, i, c), i);
  }

  lemma CalledStepKeeps(w: World, i: nat, c: Choice, n: Operation)
    requires Inv(w) && i < |w.threads| && At(w.threads[i]) < |w.op.plan.steps|
    requires Called(w.op, w.threads[i], c) == Some(Ok(n))
    requires Sound(n, w.jobs) && OpGrows(w.op, n) && ThreadOk(n, w.jobs, Resumed(n, w.threads[i]))
    ensures Inv(Act(w, i, c))
  {
    WorldStays(w, Act(w, i, c), i);
  }

  lemma StepKeeps(w: World, i: nat, c: Choice)
    requires Safe(w) && i < |w.threads|
    ensures Safe(Act(w, i, c))
  {
    var t := w.threads[i];
    ActStored(w, i, c);
    if At(t) < |w.op.plan.steps| {
      var call := Called(w.op, t, c);
      if call.None? {
        AskedStepKeeps(w, i, c);
      } else if call.value.Ok? {
        CalledOk(w.op, w.jobs, t, c);
        CalledSettled(w.op, t, c);
        CalledStepKeeps(w, i, c, call.value.value);
      } else {
        WorldStays(w, w.(threads := w.threads[i := Done(Refused)]), i);
      }
    }
  }

  lemma MoveJobKeeps(w: World, j: nat, next: ChildJob)
    requires Inv(w) && j < |w.jobs| && JobMoves(w.jobs[j], next)
    ensures Inv(w.(jobs := w.jobs[j := next]))
  {
    var more := w.jobs[j := next];
    forall i | 0 <= i < |more| ensures Served(w.op, more[i]) {
      assert Served(w.op, w.jobs[i]);
      var k: nat :| ServesStep(w.op, w.jobs[i], k);
      assert ServesStep(w.op, more[i], k);
    }
    forall m | 0 <= m < |w.op.steps| && w.op.steps[m].status.StepSucceeded? && IsChild(w.op.plan.steps[m])
      ensures Backed(more, w.op.plan.steps[m], w.op.steps[m].evidence.value)
    {
      BackedStays(w.jobs, more, w.op.plan.steps[m], w.op.steps[m].evidence.value);
    }
    forall i | 0 <= i < |w.threads| ensures ThreadOk(w.op, more, w.threads[i]) {
      ThreadStays(w.op, w.op, w.jobs, more, w.threads[i]);
    }
  }

  lemma PerformKeeps(w: World, a: Action)
    requires Safe(w)
    ensures Safe(Perform(w, a))
  {
    match a
    case Spawn =>
    case Resume(i, c) => if i < |w.threads| { StepKeeps(w, i, c); }
    case Die(i) => if i < |w.threads| { WorldStays(w, w.(threads := w.threads[i := Done(Refused)]), i); }
    case MoveJob(j, next) =>
      if j < |w.jobs| && JobMoves(w.jobs[j], next) {
        MoveJobKeeps(w, j, next);
        MoveStored(w.jobs, j, next);
      }
  }

  lemma {:induction false} PlayKeeps(w: World, actions: seq<Action>)
    requires Safe(w)
    ensures Safe(Play(w, actions))
    decreases |actions|
  {
    if actions != [] {
      PerformKeeps(w, actions[0]);
      PlayKeeps(Perform(w, actions[0]), actions[1..]);
    }
  }

  lemma NewOperationSafe(o: Operation)
    requires Settled(o) && o.status.Queued?
    ensures Safe(World(o, [], []))
  {
    SettledStates(o);
    SettledCoherent(o);
    PlanApart(o.plan);
  }

  lemma PlanApart(plan: Plan)
    requires NormalizePlan(plan) == Some(plan)
    ensures Apart(plan)
  {
    StepsNamed(plan.steps, plan.serverId, plan.previewDigest);
  }

  lemma {:induction false} StepsNamed(steps: seq<Step>, serverId: Text, preview: Digest)
    requires NormalizeSteps(steps, serverId, preview) == Some(steps)
    ensures forall i | 0 <= i < |steps| :: steps[i].stepId == StepName(steps[i].stepDigest)
  {
    if steps != [] {
      var tail := NormalizeSteps(steps[1..], serverId, preview).value;
      assert steps[1..] == tail;
      StepsNamed(steps[1..], serverId, preview);
      forall i | 0 <= i < |steps| ensures steps[i].stepId == StepName(steps[i].stepDigest) {
        if i > 0 { assert steps[i] == steps[1..][i - 1]; }
      }
    }
  }

  // ---- theorems over every interleaving --------------------------------------

  /** Steps read as succeeded, then at most one dispatched or failed, then pending. */
  predicate PrefixForm(steps: seq<StepState>, cut: nat) {
    && cut <= |steps|
    && (forall i | 0 <= i < cut :: steps[i].status.StepSucceeded?)
    && (forall i | cut < i < |steps| :: steps[i].status.Pending?)
    && (cut < |steps| ==> !steps[cut].status.StepSucceeded?)
  }

  /**
   Whatever a new operation's calls, crashes and jobs do and in whatever order, its steps read
   succeeded, then at most one in progress or failed, then pending.
   */
  lemma StepsStayInOrder(o: Operation, actions: seq<Action>)
    requires Settled(o) && o.status.Queued?
    ensures exists cut: nat :: PrefixForm(Play(World(o, [], []), actions).op.steps, cut)
  {
    NewOperationSafe(o);
    PlayKeeps(World(o, [], []), actions);
    var steps := Play(World(o, [], []), actions).op.steps;
    var open := FirstOpen(steps);
    FirstOpenIsFirst(steps);
    assert PrefixForm(steps, if open.Some? then open.value else |steps|);
  }

  /** No child job ever exists for a pending step, and each step gets at most one. */
  lemma OneJobPerLinkedStep(o: Operation, actions: seq<Action>)
    requires Settled(o) && o.status.Queued?
    ensures var w := Play(World(o, [], []), actions);
      && (forall j, k | 0 <= j < |w.jobs| && 0 <= k < |w.op.plan.steps|
          && w.jobs[j].request.key == w.op.plan.steps[k].stepDigest ::
            k < |w.op.steps| && !w.op.steps[k].status.Pending?
            && w.jobs[j].request == RequestFor(w.op.serverId, w.op.plan.steps[k]))
      && (forall i, j | 0 <= i < j < |w.jobs| :: w.jobs[i].request.key != w.jobs[j].request.key)
  {
    NewOperationSafe(o);
    PlayKeeps(World(o, [], []), actions);
    var w := Play(World(o, [], []), actions);
    forall j, k | 0 <= j < |w.jobs| && 0 <= k < |w.op.plan.steps|
        && w.jobs[j].request.key == w.op.plan.steps[k].stepDigest
      ensures k < |w.op.steps| && !w.op.steps[k].status.Pending?
      ensures w.jobs[j].request == RequestFor(w.op.serverId, w.op.plan.steps[k])
    {
      assert Served(w.op, w.jobs[j]);
      var m: nat :| ServesStep(w.op, w.jobs[j], m);
      assert m == k;
    }
  }

  /** A settled plan's child steps carry the inputs of their executors. */
  lemma ChildInput(o: Operation, k: nat)
    requires Settled(o) && k < |o.plan.steps| && IsChild(o.plan.steps[k])
    ensures var s := o.plan.steps[k];
      && (s.core.executor.DatabaseBackup? ==> s.core.input.DatabaseInput?)
      && (s.core.executor.MailDataBackup? ==> s.core.input.MailInput?)
  {
    StepsPointwise(o.plan.steps, o.plan.serverId, o.plan.previewDigest);
    assert NormalizeStep(o.plan.steps[k], o.plan.serverId, o.plan.previewDigest) == Some(o.plan.steps[k]);
  }

  /**
   Over every run each job is work for the operation's own server, for one of its child steps and on
   that step's source.
   */
  lemma JobsNameTheirSteps(o: Operation, actions: seq<Action>)
    requires Settled(o) && o.status.Queued?
    ensures var w := Play(World(o, [], []), actions);
      forall j | 0 <= j < |w.jobs| :: exists k ::
        0 <= k < |w.op.plan.steps| && NamesStep(w.jobs[j].request, w.op.serverId, w.op.plan.steps[k])
  {
    NewOperationSafe(o);
    PlayKeeps(World(o, [], []), actions);
    var w := Play(World(o, [], []), actions);
    forall j | 0 <= j < |w.jobs|
      ensures exists k ::
        0 <= k < |w.op.plan.steps| && NamesStep(w.jobs[j].request, w.op.serverId, w.op.plan.steps[k])
    {
      assert Served(w.op, w.jobs[j]);
      var k: nat :| ServesStep(w.op, w.jobs[j], k);
      ChildInput(w.op, k);
      assert NamesStep(w.jobs[j].request, w.op.serverId, w.op.plan.steps[k]);
    }
  }

  /** Field by field: the evidence is what this job of the step left behind, under the job's own id. */
  predicate Records(serverId: Text, s: Step, j: ChildJob, e: Evidence) {
    && j.status.JobSucceeded? && NamesStep(j.request, serverId, s) && j.result.Some? && e.artifactId == j.id
    && match j.result.value
       case DatabaseResult(name, _, sha, bytes, createdAt) =>
         && s.core.executor.DatabaseBackup? && name == s.core.input.databaseName
         && e.content == sha && e.bytes == bytes && bytes >= 1 && e.createdAt == createdAt
       case MailResult(domain, scope, identity, snapshot, _, sha, bytes) =>
         && s.core.executor.MailDataBackup? && domain == s.core.input.mailDomainId && scope == s.core.input.scope
         && identity == s.core.input.mailIdentity && snapshot == s.core.input.snapshotSha256
         && e.content == sha && e.bytes == bytes && j.finishedAt == Some(e.createdAt)
  }

  lemma BackedRecords(o: Operation, jobs: seq<ChildJob>, k: nat, e: Evidence) returns (j: nat)
    requires Settled(o) && Sound(o, jobs) && AllStored(jobs) && k < |o.plan.steps| && IsChild(o.plan.steps[k])
    requires Backed(jobs, o.plan.steps[k], e)
    ensures j < |jobs| && Records(o.serverId, o.plan.steps[k], jobs[j], e)
  {
    j :| 0 <= j < |jobs| && jobs[j].request.key == o.plan.steps[k].stepDigest
      && EvidenceOf(o.plan.steps[k], jobs[j]) == Some(e);
    OwnJob(o, jobs, k, j);
    ChildInput(o, k);
  }

  /** A finished backup, field by field: each child step's evidence is that of a succeeded job of its own. */
  lemma FinishedBackupRecords(o: Operation, actions: seq<Action>, k: nat) returns (j: nat)
    requires Settled(o) && o.status.Queued?
    requires Play(World(o, [], []), actions).op.status.Succeeded?
    requires k < |o.plan.steps| && IsChild(o.plan.steps[k])
    ensures var w := Play(World(o, [], []), actions);
      && w.op.plan == o.plan && k < |w.op.steps| && w.op.steps[k].evidence.Some?
      && j < |w.jobs| && Records(o.serverId, o.plan.steps[k], w.jobs[j], w.op.steps[k].evidence.value)
  {
    FinishedBackupIsBacked(o, actions);
    NewOperationSafe(o);
    PlayKeeps(World(o, [], []), actions);
    PlanKept(World(o, [], []), actions);
    var w := Play(World(o, [], []), actions);
    j := BackedRecords(w.op, w.jobs, k, w.op.steps[k].evidence.value);
  }

  /** No registry call touches the plan or the server. */
  lemma CalledKeepsPlan(o: Operation, t: Thread, c: Choice)
    requires At(t) < |o.plan.steps| && Called(o, t, c).Some? && Called(o, t, c).value.Ok?
    ensures Called(o, t, c).value.value.plan == o.plan && Called(o, t, c).value.value.serverId == o.serverId
  {
  }

  lemma ActKeepsPlan(w: World, i: nat, c: Choice)
    requires i < |w.threads|
    ensures Act(w, i, c).op.plan == w.op.plan && Act(w, i, c).op.serverId == w.op.serverId
  {
    var t := w.threads[i];
    if At(t) < |w.op.plan.steps| && Called(w.op, t, c).Some? && Called(w.op, t, c).value.Ok? {
      CalledKeepsPlan(w.op, t, c);
    }
  }

  lemma {:induction false} PlanKept(w: World, actions: seq<Action>)
    ensures Play(w, actions).op.plan == w.op.plan && Play(w, actions).op.serverId == w.op.serverId
    decreases |actions|
  {
    if actions != [] {
      if actions[0].Resume? && actions[0].i < |w.threads| { ActKeepsPlan(w, actions[0].i, actions[0].choice); }
      PlanKept(Perform(w, actions[0]), actions[1..]);
    }
  }

  ghost predicate AllBacked(o: Operation, jobs: seq<ChildJob>) {
    && |o.steps| == |o.plan.steps|
    && forall k | 0 <= k < |o.steps| && IsChild(o.plan.steps[k]) ::
         o.steps[k].evidence.Some? && Backed(jobs, o.plan.steps[k], o.steps[k].evidence.value)
  }

  /**
   A finished backup is backed by its jobs: each child step by a succeeded one whose result names
   the step's own source.
   */
  lemma FinishedBackupIsBacked(o: Operation, actions: seq<Action>)
    requires Settled(o) && o.status.Queued?
    ensures var w := Play(World(o, [], []), actions); w.op.status.Succeeded? ==> AllBacked(w.op, w.jobs)
  {
    NewOperationSafe(o);
    PlayKeeps(World(o, [], []), actions);
  }

  /** The orchestrator's own state errors are never raised, whatever snapshot a call acts on. */
  lemma NoInternalFault(o: Operation, actions: seq<Action>)
    requires Settled(o) && o.status.Queued?
    ensures forall t | t in Play(World(o, [], []), actions).threads :: !(t.Done? && t.outcome.Broken?)
  {
    NewOperationSafe(o);
    PlayKeeps(World(o, [], []), actions);
    NoThreadBroken(Play(World(o, [], []), actions));
  }

  lemma NoThreadBroken(w: World)
    requires Inv(w)
    ensures forall t | t in w.threads :: !(t.Done? && t.outcome.Broken?)
  {
    forall t | t in w.threads ensures !(t.Done? && t.outcome.Broken?) {
      var i :| 0 <= i < |w.threads| && w.threads[i] == t;
      assert ThreadOk(w.op, w.jobs, w.threads[i]);
    }
  }

  // ---- results of child jobs -------------------------------------------------

  /** The job found under a step's key is that step's own. */
  lemma OwnJob(o: Operation, jobs: seq<ChildJob>, k: nat, j: nat)
    requires Sound(o, jobs) && k < |o.plan.steps| && j < |jobs| && jobs[j].request.key == o.plan.steps[k].stepDigest
    ensures jobs[j].request == RequestFor(o.serverId, o.plan.steps[k])
  {
    assert Served(o, jobs[j]);
    var m: nat :| ServesStep(o, jobs[j], m);
    assert m == k;
  }

  /** Over every run: the registry's checks cannot refuse what a child step brings. */
  ghost predicate ChildrenAccepted(w: World) {
    && (forall j, k | 0 <= j < |w.jobs| && 0 <= k < |w.op.plan.steps| && w.jobs[j].status.JobSucceeded?
                      && w.jobs[j].request.key == w.op.plan.steps[k].stepDigest ::
                          Yields(w.op.plan.steps[k], w.jobs[j]))
    && (forall t | t in w.threads && t.Succeeding? :: !Unusable(t))
  }

  lemma StoredBacked(o: Operation, jobs: seq<ChildJob>, k: nat, e: Evidence)
    requires Sound(o, jobs) && AllStored(jobs) && k < |o.plan.steps| && Backed(jobs, o.plan.steps[k], e)
    ensures NormalizeEvidence(e).Some?
  {
    var j :| 0 <= j < |jobs| && jobs[j].request.key == o.plan.steps[k].stepDigest
      && EvidenceOf(o.plan.steps[k], jobs[j]) == Some(e);
    OwnJob(o, jobs, k, j);
    StoredYields(o.plan.steps[k], o.serverId, jobs[j]);
  }

  lemma SafeAccepts(w: World)
    requires Safe(w)
    ensures ChildrenAccepted(w)
  {
    forall j, k | 0 <= j < |w.jobs| && 0 <= k < |w.op.plan.steps| && w.jobs[j].status.JobSucceeded?
                  && w.jobs[j].request.key == w.op.plan.steps[k].stepDigest
      ensures Yields(w.op.plan.steps[k], w.jobs[j])
    {
      OwnJob(w.op, w.jobs, k, j);
      StoredYields(w.op.plan.steps[k], w.op.serverId, w.jobs[j]);
    }
    forall t | t in w.threads && t.Succeeding? ensures !Unusable(t) {
      var i :| 0 <= i < |w.threads| && w.threads[i] == t;
      assert ThreadOk(w.op, w.jobs, w.threads[i]);
      StoredBacked(w.op, w.jobs, t.k, t.evidence);
    }
  }

  /**
   The queue's sanitiser, the dispatcher's reading and the registry's normaliser agree over every run:
   a succeeded job of a step always has evidence, the step's failure for an invalid result is never
   recorded, and no call that records a child's success ends in an invalid state.
   */
  lemma SucceededJobsAreTaken(o: Operation, actions: seq<Action>)
    requires Settled(o) && o.status.Queued?
    ensures var w := Play(World(o, [], []), actions);
      && ChildrenAccepted(w)
      && (forall j, k: nat, ref, c | 0 <= j < |w.jobs| && k < |w.op.plan.steps| && w.jobs[j].status.JobSucceeded?
                                && w.jobs[j].request.key == w.op.plan.steps[k].stepDigest ::
            Judge(k, ref, w.op.plan.steps[k], w.jobs[j], c).Succeeding?)
      && (forall t, c | t in w.threads && t.Succeeding? && At(t) < |w.op.plan.steps| ::
            Called(w.op, t, c) != Some(Err(StateInvalid)))
  {
    NewOperationSafe(o);
    PlayKeeps(World(o, [], []), actions);
    var w := Play(World(o, [], []), actions);
    SafeAccepts(w);
    forall t, c | t in w.threads && t.Succeeding? && At(t) < |w.op.plan.steps|
      ensures Called(w.op, t, c) != Some(Err(StateInvalid))
    {
      CalledSettled(w.op, t, c);
    }
  }
}
