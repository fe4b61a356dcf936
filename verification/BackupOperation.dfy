/** One durable backup operation: how it is re-read from the store, and its four transitions. */
module BackupOperation {
  import opened Common
  import opened Texts
  import opened BackupPlan

  datatype WorkKind = Job | Local
  /** A child job's key is built from its step's digest; a local executor chooses its own id. */
  datatype WorkId = StepKey(digest: Digest) | LocalId(text: Text)
  datatype WorkRef = WorkRef(kind: WorkKind, id: WorkId)
  datatype Evidence = Evidence(artifactId: Text, content: nat, bytes: int, createdAt: Stamp)
  datatype Failure = Failure(code: Text, message: Text)

  datatype StepStatus = Pending | Dispatched | StepSucceeded | StepFailed
  datatype StepState = StepState(stepId: Name, status: StepStatus, workRef: Option<WorkRef>,
                                 evidence: Option<Evidence>, error: Option<Failure>, updatedAt: Stamp)

  datatype Status = Queued | Running | Succeeded | Failed
  datatype Operation = Operation(id: Text, serverId: Text, executionDigest: Digest, idempotencyKey: Name,
                                 previewDigest: Digest,
                                 status: Status, plan: Plan, steps: seq<StepState>, createdAt: Stamp,
                                 startedAt: Option<Stamp>, finishedAt: Option<Stamp>, error: Option<Failure>)

  datatype OperationError =
    | StateInvalid | Conflict | OperationNotFound | NotStartable | NotRunning
    | StepNotFound | AlreadyDispatched | CompletionConflict

  // ---- re-reading ------------------------------------------------------------

  predicate IsCodeChar(c: char) { IsServiceChar(c) || c in "_.:-" }

  /** `^[a-z0-9][a-z0-9_.:-]{0,119}$`, and a printable message of at most 240 characters. */
  predicate FailureOk(f: Failure) {
    && 1 <= |f.code| <= 120 && IsServiceChar(f.code[0]) && (forall i | 0 <= i < |f.code| :: IsCodeChar(f.code[i]))
    && 1 <= |f.message| <= 240 && IsPrintable(f.message)
  }

  predicate WorkRefOk(w: WorkRef) { w.id.LocalId? ==> IsResourceId(w.id.text) }

  function NormalizeEvidence(e: Evidence): Option<Evidence> {
    if !IsSafe(e.bytes) || e.bytes < 0 || !IsResourceId(e.artifactId) || e.createdAt.Unparsable? then None
    else Some(e.(createdAt := Iso(e.createdAt)))
  }

  predicate Consistent(s: StepState) {
    match s.status
    case Pending => s.workRef.None? && s.evidence.None? && s.error.None?
    case Dispatched => s.workRef.Some? && s.evidence.None? && s.error.None?
    case StepSucceeded => s.workRef.Some? && s.evidence.Some? && s.error.None?
    case StepFailed => s.workRef.Some? && s.evidence.None? && s.error.Some?
  }

  function NormalizeState(s: StepState, planned: Step): Option<StepState> {
    if s.stepId != planned.stepId
      || (s.workRef.Some? && !WorkRefOk(s.workRef.value))
      || (s.evidence.Some? && NormalizeEvidence(s.evidence.value).None?)
      || (s.error.Some? && !FailureOk(s.error.value))
      || s.updatedAt.Unparsable? || !Consistent(s) then None
    else Some(s.(evidence := if s.evidence.Some? then NormalizeEvidence(s.evidence.value)
                 else None, updatedAt := Iso(s.updatedAt)))
  }

  function NormalizeStates(steps: seq<StepState>, planned: seq<Step>): Option<seq<StepState>>
    requires |steps| == |planned|
  {
    if steps == [] then Some([])
    else
      var head, tail := NormalizeState(steps[0], planned[0]), NormalizeStates(steps[1..], planned[1..]);
      if head.Some? && tail.Some? then Some([head.value] + tail.value) else None
  }

  predicate AllSucceeded(steps: seq<StepState>) { forall i | 0 <= i < |steps| :: steps[i].status.StepSucceeded? }
  predicate SomeFailed(steps: seq<StepState>) { exists i | 0 <= i < |steps| :: steps[i].status.StepFailed? }
  predicate AllPending(steps: seq<StepState>) { forall i | 0 <= i < |steps| :: steps[i].status.Pending? }

  predicate Lifecycle(o: Operation) {
    match o.status
    case Queued => o.startedAt.None? && o.finishedAt.None? && o.error.None? && AllPending(o.steps)
    case Running =>
        o.startedAt.Some? && o.finishedAt.None? && o.error.None? && !SomeFailed(o.steps) && !AllSucceeded(o.steps)
    case Succeeded => o.startedAt.Some? && o.finishedAt.Some? && o.error.None? && AllSucceeded(o.steps)
    case Failed => o.startedAt.Some? && o.finishedAt.Some? && o.error.Some? && SomeFailed(o.steps)
  }

  predicate StampOk(s: Option<Stamp>) { s.Some? ==> s.value.Stamp? }

  function IsoOption(s: Option<Stamp>): Option<Stamp> { if s.Some? then Some(Iso(s.value)) else None }

  /** normalizeOperation; None is a refusal. */
  function NormalizeOperation(o: Operation): Option<Operation> {
    var plan := NormalizePlan(o.plan);
    if plan.None? || !IsUuid(o.id) || !IsUuid(o.serverId) || Lower(o.serverId) != plan.value.serverId
      || o.executionDigest != plan.value.executionDigest || o.idempotencyKey != plan.value.idempotencyKey
      || o.previewDigest != plan.value.previewDigest || |o.steps| != |plan.value.steps| then None
    else
      var steps := NormalizeStates(o.steps, plan.value.steps);
      if steps.None? || o.createdAt.Unparsable? || !StampOk(o.startedAt) || !StampOk(o.finishedAt)
        || (o.error.Some? && !FailureOk(o.error.value)) then None
      else
        var r := o.(id := Lower(o.id), serverId := Lower(o.serverId), plan := plan.value, steps := steps.value,
                    createdAt := Iso(o.createdAt), startedAt := IsoOption(o.startedAt),
                        finishedAt := IsoOption(o.finishedAt));
        if Lifecycle(r) then Some(r) else None
  }

  // ---- transitions -----------------------------------------------------------

  /** The last act of every transition: the new operation must re-read. */
  function Commit(o: Operation): Result<Operation, OperationError> {
    var r := NormalizeOperation(o);
    if r.Some? then Ok(r.value) else Err(StateInvalid)
  }

  /** The transitions below leave that check to this one place; a repeated call returns the stored operation itself. */
  function Checked(o: Operation, r: Result<Operation, OperationError>): Result<Operation, OperationError> {
    if r.Ok? && r.value != o then Commit(r.value) else r
  }

  function FindStep(steps: seq<StepState>, id: Name): (r: Option<nat>)
    ensures r.Some? ==> r.value < |steps| && steps[r.value].stepId == id
  {
    if steps == [] then None
    else if steps[0].stepId == id then Some(0)
    else
      var rest := FindStep(steps[1..], id);
      if rest.Some? then Some(rest.value + 1) else None
  }

  /** The operation create builds before it is checked. */
  function Drafted(plan: Plan, id: Text, now: int): Operation {
    Operation(id, plan.serverId, plan.executionDigest, plan.idempotencyKey, plan.previewDigest, Queued, plan,
              seq(|plan.steps|, i requires 0 <= i < |plan.steps| =>
                StepState(plan.steps[i].stepId, Pending, None, None, None, Stamp(now, true))),
              Stamp(now, true), None, None, None)
  }

  /** create's new operation for an accepted plan. */
  function Created(plan: Plan, id: Text, now: int): Result<Operation, OperationError> { Commit(Drafted(plan, id, now)) }

  function Started(o: Operation, now: int): Result<Operation, OperationError> {
    if o.status.Running? then Ok(o)
    else if !o.status.Queued? then Err(NotStartable)
    else Ok(o.(status := Running, startedAt := Some(Stamp(now, true))))
  }

  function WithLink(o: Operation, k: nat, ref: WorkRef, now: int): Operation
    requires k < |o.steps|
  {
    o.(steps := o.steps[k := o.steps[k].(status := Dispatched, workRef := Some(ref), updatedAt := Stamp(now, true))])
  }

  function WithSuccess(o: Operation, k: nat, evidence: Evidence, now: int): Operation
    requires k < |o.steps|
  {
    var steps := o.steps[k
                         := o.steps[k].(status := StepSucceeded, evidence := Some(evidence),
                                        updatedAt := Stamp(now, true))];
    if AllSucceeded(steps) then o.(status := Succeeded, steps := steps, finishedAt := Some(Stamp(now, true)))
    else o.(status := Running, steps := steps, finishedAt := None)
  }

  function WithFailure(o: Operation, k: nat, error: Failure, now: int): Operation
    requires k < |o.steps|
  {
    o.(status := Failed, steps
       := o.steps[k := o.steps[k].(status := StepFailed, error := Some(error), updatedAt := Stamp(now, true))],
       finishedAt := Some(Stamp(now, true)), error := Some(error))
  }

  function Linked(o: Operation, id: Name, ref: WorkRef, now: int): Result<Operation, OperationError> {
    if !o.status.Running? then Err(NotRunning)
    else
      var k := FindStep(o.steps, id);
      if k.None? then Err(StepNotFound)
      else
        var step := o.steps[k.value];
        if step.status.Dispatched? && step.workRef == Some(ref) then Ok(o)
        else if !step.status.Pending? then Err(AlreadyDispatched)
        else Ok(WithLink(o, k.value, ref, now))
  }

  function StepCompleted(o: Operation, id: Name, ref: WorkRef, evidence: Evidence, now: int): Result<Operation,
      OperationError> {
    var k := FindStep(o.steps, id);
    if k.None? then Err(StepNotFound)
    else
      var step := o.steps[k.value];
      if step.status.StepSucceeded? then
        if step.workRef == Some(ref) && step.evidence == Some(evidence) then Ok(o) else Err(CompletionConflict)
      else if !o.status.Running? || !step.status.Dispatched? || step.workRef != Some(ref) then Err(CompletionConflict)
      else Ok(WithSuccess(o, k.value, evidence, now))
  }

  function StepFailing(o: Operation, id: Name, ref: WorkRef, error: Failure, now: int): Result<Operation,
      OperationError> {
    var k := FindStep(o.steps, id);
    if k.None? then Err(StepNotFound)
    else
      var step := o.steps[k.value];
      if step.status.StepFailed? then
        if step.workRef == Some(ref) && step.error == Some(error) then Ok(o) else Err(CompletionConflict)
      else if !o.status.Running? || !step.status.Dispatched? || step.workRef != Some(ref) then Err(CompletionConflict)
      else Ok(WithFailure(o, k.value, error, now))
  }

  // ---- no transition is refused by the final check ---------------------------

  /** An operation as it stands in the store: re-reading it changes nothing. */
  predicate Settled(o: Operation) { NormalizeOperation(o) == Some(o) }

  /** The final check lets the outcome through unchanged, and an accepted operation is settled. */
  predicate Settles(o: Operation, r: Result<Operation, OperationError>) {
    Checked(o, r) == r && r != Err(StateInvalid) && (r.Ok? ==> Settled(r.value))
  }

  lemma {:induction false} StatesFixed(steps: seq<StepState>, planned: seq<Step>)
    requires |steps| == |planned|
    ensures NormalizeStates(steps, planned) == Some(steps)
        <==> forall i | 0 <= i < |steps| :: NormalizeState(steps[i], planned[i]) == Some(steps[i])
  {
    if steps != [] {
      StatesFixed(steps[1..], planned[1..]);
      assert steps == [steps[0]] + steps[1..];
    }
  }

  predicate StatesOk(o: Operation) {
    && |o.steps| == |o.plan.steps|
    && forall i | 0 <= i < |o.steps| :: NormalizeState(o.steps[i], o.plan.steps[i]) == Some(o.steps[i])
  }

  predicate TimesOk(o: Operation) {
    && IsoOption(o.startedAt) == o.startedAt && StampOk(o.startedAt) && IsoOption(o.finishedAt) == o.finishedAt
        && StampOk(o.finishedAt)
    && (o.error.Some? ==> FailureOk(o.error.value))
  }

  lemma SettledStates(o: Operation)
    requires Settled(o)
    ensures |o.steps| >= 1 && StatesOk(o) && TimesOk(o) && Lifecycle(o)
  {
    StatesFixed(o.steps, o.plan.steps);
  }

  lemma SettledIds(o: Operation)
    requires Settled(o)
    ensures forall i | 0 <= i < |o.steps| :: o.steps[i].stepId == o.plan.steps[i].stepId
    ensures forall i, j | 0 <= i < j < |o.steps| :: o.steps[i].stepId != o.steps[j].stepId
  {
    SettledStates(o);
    assert Ordered(o.plan.steps);
  }

  lemma UpdateSettled(o: Operation, n: Operation)
    requires Settled(o)
    requires n == o.(status := n.status, steps := n.steps, startedAt := n.startedAt, finishedAt := n.finishedAt,
                     error := n.error)
    requires StatesOk(n) && Lifecycle(n) && TimesOk(n)
    ensures Settled(n) && Commit(n) == Ok(n)
  {
    StatesFixed(n.steps, n.plan.steps);
  }

  lemma SettledServer(plan: Plan)
    requires NormalizePlan(plan) == Some(plan)
    ensures IsUuid(plan.serverId) && Lower(plan.serverId) == plan.serverId && |plan.steps| >= 1
  {
    LowerIdempotent(plan.serverId);
  }

  lemma DraftedNormalizes(plan: Plan, id: Text, now: int)
    requires NormalizePlan(plan) == Some(plan) && IsUuid(id)
    ensures NormalizeOperation(Drafted(plan, id, now)) == Some(Drafted(plan, Lower(id), now))
  {
    SettledServer(plan);
    var o := Drafted(plan, id, now);
    StatesFixed(o.steps, plan.steps);
    assert Lifecycle(Drafted(plan, Lower(id), now));
    assert Drafted(plan, Lower(id), now) == o.(id := Lower(id));
  }

  /** create on an accepted plan is refused only for a malformed id, and its operation is settled. */
  lemma CreatedSettles(plan: Plan, id: Text, now: int)
    requires NormalizePlan(plan) == Some(plan)
    ensures Created(plan, id, now) == if IsUuid(id) then Ok(Drafted(plan, Lower(id), now)) else Err(StateInvalid)
    ensures IsUuid(id) ==> Settled(Drafted(plan, Lower(id), now))
  {
    if IsUuid(id) {
      DraftedNormalizes(plan, id, now);
      LowerIdempotent(id);
      DraftedNormalizes(plan, Lower(id), now);
    }
  }

  lemma StartedSettles(o: Operation, now: int)
    requires Settled(o)
    ensures Settles(o, Started(o, now))
  {
    SettledStates(o);
    if o.status.Queued? {
      assert o.steps[0].status.Pending?;
      UpdateSettled(o, o.(status := Running, startedAt := Some(Stamp(now, true))));
    }
  }

  lemma LinkKeeps(o: Operation, k: nat, ref: WorkRef, now: int)
    requires StatesOk(o) && Lifecycle(o) && WorkRefOk(ref) && o.status.Running? && k < |o.steps|
    requires o.steps[k].status.Pending?
    ensures StatesOk(WithLink(o, k, ref, now)) && Lifecycle(WithLink(o, k, ref, now))
  {
    var n := WithLink(o, k, ref, now);
    assert n.steps[k].status.Dispatched?;
    assert forall i | 0 <= i < |n.steps| && i != k :: n.steps[i] == o.steps[i];
  }

  lemma SuccessKeeps(o: Operation, k: nat, evidence: Evidence, now: int)
    requires StatesOk(o) && Lifecycle(o) && NormalizeEvidence(evidence) == Some(evidence) && o.status.Running?
    requires k < |o.steps| && o.steps[k].status.Dispatched?
    ensures StatesOk(WithSuccess(o, k, evidence, now)) && Lifecycle(WithSuccess(o, k, evidence, now))
  {
    var n := WithSuccess(o, k, evidence, now);
    assert forall i | 0 <= i < |n.steps| && i != k :: n.steps[i] == o.steps[i];
    assert !SomeFailed(n.steps);
  }

  lemma FailureKeeps(o: Operation, k: nat, error: Failure, now: int)
    requires StatesOk(o) && Lifecycle(o) && FailureOk(error) && o.status.Running?
    requires k < |o.steps| && o.steps[k].status.Dispatched?
    ensures StatesOk(WithFailure(o, k, error, now)) && Lifecycle(WithFailure(o, k, error, now))
  {
    var n := WithFailure(o, k, error, now);
    assert n.steps[k].status.StepFailed?;
    assert forall i | 0 <= i < |n.steps| && i != k :: n.steps[i] == o.steps[i];
  }

  lemma LinkSettles(o: Operation, k: nat, ref: WorkRef, now: int)
    requires Settled(o) && WorkRefOk(ref) && o.status.Running? && k < |o.steps| && o.steps[k].status.Pending?
    ensures Settled(WithLink(o, k, ref, now)) && Commit(WithLink(o, k, ref, now)) == Ok(WithLink(o, k, ref, now))
  {
    SettledStates(o);
    LinkKeeps(o, k, ref, now);
    UpdateSettled(o, WithLink(o, k, ref, now));
  }

  lemma SuccessSettles(o: Operation, k: nat, evidence: Evidence, now: int)
    requires Settled(o) && NormalizeEvidence(evidence) == Some(evidence) && o.status.Running? && k < |o.steps|
    requires o.steps[k].status.Dispatched?
    ensures Settled(WithSuccess(o, k, evidence, now))
    ensures Commit(WithSuccess(o, k, evidence, now)) == Ok(WithSuccess(o, k, evidence, now))
  {
    SettledStates(o);
    SuccessKeeps(o, k, evidence, now);
    UpdateSettled(o, WithSuccess(o, k, evidence, now));
  }

  lemma FailureSettles(o: Operation, k: nat, error: Failure, now: int)
    requires Settled(o) && FailureOk(error) && o.status.Running? && k < |o.steps| && o.steps[k].status.Dispatched?
    ensures Settled(WithFailure(o, k, error, now))
    ensures Commit(WithFailure(o, k, error, now)) == Ok(WithFailure(o, k, error, now))
  {
    SettledStates(o);
    FailureKeeps(o, k, error, now);
    UpdateSettled(o, WithFailure(o, k, error, now));
  }

  lemma LinkedSettles(o: Operation, id: Name, ref: WorkRef, now: int)
    requires Settled(o) && WorkRefOk(ref)
    ensures Settles(o, Linked(o, id, ref, now))
  {
    var k := FindStep(o.steps, id);
    if o.status.Running? && k.Some? && o.steps[k.value].status.Pending? { LinkSettles(o, k.value, ref, now); }
  }

  lemma CompletedSettles(o: Operation, id: Name, ref: WorkRef, evidence: Evidence, now: int)
    requires Settled(o) && NormalizeEvidence(evidence) == Some(evidence)
    ensures Settles(o, StepCompleted(o, id, ref, evidence, now))
  {
    var k := FindStep(o.steps, id);
    if o.status.Running? && k.Some? && o.steps[k.value].status.Dispatched? {
      SuccessSettles(o, k.value, evidence, now);
    }
  }

  lemma FailingSettles(o: Operation, id: Name, ref: WorkRef, error: Failure, now: int)
    requires Settled(o) && FailureOk(error)
    ensures Settles(o, StepFailing(o, id, ref, error, now))
  {
    var k := FindStep(o.steps, id);
    if o.status.Running? && k.Some? && o.steps[k.value].status.Dispatched? { FailureSettles(o, k.value, error, now); }
  }
}
