/**
 The store of backup operations: requests as copy-on-write transforms, the file they are
 persisted to, and what a crash or an overlapping first read can do to it.
 */
module BackupStore {
  import opened Common
  import opened Texts
  import opened BackupPlan
  import opened BackupPlanTheorems
  import opened BackupOperation

  type Store = seq<Operation>

  datatype Request =
    | Create(plan: Plan, newId: Text, now: int)
    | Start(id: Text, now: int)
    | Link(id: Text, stepId: Name, ref: WorkRef, now: int)
    | Succeed(id: Text, stepId: Name, ref: WorkRef, evidence: Evidence, now: int)
    | Fail(id: Text, stepId: Name, ref: WorkRef, error: Failure, now: int)

  function FindId(s: Store, id: Text): (r: Option<nat>)
    ensures r.Some? ==> r.value < |s| && s[r.value].id == id
  {
    if s == [] then None
    else if s[0].id == id then Some(0)
    else
      var rest := FindId(s[1..], id);
      if rest.Some? then Some(rest.value + 1) else None
  }

  function FindKey(s: Store, key: Name): (r: Option<nat>)
    ensures r.Some? ==> r.value < |s| && s[r.value].idempotencyKey == key
    ensures r.None? ==> forall i | 0 <= i < |s| :: s[i].idempotencyKey != key
  {
    if s == [] then None
    else if s[0].idempotencyKey == key then Some(0)
    else
      var rest := FindKey(s[1..], key);
      if rest.Some? then Some(rest.value + 1)
      else
        assert forall i | 1 <= i < |s| :: s[i] == s[1..][i - 1];
        None
  }

  predicate Active(o: Operation) { o.status.Queued? || o.status.Running? }

  /** What the entry points check before they join the queue of mutations. */
  predicate WellFormed(r: Request) {
    match r
    case Create(plan, _, _) => NormalizePlan(plan).Some?
    case Start(id, _) => IsUuid(id)
    case Link(id, _, ref, _) => IsUuid(id) && WorkRefOk(ref)
    case Succeed(id, _, ref, evidence, _) => IsUuid(id) && WorkRefOk(ref) && NormalizeEvidence(evidence).Some?
    case Fail(id, _, ref, error, _) => IsUuid(id) && WorkRefOk(ref) && FailureOk(error)
  }

  function Transition(o: Operation, r: Request): Result<Operation, OperationError>
    requires WellFormed(r) && !r.Create?
  {
    match r
    case Start(_, now) => Checked(o, Started(o, now))
    case Link(_, step, ref, now) => Checked(o, Linked(o, step, ref, now))
    case Succeed(_, step, ref, evidence, now) =>
        Checked(o, StepCompleted(o, step, ref, NormalizeEvidence(evidence).value, now))
    case Fail(_, step, ref, error, now) => Checked(o, StepFailing(o, step, ref, error, now))
  }

  function CreateIn(s: Store, plan: Plan, newId: Text, now: int): (Store, Result<Operation, OperationError>) {
    var existing := FindKey(s, plan.idempotencyKey);
    if existing.Some? then (s, Ok(s[existing.value]))
    else if exists i | 0 <= i < |s| :: s[i].serverId == plan.serverId && Active(s[i]) then (s, Err(Conflict))
    else
      var created := Created(plan, newId, now);
      if created.Ok? then (s + [created.value], created) else (s, created)
  }

  function Apply(s: Store, r: Request): (Store, Result<Operation, OperationError>) {
    if !WellFormed(r) then (s, Err(StateInvalid))
    else if r.Create? then CreateIn(s, NormalizePlan(r.plan).value, r.newId, r.now)
    else
      var index := FindId(s, Lower(r.id));
      if index.None? then (s, Err(OperationNotFound))
      else
        var next := Transition(s[index.value], r);
        if next.Ok? then (s[index.value := next.value], next) else (s, next)
  }

  // ---- re-reading a whole store ----------------------------------------------

  predicate IdsDistinct(s: Store) { forall i, j | 0 <= i < j < |s| :: s[i].id != s[j].id }
  predicate KeysDistinct(s: Store) { forall i, j | 0 <= i < j < |s| :: s[i].idempotencyKey != s[j].idempotencyKey }

  /** normalizeStore; None is a refusal. */
  function NormalizeStore(s: Store): Option<Store> {
    if exists i | 0 <= i < |s| :: NormalizeOperation(s[i]).None? then None
    else
      var r := seq(|s|, i requires 0 <= i < |s| => NormalizeOperation(s[i]).value);
      if IdsDistinct(r) && KeysDistinct(r) then Some(r) else None
  }

  /** At most one queued or running operation per server. */
  ghost predicate OneActive(s: Store) {
    forall i, j | 0 <= i < j < |s| && Active(s[i]) && Active(s[j]) :: s[i].serverId != s[j].serverId
  }

  predicate AllSettled(s: Store) { forall i | 0 <= i < |s| :: Settled(s[i]) }

  ghost predicate Separate(s: Store) { IdsDistinct(s) && KeysDistinct(s) && OneActive(s) }

  ghost predicate StoreOk(s: Store) { AllSettled(s) && Separate(s) }

  lemma AppendRefused(s: Store, o: Operation, i: nat)
    requires AllSettled(s) && Settled(o) && i < |s| && s[i].id == o.id
    ensures NormalizeStore(s + [o]).None?
  {
    var n := s + [o];
    assert n[i] == s[i] && n[|s|] == o;
    RepeatRefused(n, i, |s|);
  }

  lemma RepeatRefused(s: Store, i: nat, j: nat)
    requires i < j < |s| && s[i].id == s[j].id && forall k | 0 <= k < |s| :: Settled(s[k])
    ensures NormalizeStore(s).None?
  {
    assert seq(|s|, i requires 0 <= i < |s| => NormalizeOperation(s[i]).value) == s;
  }

  lemma ReloadUnchanged(s: Store)
    requires StoreOk(s)
    ensures NormalizeStore(s) == Some(s)
  {
    assert seq(|s|, i requires 0 <= i < |s| => NormalizeOperation(s[i]).value) == s;
  }

  // ---- one request -----------------------------------------------------------

  /** randomUUID: a well-formed id that no stored operation has. */
  predicate Fresh(s: Store, r: Request) {
    r.Create? ==> IsUuid(r.newId) && forall i | 0 <= i < |s| :: s[i].id != Lower(r.newId)
  }

  predicate StepForward(s: StepState, n: StepState) {
    || n == s
    || (s.status.Pending? && n.status.Dispatched? && n.workRef.Some?)
    || (s.status.Dispatched? && (n.status.StepSucceeded? || n.status.StepFailed?) && n.workRef == s.workRef)
  }

  /** How an operation may change: its identity and plan never, its steps forward, and nothing once it is terminal. */
  predicate Forward(o: Operation, n: Operation) {
    && n.id == o.id && n.plan == o.plan && n.serverId == o.serverId && n.idempotencyKey == o.idempotencyKey
        && n.createdAt == o.createdAt
    && |n.steps| == |o.steps|
        && (forall i | 0 <= i < |o.steps| ::
            n.steps[i].stepId == o.steps[i].stepId && StepForward(o.steps[i], n.steps[i]))
    && (Active(n) ==> Active(o)) && (!Active(o) ==> n == o)
  }

  lemma EvidenceIdempotent(e: Evidence)
    requires NormalizeEvidence(e).Some?
    ensures NormalizeEvidence(NormalizeEvidence(e).value) == NormalizeEvidence(e)
  {
  }

  lemma TransitionForward(o: Operation, r: Request)
    requires Settled(o) && WellFormed(r) && !r.Create?
    ensures Transition(o, r) != Err(StateInvalid)
    ensures Transition(o, r).Ok? ==> Settled(Transition(o, r).value) && Forward(o, Transition(o, r).value)
  {
    match r
    case Start(_, now) => StartedSettles(o, now); StartForward(o, now);
    case Link(_, step, ref, now) => LinkedSettles(o, step, ref, now); LinkForward(o, step, ref, now);
    case Succeed(_, step, ref, evidence, now) =>
      EvidenceIdempotent(evidence);
      CompletedSettles(o, step, ref, NormalizeEvidence(evidence).value, now);
      CompleteForward(o, step, ref, NormalizeEvidence(evidence).value, now);
    case Fail(_, step, ref, error, now) => FailingSettles(o, step, ref, error, now);
        FailForward(o, step, ref, error, now);
  }

  lemma StartForward(o: Operation, now: int)
    ensures Started(o, now).Ok? ==> Forward(o, Started(o, now).value)
  {
  }

  lemma LinkForward(o: Operation, id: Name, ref: WorkRef, now: int)
    ensures Linked(o, id, ref, now).Ok? ==> Forward(o, Linked(o, id, ref, now).value)
  {
  }

  lemma CompleteForward(o: Operation, id: Name, ref: WorkRef, evidence: Evidence, now: int)
    ensures StepCompleted(o, id, ref, evidence, now).Ok? ==> Forward(o, StepCompleted(o, id, ref, evidence, now).value)
  {
  }

  lemma FailForward(o: Operation, id: Name, ref: WorkRef, error: Failure, now: int)
    ensures StepFailing(o, id, ref, error, now).Ok? ==> Forward(o, StepFailing(o, id, ref, error, now).value)
  {
  }

  /** What one request does to a store in order. */
  ghost predicate Kept(s: Store, n: Store, result: Result<Operation, OperationError>) {
    && StoreOk(n)
    && (result.Err? ==> n == s)
    && (result.Ok? ==> result.value in n)
    && |n| >= |s| && forall i | 0 <= i < |s| :: Forward(s[i], n[i])
  }

  lemma ReplaceSeparate(s: Store, k: nat, o: Operation)
    requires Separate(s) && k < |s| && Forward(s[k], o)
    ensures Separate(s[k := o])
    ensures forall i | 0 <= i < |s| :: Forward(s[i], s[k := o][i])
  {
    var n := s[k := o];
    forall i, j | 0 <= i < j < |n| && Active(n[i]) && Active(n[j]) ensures n[i].serverId != n[j].serverId {
      assert Active(s[i]) && Active(s[j]);
    }
  }

  lemma ReplaceKeeps(s: Store, k: nat, o: Operation)
    requires StoreOk(s) && k < |s| && Settled(o) && Forward(s[k], o)
    ensures Kept(s, s[k := o], Ok(o))
  {
    ReplaceSeparate(s, k, o);
    assert s[k := o][k] == o;
  }

  lemma UnchangedKept(s: Store, r: Result<Operation, OperationError>)
    requires StoreOk(s) && (r.Ok? ==> r.value in s)
    ensures Kept(s, s, r)
  {
  }

  lemma CreateKept(s: Store, plan: Plan, newId: Text, now: int)
    requires StoreOk(s) && NormalizePlan(plan) == Some(plan) && Fresh(s, Create(plan, newId, now))
    ensures Kept(s, CreateIn(s, plan, newId, now).0, CreateIn(s, plan, newId, now).1)
    ensures CreateIn(s, plan, newId, now).1 != Err(StateInvalid)
  {
    var existing, o := FindKey(s, plan.idempotencyKey), Drafted(plan, Lower(newId), now);
    if existing.Some? {
      assert CreateIn(s, plan, newId, now) == (s, Ok(s[existing.value]));
      UnchangedKept(s, Ok(s[existing.value]));
    } else if exists i | 0 <= i < |s| :: s[i].serverId == plan.serverId && Active(s[i]) {
      assert CreateIn(s, plan, newId, now) == (s, Err(Conflict));
      UnchangedKept(s, Err(Conflict));
    } else {
      CreatedSettles(plan, newId, now);
      assert CreateIn(s, plan, newId, now) == (s + [o], Ok(o));
      AppendKeeps(s, o);
    }
  }

  predicate Disjoint(s: Store, o: Operation) {
    forall i | 0 <= i < |s| ::
        s[i].id != o.id && s[i].idempotencyKey != o.idempotencyKey && !(s[i].serverId == o.serverId && Active(s[i]))
  }

  lemma AppendSeparate(s: Store, o: Operation)
    requires Separate(s) && Disjoint(s, o)
    ensures Separate(s + [o])
    ensures forall i | 0 <= i < |s| :: Forward(s[i], (s + [o])[i])
  {
  }

  lemma AppendKeeps(s: Store, o: Operation)
    requires StoreOk(s) && Settled(o) && Disjoint(s, o)
    ensures Kept(s, s + [o], Ok(o))
  {
    AppendSeparate(s, o);
    assert (s + [o])[|s|] == o;
  }

  lemma TransitionKept(s: Store, k: nat, r: Request)
    requires StoreOk(s) && k < |s| && WellFormed(r) && !r.Create? && Transition(s[k], r).Ok?
    ensures Kept(s, s[k := Transition(s[k], r).value], Transition(s[k], r))
  {
    TransitionForward(s[k], r);
    ReplaceKeeps(s, k, Transition(s[k], r).value);
  }

  /**
   One request against a store in order: the store stays in order, the final check never refuses
   what the transition built, a refusal changes nothing, and every stored operation only moves forward.
   */
  lemma ApplyKeeps(s: Store, r: Request)
    requires StoreOk(s) && Fresh(s, r)
    ensures Kept(s, Apply(s, r).0, Apply(s, r).1)
    ensures Apply(s, r).1 == Err(StateInvalid) <==> !WellFormed(r)
  {
    if !WellFormed(r) {
      UnchangedKept(s, Err(StateInvalid));
    } else if r.Create? {
      PlanIdempotent(r.plan);
      CreateKept(s, NormalizePlan(r.plan).value, r.newId, r.now);
    } else {
      var k := FindId(s, Lower(r.id));
      if k.None? {
        UnchangedKept(s, Err(OperationNotFound));
      } else {
        TransitionForward(s[k.value], r);
        if Transition(s[k.value], r).Ok? {
          TransitionKept(s, k.value, r);
        } else {
          UnchangedKept(s, Transition(s[k.value], r));
        }
      }
    }
  }

  /** With a repeated id a new operation would be stored that no later reload accepts. */
  lemma RepeatedIdBreaksReload(s: Store, plan: Plan, newId: Text, now: int)
    requires StoreOk(s) && NormalizePlan(plan) == Some(plan) && IsUuid(newId)
    requires |CreateIn(s, plan, newId, now).0| > |s|
    ensures NormalizeStore(CreateIn(s, plan, newId, now).0).Some? <==> Fresh(s, Create(plan, newId, now))
  {
    CreatedSettles(plan, newId, now);
    var n := CreateIn(s, plan, newId, now).0;
    assert n == s + [Created(plan, newId, now).value];
    if Fresh(s, Create(plan, newId, now)) {
      CreateKept(s, plan, newId, now);
      ReloadUnchanged(n);
    } else {
      var i :| 0 <= i < |s| && s[i].id == Lower(newId);
      AppendRefused(s, Created(plan, newId, now).value, i);
    }
  }
}
