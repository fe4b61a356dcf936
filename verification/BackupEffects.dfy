/** What the backup registry remembers, told by how it answers the same call again. */
module BackupEffects {
  import opened Common
  import opened Texts
  import opened BackupPlan
  import opened BackupOperation
  import opened BackupStore
  import opened BackupProtocolSafety

  lemma StepPlaced(o: Operation, k: nat)
    requires Settled(o) && k < |o.steps|
    ensures FindStep(o.steps, o.steps[k].stepId) == Some(k)
  {
    SettledIds(o);
    FindsStep(o.steps, k);
  }

  lemma StillPlaced(o: Operation, n: Operation, k: nat)
    requires Settled(o) && k < |o.steps| && |n.steps| == |o.steps|
    requires forall i | 0 <= i < |o.steps| :: n.steps[i].stepId == o.steps[i].stepId
    ensures FindStep(n.steps, o.steps[k].stepId) == Some(k)
  {
    SettledIds(o);
    FindsStep(n.steps, k);
  }

  /** Only step `k` moved; the plan and every other step are as they were. */
  ghost predicate OnlyStep(o: Operation, n: Operation, k: nat) {
    && n.plan == o.plan && n.id == o.id && n.serverId == o.serverId && |n.steps| == |o.steps|
    && (forall i | 0 <= i < |o.steps| && i != k :: n.steps[i] == o.steps[i])
  }

  /** A link is remembered: made again with the same reference it changes nothing, with another one it is refused. */
  lemma LinkRemembered(o: Operation, k: nat, ref: WorkRef, now: int, again: WorkRef, later: int)
    requires Settled(o) && k < |o.steps| && o.steps[k].status.Pending? && Linked(o, o.steps[k].stepId, ref, now).Ok?
    ensures var n := Linked(o, o.steps[k].stepId, ref, now).value;
      && OnlyStep(o, n, k) && n.steps[k].status.Dispatched? && n.steps[k].workRef == Some(ref) && n.status.Running?
      && Linked(n, o.steps[k].stepId, again, later) == if again == ref then Ok(n) else Err(AlreadyDispatched)
  {
    StepPlaced(o, k);
    var n := Linked(o, o.steps[k].stepId, ref, now).value;
    StillPlaced(o, n, k);
  }

  /** So is the evidence of a success. */
  lemma SuccessRemembered(o: Operation, k: nat, ref: WorkRef, e: Evidence, now: int, ref2: WorkRef, e2: Evidence,
                          later: int)
    requires Settled(o) && k < |o.steps| && o.steps[k].status.Dispatched?
    requires StepCompleted(o, o.steps[k].stepId, ref, e, now).Ok?
    ensures var n := StepCompleted(o, o.steps[k].stepId, ref, e, now).value;
      && OnlyStep(o, n, k) && n.steps[k].status.StepSucceeded? && n.steps[k].evidence == Some(e)
          && n.steps[k].workRef == Some(ref)
      && (n.status.Succeeded? <==> AllSucceeded(n.steps)) && (!n.status.Succeeded? ==> n.status.Running?)
      && StepCompleted(n, o.steps[k].stepId, ref2, e2, later) == if ref2 == ref && e2 == e then Ok(n)
          else Err(CompletionConflict)
  {
    StepPlaced(o, k);
    var n := StepCompleted(o, o.steps[k].stepId, ref, e, now).value;
    StillPlaced(o, n, k);
  }

  /** And the error of a failure, which is also the operation's. */
  lemma FailureRemembered(o: Operation, k: nat, ref: WorkRef, f: Failure, now: int, ref2: WorkRef, f2: Failure,
                          later: int)
    requires Settled(o) && k < |o.steps| && o.steps[k].status.Dispatched?
    requires StepFailing(o, o.steps[k].stepId, ref, f, now).Ok?
    ensures var n := StepFailing(o, o.steps[k].stepId, ref, f, now).value;
      && OnlyStep(o, n, k) && n.steps[k].status.StepFailed? && n.steps[k].error == Some(f)
          && n.steps[k].workRef == Some(ref)
      && n.status.Failed? && n.error == Some(f)
      && StepFailing(n, o.steps[k].stepId, ref2, f2, later) == if ref2 == ref && f2 == f then Ok(n)
          else Err(CompletionConflict)
  {
    StepPlaced(o, k);
    var n := StepFailing(o, o.steps[k].stepId, ref, f, now).value;
    StillPlaced(o, n, k);
  }

  // ---- creation --------------------------------------------------------------

  /** A plan is created once: whoever asks again, with whatever id, is given the operation that is there. */
  lemma CreationRemembered(s: Store, plan: Plan, newId: Text, now: int, otherId: Text, later: int)
    requires StoreOk(s) && NormalizePlan(plan) == Some(plan) && Fresh(s, Create(plan, newId, now))
    requires CreateIn(s, plan, newId, now).1.Ok?
    ensures var (n, r) := CreateIn(s, plan, newId, now);
      && r.value.plan == plan && r.value in n && CreateIn(n, plan, otherId, later) == (n, r)
  {
    CreateKept(s, plan, newId, now);
    var (n, r) := CreateIn(s, plan, newId, now);
    if FindKey(s, plan.idempotencyKey).Some? {
      SamePlan(s[FindKey(s, plan.idempotencyKey).value], plan);
    } else {
      CreatedSettles(plan, newId, now);
      AppendedFound(s, r.value);
    }
  }

  lemma AppendedFound(s: Store, o: Operation)
    requires FindKey(s, o.idempotencyKey).None?
    ensures FindKey(s + [o], o.idempotencyKey) == Some(|s|)
  {
    var n := s + [o];
    assert n[|s|] == o;
    forall i | 0 <= i < |s| ensures n[i].idempotencyKey != o.idempotencyKey { assert n[i] == s[i]; }
  }

  lemma SamePlan(o: Operation, plan: Plan)
    requires Settled(o) && NormalizePlan(plan) == Some(plan) && o.idempotencyKey == plan.idempotencyKey
    ensures o.plan == plan
  {
  }
}
