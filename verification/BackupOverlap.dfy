/**
 Backups nothing is wrong with: every source is unchanged, no other operation is in the way, every job
 succeeds.  Calls that never overlap cannot fail one, whatever dies and whenever they come.  Calls that
 overlap can fail every one, at any step, and a run does so only where a verification meets the active
 job of its own source.
 */
module BackupOverlap {
  import opened Common
  import opened Texts
  import opened BackupPlan
  import opened BackupPlanTheorems
  import opened BackupOperation
  import opened BackupProtocol
  import opened BackupProtocolSafety
  import opened BackupLiveness

  // ---- favourable runs -------------------------------------------------------

  predicate HealthyJob(j: ChildJob) { !j.status.JobFailed? && !j.status.JobCancelled? }

  predicate Favours(w: World, a: Action) {
    match a
    case Resume(_, c) => Favourable(c)
    case MoveJob(_, next) => HealthyJob(next)
    case Spawn => true
    case Die(_) => true
  }

  predicate FavourableRun(w: World, actions: seq<Action>)
    decreases |actions|
  {
    actions == [] || (Favours(w, actions[0]) && FavourableRun(Perform(w, actions[0]), actions[1..]))
  }

  predicate AllDone(threads: seq<Thread>) { forall i | 0 <= i < |threads| :: threads[i].Done? }

  /** A favourable run in which a call starts only when every earlier one has returned or died. */
  predicate InTurn(w: World, actions: seq<Action>)
    decreases |actions|
  {
    actions == []
    || (Favours(w, actions[0]) && (actions[0].Spawn? ==> AllDone(w.threads))
        && InTurn(Perform(w, actions[0]), actions[1..]))
  }

  // ---- what a favourable run keeps while no verification meets a busy database

  predicate Calm(t: Thread) { !t.Failing? }

  ghost predicate Healthy(w: World) {
    && Safe(w) && AllChildren(w.op.plan) && !w.op.status.Failed?
    && (forall j | 0 <= j < |w.jobs| :: HealthyJob(w.jobs[j]))
    && (forall i | 0 <= i < |w.threads| :: Calm(w.threads[i]))
  }

  lemma JudgedCalm(serverId: Text, planned: Step, k: nat, ref: WorkRef, j: ChildJob, c: Choice)
    requires HealthyJob(j) && Stored(j) && j.request == RequestFor(serverId, planned)
    ensures Calm(Judge(k, ref, planned, j, c))
  {
    if j.status.JobSucceeded? { StoredYields(planned, serverId, j); }
  }

  /** A verification that meets an active job of its source, its own step's or another's. */
  predicate Blocked(w: World, t: Thread) {
    t.Verifying? && t.k < |w.op.plan.steps| && SourceBusy(w.jobs, w.op.plan.steps[t.k])
  }

  lemma AskedStaysCalm(w: World, t: Thread, c: Choice)
    requires Sound(w.op, w.jobs) && ThreadOk(w.op, w.jobs, t) && AllChildren(w.op.plan) && Calm(t)
    requires AllStored(w.jobs) && forall j | 0 <= j < |w.jobs| :: HealthyJob(w.jobs[j])
    requires Favourable(c) && At(t) < |w.op.plan.steps| && !Blocked(w, t)
    ensures var (next, more) := Asked(w.op, w.jobs, t, c);
        Calm(next) && forall j | 0 <= j < |more| :: HealthyJob(more[j])
  {
    match t
    case Fetching =>
    case Looking(k, ref) => FoundCalm(w, k, ref, c);
    case Enqueuing(k, ref) => FoundCalm(w, k, ref, c);
    case _ =>
  }

  lemma FoundCalm(w: World, k: nat, ref: WorkRef, c: Choice)
    requires Sound(w.op, w.jobs) && k < |w.op.plan.steps|
    requires AllStored(w.jobs) && forall j | 0 <= j < |w.jobs| :: HealthyJob(w.jobs[j])
    ensures var found := FindJob(w.jobs, w.op.plan.steps[k].stepDigest);
      found.Some? ==> w.jobs[found.value].request == RequestFor(w.op.serverId, w.op.plan.steps[k])
                      && Calm(Judge(k, ref, w.op.plan.steps[k], w.jobs[found.value], c))
  {
    var found := FindJob(w.jobs, w.op.plan.steps[k].stepDigest);
    if found.Some? {
      OwnJob(w.op, w.jobs, k, found.value);
      JudgedCalm(w.op.serverId, w.op.plan.steps[k], k, ref, w.jobs[found.value], c);
    }
  }

  /** A registry's answer leads a call to a loop head, a lookup or its end. */
  lemma ResumedWhere(n: Operation, t: Thread)
    ensures var r := Resumed(n, t); Calm(r) && !r.Verifying? && !r.Enqueuing?
  {
  }

  lemma CalledNotFailed(o: Operation, t: Thread, c: Choice)
    requires Aligned(o) && !o.status.Failed? && Calm(t) && At(t) < |o.steps| && Called(o, t, c).Some?
    requires Called(o, t, c).value.Ok?
    ensures var n := Called(o, t, c).value.value; n.plan == o.plan && !n.status.Failed?
  {
    match t
    case Starting => StartMoves(o, c.now);
    case Linking(k) => LinkMoves(o, k, Intent(o.plan.steps[k]), c.now);
    case LinkingLocal(k, ref) => LinkMoves(o, k, ref, c.now);
    case Succeeding(k, ref, e) => SuccessMoves(o, k, ref, NormalizeEvidence(e).value, c.now);
    case SucceedingLocal(k, ref, e) => SuccessMoves(o, k, ref, NormalizeEvidence(e).value, c.now);
  }

  lemma ResumeKeepsHealthy(w: World, i: nat, c: Choice)
    requires Healthy(w) && i < |w.threads| && Favourable(c)
    requires !Blocked(w, w.threads[i])
    ensures Healthy(Act(w, i, c)) && Act(w, i, c).op.plan == w.op.plan
  {
    StepKeeps(w, i, c);
    var t := w.threads[i];
    assert ThreadOk(w.op, w.jobs, t);
    if At(t) < |w.op.plan.steps| {
      if Called(w.op, t, c).None? { AskedStaysCalm(w, t, c); }
      else if Called(w.op, t, c).value.Ok? {
        CalledNotFailed(w.op, t, c);
        ResumedWhere(Called(w.op, t, c).value.value, t);
      }
    }
  }

  lemma PerformKeepsHealthy(w: World, a: Action)
    requires Healthy(w) && Favours(w, a)
    requires a.Resume? && a.i < |w.threads| ==> !Blocked(w, w.threads[a.i])
    ensures Healthy(Perform(w, a)) && Perform(w, a).op.plan == w.op.plan
  {
    if a.Resume? {
      if a.i < |w.threads| { ResumeKeepsHealthy(w, a.i, a.choice); }
    } else {
      OthersKeepHealthy(w, a);
    }
  }

  lemma OthersKeepHealthy(w: World, a: Action)
    requires Healthy(w) && Favours(w, a) && !a.Resume?
    ensures Healthy(Perform(w, a)) && Perform(w, a).op == w.op
  {
    PerformKeeps(w, a);
    OthersStayCalm(w, a);
  }

  lemma OthersStayCalm(w: World, a: Action)
    requires Favours(w, a) && !a.Resume?
    requires (forall j | 0 <= j < |w.jobs| :: HealthyJob(w.jobs[j]))
    requires (forall i | 0 <= i < |w.threads| :: Calm(w.threads[i]))
    ensures var n := Perform(w, a);
      && n.op == w.op && (forall j | 0 <= j < |n.jobs| :: HealthyJob(n.jobs[j]))
      && (forall i | 0 <= i < |n.threads| :: Calm(n.threads[i]))
  {
  }

  // ---- calls in turn ---------------------------------------------------------

  /** At most one call is alive, and where it is about to verify or enqueue a step, that step has no job. */
  ghost predicate Alone(w: World) {
    && (forall i, j | 0 <= i < j < |w.threads| :: w.threads[i].Done? || w.threads[j].Done?)
    && (forall i | 0 <= i < |w.threads| :: Unserved(w, w.threads[i]))
  }

  predicate Unserved(w: World, t: Thread) {
    (t.Verifying? || t.Enqueuing?) && t.k < |w.op.plan.steps| ==>
      forall j | 0 <= j < |w.jobs| :: w.jobs[j].request.key != w.op.plan.steps[t.k].stepDigest
  }

  lemma NotYetSucceeded(o: Operation, jobs: seq<ChildJob>, k: nat)
    requires Evidenced(o, jobs) && k < |o.steps| && k < |o.plan.steps| && IsChild(o.plan.steps[k])
    requires forall j | 0 <= j < |jobs| :: jobs[j].request.key != o.plan.steps[k].stepDigest
    ensures !o.steps[k].status.StepSucceeded?
  {
  }

  lemma JobOfSucceeded(o: Operation, jobs: seq<ChildJob>, m: nat, j: nat)
    requires Serving(o, jobs) && Evidenced(o, jobs) && m < |o.steps| && m < |o.plan.steps| && IsChild(o.plan.steps[m])
    requires o.steps[m].status.StepSucceeded? && j < |jobs| && jobs[j].request.key == o.plan.steps[m].stepDigest
    ensures jobs[j].status.JobSucceeded?
  {
    assert Backed(jobs, o.plan.steps[m], o.steps[m].evidence.value);
    var b :| 0 <= b < |jobs| && jobs[b].request.key == o.plan.steps[m].stepDigest && jobs[b].status.JobSucceeded?;
    assert b == j;
  }

  lemma OtherIsSucceeded(o: Operation, k: nat, m: nat)
    requires Shape(o.steps) && k < |o.steps| && m < |o.steps| && m != k
    requires !o.steps[k].status.Pending? && !o.steps[k].status.StepSucceeded? && !o.steps[m].status.Pending?
    ensures o.steps[m].status.StepSucceeded?
  {
  }

  predicate Idle(jobs: seq<ChildJob>) { forall j | 0 <= j < |jobs| :: !JobActive(jobs[j]) }

  /** While the open step has no job, every job has succeeded: nothing keeps any source busy. */
  lemma NothingActive(o: Operation, jobs: seq<ChildJob>, k: nat)
    requires Sound(o, jobs) && k < |o.steps| && !o.steps[k].status.Pending? && IsChild(o.plan.steps[k])
    requires forall j | 0 <= j < |jobs| :: jobs[j].request.key != o.plan.steps[k].stepDigest
    ensures Idle(jobs)
  {
    NotYetSucceeded(o, jobs, k);
    forall j | 0 <= j < |jobs| ensures !JobActive(jobs[j]) {
      assert Served(o, jobs[j]);
      var m: nat :| ServesStep(o, jobs[j], m);
      OtherIsSucceeded(o, k, m);
      JobOfSucceeded(o, jobs, m, j);
    }
  }

  /** Only a lookup that found no job leads to a verification, and only a verification to an enqueue. */
  lemma AskedStaysUnserved(w: World, t: Thread, c: Choice)
    requires At(t) < |w.op.plan.steps| && Favourable(c) && Unserved(w, t)
    ensures var (next, more) := Asked(w.op, w.jobs, t, c); Unserved(World(w.op, more, []), next)
  {
    if t.Looking? { NoJobOrFound(w.jobs, w.op.plan.steps[t.k].stepDigest); }
    if t.Fetching? { DecideWhere(w.op); }
  }

  lemma DecideWhere(o: Operation)
    ensures !Decide(o).Verifying? && !Decide(o).Enqueuing?
  {
  }

  /** One step of one call touches no other call. */
  lemma ActTouchesOne(w: World, i: nat, c: Choice)
    requires i < |w.threads|
    ensures var n := Act(w, i, c);
      |n.threads| == |w.threads| && forall j | 0 <= j < |w.threads| && j != i :: n.threads[j] == w.threads[j]
    ensures w.threads[i].Done? ==> Act(w, i, c).threads[i] == w.threads[i] && Act(w, i, c).jobs == w.jobs
  {
  }

  lemma ActStaysUnserved(w: World, i: nat, c: Choice)
    requires OpSame(w, i, c) && i < |w.threads| && Favourable(c) && Unserved(w, w.threads[i])
    ensures Unserved(Act(w, i, c), Act(w, i, c).threads[i])
  {
    var t := w.threads[i];
    if At(t) < |w.op.plan.steps| {
      if Called(w.op, t, c).None? {
        AskedStaysUnserved(w, t, c);
      } else if Called(w.op, t, c).value.Ok? {
        ResumedWhere(Called(w.op, t, c).value.value, t);
      }
    }
  }

  /** The plan an operation carries is not what a step changes. */
  predicate OpSame(w: World, i: nat, c: Choice) {
    i < |w.threads| && Act(w, i, c).op.plan == w.op.plan
  }

  lemma ActKeepsAlone(w: World, i: nat, c: Choice)
    requires Alone(w) && i < |w.threads| && Favourable(c) && OpSame(w, i, c)
    ensures Alone(Act(w, i, c))
  {
    var n := Act(w, i, c);
    ActTouchesOne(w, i, c);
    if !w.threads[i].Done? {
      assert Unserved(w, w.threads[i]);
      ActStaysUnserved(w, i, c);
      forall j | 0 <= j < |n.threads| ensures Unserved(n, n.threads[j]) {
        if j != i { assert n.threads[j].Done?; }
      }
    } else {
      forall j | 0 <= j < |n.threads| ensures Unserved(n, n.threads[j]) {
        assert Unserved(w, w.threads[j]) && n.threads[j] == w.threads[j];
      }
    }
  }

  lemma NoJobOrFound(jobs: seq<ChildJob>, key: Digest)
    ensures FindJob(jobs, key).Some? || forall j | 0 <= j < |jobs| :: jobs[j].request.key != key
  {
    if FindJob(jobs, key).None? { NoJobOfKey(jobs, key); }
  }

  /** A verification in turn finds its source idle. */
  lemma NotBlocked(w: World, t: Thread)
    requires Sound(w.op, w.jobs) && ThreadOk(w.op, w.jobs, t) && Unserved(w, t)
    ensures !Blocked(w, t)
  {
    if t.Verifying? { NothingActive(w.op, w.jobs, t.k); }
  }

  lemma ResumeInTurn(w: World, i: nat, c: Choice)
    requires Healthy(w) && Alone(w) && i < |w.threads| && Favourable(c)
    ensures Healthy(Act(w, i, c)) && Alone(Act(w, i, c)) && Act(w, i, c).op.plan == w.op.plan
  {
    NotBlocked(w, w.threads[i]) by { assert ThreadOk(w.op, w.jobs, w.threads[i]) && Unserved(w, w.threads[i]); }
    ResumeKeepsHealthy(w, i, c);
    ActKeepsAlone(w, i, c);
  }

  lemma MoveJobInTurn(w: World, j: nat, next: ChildJob)
    requires Alone(w) && j < |w.jobs| && JobMoves(w.jobs[j], next)
    ensures Alone(w.(jobs := w.jobs[j := next]))
  {
    forall i | 0 <= i < |w.threads| ensures Unserved(w.(jobs := w.jobs[j := next]), w.threads[i]) {
      assert Unserved(w, w.threads[i]);
    }
  }

  lemma ThreadsInTurn(w: World)
    requires Alone(w)
    ensures AllDone(w.threads) ==> Alone(w.(threads := w.threads + [Fetching]))
    ensures forall i | 0 <= i < |w.threads| :: Alone(Perform(w, Die(i)))
  {
    forall i | 0 <= i < |w.threads| ensures Alone(Perform(w, Die(i))) {
      var n := Perform(w, Die(i));
      forall j | 0 <= j < |n.threads| ensures Unserved(n, n.threads[j]) {
        if j != i { assert Unserved(w, w.threads[j]); }
      }
    }
  }

  lemma TurnKeepsAlone(w: World, a: Action)
    requires Alone(w) && !a.Resume? && (a.Spawn? ==> AllDone(w.threads))
    ensures Alone(Perform(w, a)) && Perform(w, a).op == w.op
  {
    match a
    case MoveJob(j, next) => if j < |w.jobs| && JobMoves(w.jobs[j], next) { MoveJobInTurn(w, j, next); }
    case Spawn => ThreadsInTurn(w);
    case Die(i) => ThreadsInTurn(w);
  }

  lemma TurnKeeps(w: World, a: Action)
    requires Healthy(w) && Alone(w) && Favours(w, a) && (a.Spawn? ==> AllDone(w.threads))
    ensures Healthy(Perform(w, a)) && Alone(Perform(w, a)) && Perform(w, a).op.plan == w.op.plan
  {
    if a.Resume? {
      if a.i < |w.threads| { ResumeInTurn(w, a.i, a.choice); }
    } else {
      TurnKeepsAlone(w, a);
      PerformKeepsHealthy(w, a);
    }
  }

  lemma {:induction false} TurnsKeep(w: World, actions: seq<Action>)
    requires Healthy(w) && Alone(w) && InTurn(w, actions)
    ensures Healthy(Play(w, actions)) && Alone(Play(w, actions)) && Play(w, actions).op.plan == w.op.plan
    decreases |actions|
  {
    if actions != [] {
      TurnKeeps(w, actions[0]);
      TurnsKeep(Perform(w, actions[0]), actions[1..]);
    }
  }

  /**
   Calls in turn never fail a healthy backup: not when they die at any await, not when they come while
   a job is queued or running.
   */
  lemma InTurnNeverFails(o: Operation, actions: seq<Action>)
    requires Settled(o) && o.status.Queued? && AllChildren(o.plan) && InTurn(World(o, [], []), actions)
    ensures !Play(World(o, [], []), actions).op.status.Failed?
  {
    NewOperationSafe(o);
    TurnsKeep(World(o, [], []), actions);
  }

  // ---- building runs ---------------------------------------------------------

  ghost predicate LeadsInTurn(w: World, v: World) { exists actions :: InTurn(w, actions) && Play(w, actions) == v }

  ghost predicate Leads(w: World, v: World) { exists actions :: FavourableRun(w, actions) && Play(w, actions) == v }

  lemma {:induction false} TurnsExtend(w: World, actions: seq<Action>, a: Action)
    requires InTurn(w, actions)
    requires Favours(Play(w, actions), a) && (a.Spawn? ==> AllDone(Play(w, actions).threads))
    ensures InTurn(w, actions + [a]) && Play(w, actions + [a]) == Perform(Play(w, actions), a)
    decreases |actions|
  {
    if actions == [] {
      assert (actions + [a])[1..] == [];
    } else {
      assert (actions + [a])[0] == actions[0] && (actions + [a])[1..] == actions[1..] + [a];
      TurnsExtend(Perform(w, actions[0]), actions[1..], a);
    }
  }

  lemma {:induction false} RunExtends(w: World, actions: seq<Action>, a: Action)
    requires FavourableRun(w, actions) && Favours(Play(w, actions), a)
    ensures FavourableRun(w, actions + [a]) && Play(w, actions + [a]) == Perform(Play(w, actions), a)
    decreases |actions|
  {
    if actions == [] {
      assert (actions + [a])[1..] == [];
    } else {
      assert (actions + [a])[0] == actions[0] && (actions + [a])[1..] == actions[1..] + [a];
      RunExtends(Perform(w, actions[0]), actions[1..], a);
    }
  }

  lemma TurnOn(w: World, v: World, a: Action, x: World)
    requires LeadsInTurn(w, v) && Favours(v, a) && (a.Spawn? ==> AllDone(v.threads)) && Perform(v, a) == x
    ensures LeadsInTurn(w, x)
  {
    var actions :| InTurn(w, actions) && Play(w, actions) == v;
    TurnsExtend(w, actions, a);
  }

  lemma RunOn(w: World, v: World, a: Action, x: World)
    requires Leads(w, v) && Favours(v, a) && Perform(v, a) == x
    ensures Leads(w, x)
  {
    var actions :| FavourableRun(w, actions) && Play(w, actions) == v;
    RunExtends(w, actions, a);
  }

  lemma {:induction false} InTurnIsFavourable(w: World, actions: seq<Action>)
    requires InTurn(w, actions)
    ensures FavourableRun(w, actions)
    decreases |actions|
  {
    if actions != [] { InTurnIsFavourable(Perform(w, actions[0]), actions[1..]); }
  }

  const GOOD := Choice(0, Seen, true, Accepted, ID, WorkRef(Local, LocalId([])), None, FALLBACK)

  /** The last call takes a step that changes no operation. */
  lemma LastAsks(w: World, o: Operation, jobs: seq<ChildJob>, past: seq<Thread>, t: Thread, next: Thread,
                 more: seq<ChildJob>)
    requires LeadsInTurn(w, World(o, jobs, past + [t])) && At(t) < |o.plan.steps|
    requires Called(o, t, GOOD).None? && Asked(o, jobs, t, GOOD) == (next, more)
    ensures LeadsInTurn(w, World(o, more, past + [next]))
  {
    assert (past + [t])[|past| := next] == past + [next];
    TurnOn(w, World(o, jobs, past + [t]), Resume(|past|, GOOD), World(o, more, past + [next]));
  }

  /** The last call gets the registry's answer. */
  lemma LastCalls(w: World, o: Operation, jobs: seq<ChildJob>, past: seq<Thread>, t: Thread, n: Operation)
    requires LeadsInTurn(w, World(o, jobs, past + [t])) && At(t) < |o.plan.steps| && Called(o, t, GOOD) == Some(Ok(n))
    ensures LeadsInTurn(w, World(n, jobs, past + [Resumed(n, t)]))
  {
    assert (past + [t])[|past| := Resumed(n, t)] == past + [Resumed(n, t)];
    TurnOn(w, World(o, jobs, past + [t]), Resume(|past|, GOOD), World(n, jobs, past + [Resumed(n, t)]));
  }

  lemma TurnsReach(w: World, v: World)
    requires Healthy(w) && Alone(w) && LeadsInTurn(w, v)
    ensures Healthy(v) && Alone(v) && v.op.plan == w.op.plan
  {
    var actions :| InTurn(w, actions) && Play(w, actions) == v;
    TurnsKeep(w, actions);
  }

  // ---- a job that runs and succeeds ------------------------------------------

  /** The job as an agent leaves it that did what the step asked for. */
  function Completed(s: Step, j: ChildJob): ChildJob
    requires IsChild(s)
  {
    var result :=
      if s.core.input.MailInput? then
        MailResult(s.core.input.mailDomainId, s.core.input.scope, s.core.input.mailIdentity,
                   s.core.input.snapshotSha256, j.id, 0, 1)
      else DatabaseResult(if s.core.input.DatabaseInput? then s.core.input.databaseName
                          else [], j.id, 0, 1, Stamp(0, true));
    j.(status := JobSucceeded, result := Some(result), finishedAt := Some(Stamp(0, true)))
  }

  lemma CompletedStored(o: Operation, k: nat, j: ChildJob)
    requires Settled(o) && k < |o.plan.steps| && IsChild(o.plan.steps[k]) && Apart(o.plan)
    requires j.request == RequestFor(o.serverId, o.plan.steps[k])
    ensures Stored(Completed(o.plan.steps[k], j))
  {
    StepsPointwise(o.plan.steps, o.plan.serverId, o.plan.previewDigest);
    CompletedSanitised(o.plan.steps[k], o.plan.serverId, o.plan.previewDigest, j);
  }

  lemma CompletedSanitised(s: Step, serverId: Text, preview: Digest, j: ChildJob)
    requires NormalizeStep(s, serverId, preview) == Some(s) && IsChild(s) && j.request == RequestFor(serverId, s)
    ensures Stored(Completed(s, j))
  {
    assert forall i | 0 <= i < 36 :: UuidChar(i, j.id[i]);
  }

  lemma JobCompletes(w: World, o: Operation, jobs: seq<ChildJob>, threads: seq<Thread>, k: nat, j: nat)
    requires LeadsInTurn(w, World(o, jobs, threads)) && Settled(o) && Apart(o.plan)
    requires k < |o.plan.steps| && IsChild(o.plan.steps[k])
    requires j < |jobs| && jobs[j].request == RequestFor(o.serverId, o.plan.steps[k]) && JobActive(jobs[j])
    ensures LeadsInTurn(w, World(o, jobs[j := Completed(o.plan.steps[k], jobs[j])], threads))
  {
    var done := Completed(o.plan.steps[k], jobs[j]);
    CompletedStored(o, k, jobs[j]);
    if jobs[j].status.JobQueued? {
      var running := jobs[j].(status := JobRunning);
      TurnOn(w, World(o, jobs, threads), MoveJob(j, running), World(o, jobs[j := running], threads));
      assert jobs[j := running][j := done] == jobs[j := done];
      TurnOn(w, World(o, jobs[j := running], threads), MoveJob(j, done), World(o, jobs[j := done], threads));
    } else {
      TurnOn(w, World(o, jobs, threads), MoveJob(j, done), World(o, jobs[j := done], threads));
    }
  }

  // ---- one step after another ------------------------------------------------

  ghost predicate StepsReach(o: Operation, k: nat) {
    && o.status.Running? && k < |o.steps| && |o.steps| == |o.plan.steps|
    && (forall i | 0 <= i < k :: o.steps[i].status.StepSucceeded?)
    && (forall i | k < i < |o.steps| :: o.steps[i].status.Pending?)
  }

  /** Calls in turn from `w` have come to the open step `k`; the last call is at `t`, all others are over. */
  ghost predicate Stands(w: World, v: World, past: seq<Thread>, t: Thread, k: nat) {
    && Healthy(w) && Alone(w) && LeadsInTurn(w, v) && v.threads == past + [t] && AllDone(past) && StepsReach(v.op, k)
  }

  lemma StandsSound(w: World, v: World, past: seq<Thread>, t: Thread, k: nat)
    requires Stands(w, v, past, t, k)
    ensures Healthy(v) && Alone(v) && v.op.plan == w.op.plan && Settled(v.op) && Sound(v.op, v.jobs)
    ensures IsChild(v.op.plan.steps[k])
  {
    TurnsReach(w, v);
  }

  /** A pending step is linked. */
  lemma StepLinks(w: World, v: World, past: seq<Thread>, k: nat) returns (x: World)
    requires Stands(w, v, past, Linking(k), k) && v.op.steps[k].status.Pending?
    ensures x == World(WithLink(v.op, k, Intent(v.op.plan.steps[k]), 0), v.jobs,
                       past + [Looking(k, Intent(v.op.plan.steps[k]))])
    ensures Stands(w, x, past, Looking(k, Intent(v.op.plan.steps[k])), k) && x.op.steps[k].status.Dispatched?
  {
    StandsSound(w, v, past, Linking(k), k);
    var ref := Intent(v.op.plan.steps[k]);
    var n := WithLink(v.op, k, ref, 0);
    LinkMoves(v.op, k, ref, 0);
    LastCalls(w, v.op, v.jobs, past, Linking(k), n);
    x := World(n, v.jobs, past + [Looking(k, ref)]);
  }

  lemma SoundJobless(o: Operation, jobs: seq<ChildJob>, k: nat)
    requires Sound(o, jobs) && k < |o.steps| && o.steps[k].status.Pending?
    ensures forall j | 0 <= j < |jobs| :: jobs[j].request.key != o.plan.steps[k].stepDigest
  {
    forall j | 0 <= j < |jobs| ensures jobs[j].request.key != o.plan.steps[k].stepDigest { assert Served(o, jobs[j]); }
  }

  /** The three awaits from a lookup that finds nothing to a queued job. */
  lemma AwaitsToJob(o: Operation, jobs: seq<ChildJob>, k: nat)
    requires k < |o.plan.steps| && forall j | 0 <= j < |jobs| :: jobs[j].request.key != o.plan.steps[k].stepDigest
    requires Idle(jobs)
    ensures var ref, job := Intent(o.plan.steps[k]), NewJob(RequestFor(o.serverId, o.plan.steps[k]), GOOD);
      && Asked(o, jobs, Looking(k, ref), GOOD) == (Verifying(k, ref), jobs)
      && Asked(o, jobs, Verifying(k, ref), GOOD) == (Enqueuing(k, ref), jobs)
      && Asked(o, jobs, Enqueuing(k, ref), GOOD) == (Done(Returned), jobs + [job])
  {
    FindsNone(jobs, o.plan.steps[k].stepDigest);
  }

  /** A dispatched step without a job gets one, and the call returns. */
  lemma StepEnqueues(w: World, v: World, past: seq<Thread>, k: nat) returns (x: World)
    requires k < |v.op.plan.steps| && Stands(w, v, past, Looking(k, Intent(v.op.plan.steps[k])), k)
    requires v.op.steps[k].status.Dispatched?
    requires forall j | 0 <= j < |v.jobs| :: v.jobs[j].request.key != v.op.plan.steps[k].stepDigest
    ensures x == World(v.op, v.jobs + [NewJob(RequestFor(v.op.serverId, v.op.plan.steps[k]), GOOD)],
                       past + [Done(Returned)])
    ensures LeadsInTurn(w, x)
  {
    var o, jobs, ref := v.op, v.jobs, Intent(v.op.plan.steps[k]);
    var more := jobs + [NewJob(RequestFor(o.serverId, o.plan.steps[k]), GOOD)];
    NothingActive(o, jobs, k) by { StandsSound(w, v, past, Looking(k, ref), k); }
    AwaitsToJob(o, jobs, k);
    assert v == World(o, jobs, past + [Looking(k, ref)]);
    LastAsks(w, o, jobs, past, Looking(k, ref), Verifying(k, ref), jobs);
    LastAsks(w, o, jobs, past, Verifying(k, ref), Enqueuing(k, ref), jobs);
    LastAsks(w, o, jobs, past, Enqueuing(k, ref), Done(Returned), more);
    x := World(o, more, past + [Done(Returned)]);
  }

  lemma FetchLooks(o: Operation, jobs: seq<ChildJob>, k: nat, c: Choice)
    requires Sound(o, jobs) && StepsReach(o, k) && o.steps[k].status.Dispatched? && IsChild(o.plan.steps[k])
    ensures Asked(o, jobs, Fetching, c) == (Looking(k, Intent(o.plan.steps[k])), jobs)
  {
    FirstOpenAt(o.steps, k);
  }

  /** A new call on a dispatched step comes to look for its job. */
  lemma StepFetches(w: World, v: World, k: nat) returns (x: World)
    requires Healthy(w) && Alone(w) && LeadsInTurn(w, v) && AllDone(v.threads)
    requires StepsReach(v.op, k) && v.op.steps[k].status.Dispatched?
    ensures x == World(v.op, v.jobs, v.threads + [Looking(k, Intent(v.op.plan.steps[k]))])
    ensures Stands(w, x, v.threads, Looking(k, Intent(v.op.plan.steps[k])), k)
  {
    assert Sound(v.op, v.jobs) && IsChild(v.op.plan.steps[k]) by { TurnsReach(w, v); }
    FetchLooks(v.op, v.jobs, k, GOOD);
    TurnOn(w, v, Spawn, World(v.op, v.jobs, v.threads + [Fetching]));
    LastAsks(w, v.op, v.jobs, v.threads, Fetching, Looking(k, Intent(v.op.plan.steps[k])), v.jobs);
    x := World(v.op, v.jobs, v.threads + [Looking(k, Intent(v.op.plan.steps[k]))]);
  }

  /** The open step is recorded: where the last call goes next. */
  ghost predicate Advanced(w: World, v: World, k: nat, x: World, past: seq<Thread>) {
    if k + 1 < |v.op.steps| then Stands(w, x, past, Linking(k + 1), k + 1) && x.op.steps[k + 1].status.Pending?
        && |x.op.steps| == |v.op.steps|
    else LeadsInTurn(w, x) && x.op.status.Succeeded? && AllDone(x.threads)
  }

  /** A call finds the succeeded job of the open step and has evidence the registry takes. */
  lemma FindsEvidence(o: Operation, jobs: seq<ChildJob>, k: nat, j: nat)
    requires Sound(o, jobs) && k < |o.plan.steps| && j < |jobs| && Stored(jobs[j])
    requires jobs[j].request.key == o.plan.steps[k].stepDigest && jobs[j].status.JobSucceeded?
    ensures Yields(o.plan.steps[k], jobs[j])
    ensures var planned := o.plan.steps[k];
      Asked(o, jobs, Looking(k, Intent(planned)), GOOD)
      == (Succeeding(k, Intent(planned), EvidenceOf(planned, jobs[j]).value), jobs)
  {
    OwnJob(o, jobs, k, j);
    StoredYields(o.plan.steps[k], o.serverId, jobs[j]);
    FindsJob(jobs, j);
  }

  lemma Recorded(o: Operation, jobs: seq<ChildJob>, k: nat, e: Evidence)
    requires Sound(o, jobs) && StepsReach(o, k) && o.steps[k].status.Dispatched? && IsChild(o.plan.steps[k])
    requires NormalizeEvidence(e).Some?
    ensures Called(o, Succeeding(k, Intent(o.plan.steps[k]), e), GOOD)
        == Some(Ok(WithSuccess(o, k, NormalizeEvidence(e).value, 0)))
  {
    SuccessMoves(o, k, Intent(o.plan.steps[k]), NormalizeEvidence(e).value, 0);
  }

  lemma StepFinds(w: World, v: World, past: seq<Thread>, k: nat, j: nat) returns (e: Evidence)
    requires k < |v.op.plan.steps| && Stands(w, v, past, Looking(k, Intent(v.op.plan.steps[k])), k)
    requires j < |v.jobs| && v.jobs[j].request.key == v.op.plan.steps[k].stepDigest && v.jobs[j].status.JobSucceeded?
    ensures NormalizeEvidence(e).Some?
    ensures var t := Succeeding(k, Intent(v.op.plan.steps[k]), e);
        Stands(w, World(v.op, v.jobs, past + [t]), past, t, k)
  {
    var o, jobs, ref := v.op, v.jobs, Intent(v.op.plan.steps[k]);
    FindsEvidence(o, jobs, k, j) by { StandsSound(w, v, past, Looking(k, ref), k); assert Stored(jobs[j]); }
    e := EvidenceOf(o.plan.steps[k], jobs[j]).value;
    assert v == World(o, jobs, past + [Looking(k, ref)]);
    LastAsks(w, o, jobs, past, Looking(k, ref), Succeeding(k, ref, e), jobs);
  }

  /** A succeeded job of the open step is found, judged and recorded. */
  lemma StepRecords(w: World, v: World, past: seq<Thread>, k: nat, j: nat) returns (x: World)
    requires k < |v.op.plan.steps| && Stands(w, v, past, Looking(k, Intent(v.op.plan.steps[k])), k)
    requires v.op.steps[k].status.Dispatched?
    requires j < |v.jobs| && v.jobs[j].request.key == v.op.plan.steps[k].stepDigest && v.jobs[j].status.JobSucceeded?
    ensures Advanced(w, v, k, x, past)
  {
    var o, ref := v.op, Intent(v.op.plan.steps[k]);
    var e := StepFinds(w, v, past, k, j);
    var t, n := Succeeding(k, ref, e), WithSuccess(o, k, NormalizeEvidence(e).value, 0);
    assert Sound(o, v.jobs) && IsChild(o.plan.steps[k]) && Aligned(o) && AllChildren(o.plan) by {
      StandsSound(w, v, past, Looking(k, ref), k);
    }
    Recorded(o, v.jobs, k, e);
    assert Resumed(n, t) == Decide(n);
    LastCalls(w, o, v.jobs, past, t, n);
    x := World(n, v.jobs, past + [Decide(n)]);
    StepAdvances(w, v, past, k, NormalizeEvidence(e).value, x);
  }

  lemma StepAdvances(w: World, v: World, past: seq<Thread>, k: nat, e: Evidence, x: World)
    requires Healthy(w) && Alone(w) && AllDone(past) && StepsReach(v.op, k)
    requires Aligned(v.op) && AllChildren(v.op.plan) && x.op == WithSuccess(v.op, k, e, 0)
    requires LeadsInTurn(w, x) && x.threads == past + [Decide(x.op)]
    ensures Advanced(w, v, k, x, past)
  {
    RecordedDecides(v.op, k, e);
    if k + 1 < |v.op.steps| {
      StandsNext(w, past, x, k + 1);
    } else {
      assert x.threads == past + [Done(Returned)];
    }
  }

  lemma StandsNext(w: World, past: seq<Thread>, x: World, k: nat)
    requires Healthy(w) && Alone(w) && AllDone(past) && LeadsInTurn(w, x) && StepsReach(x.op, k)
    requires x.threads == past + [Decide(x.op)] && Decide(x.op) == Linking(k)
    ensures Stands(w, x, past, Linking(k), k)
  {
  }

  lemma RecordedDecides(o: Operation, k: nat, e: Evidence)
    requires Aligned(o) && AllChildren(o.plan) && StepsReach(o, k)
    ensures var n := WithSuccess(o, k, e, 0);
      if k + 1 < |o.steps| then StepsReach(n, k + 1) && n.steps[k + 1].status.Pending? && Decide(n) == Linking(k + 1)
      else n.status.Succeeded? && Decide(n) == Done(Returned)
  {
    var n := WithSuccess(o, k, e, 0);
    if k + 1 < |o.steps| {
      assert n.steps[k + 1] == o.steps[k + 1];
      FirstOpenAt(n.steps, k + 1);
    }
  }

  /** The open step's job, wherever it stands, has run and succeeded. */
  lemma StepRuns(w: World, v: World, k: nat, j: nat) returns (x: World)
    requires Healthy(w) && Alone(w) && LeadsInTurn(w, v) && AllDone(v.threads) && StepsReach(v.op, k)
    requires v.op.steps[k].status.Dispatched?
    requires j < |v.jobs| && v.jobs[j].request.key == v.op.plan.steps[k].stepDigest
    ensures LeadsInTurn(w, x) && x.op == v.op && x.threads == v.threads && |x.jobs| == |v.jobs|
    ensures x.jobs[j].request.key == v.op.plan.steps[k].stepDigest && x.jobs[j].status.JobSucceeded?
  {
    TurnsReach(w, v);
    OwnJob(v.op, v.jobs, k, j);
    assert HealthyJob(v.jobs[j]);
    x := v;
    if JobActive(v.jobs[j]) {
      JobCompletes(w, v.op, v.jobs, v.threads, k, j);
      x := World(v.op, v.jobs[j := Completed(v.op.plan.steps[k], v.jobs[j])], v.threads);
    }
  }

  /** From a dispatched step with a job, one more call: the step is recorded. */
  lemma StepFinishes(w: World, v: World, k: nat, j: nat) returns (x: World, past: seq<Thread>)
    requires Healthy(w) && Alone(w) && LeadsInTurn(w, v) && AllDone(v.threads) && StepsReach(v.op, k)
    requires v.op.steps[k].status.Dispatched?
    requires j < |v.jobs| && v.jobs[j].request.key == v.op.plan.steps[k].stepDigest
    ensures Advanced(w, v, k, x, past)
  {
    var ran := StepRuns(w, v, k, j);
    var back := StepFetches(w, ran, k);
    past := ran.threads;
    x := StepRecords(w, back, past, k, j);
  }

  /** From a dispatched step without a job. */
  lemma StepDispatches(w: World, v: World, past: seq<Thread>, k: nat) returns (x: World, more: seq<Thread>)
    requires k < |v.op.plan.steps| && Stands(w, v, past, Looking(k, Intent(v.op.plan.steps[k])), k)
    requires v.op.steps[k].status.Dispatched?
    requires forall j | 0 <= j < |v.jobs| :: v.jobs[j].request.key != v.op.plan.steps[k].stepDigest
    ensures Advanced(w, v, k, x, more)
  {
    var queued := StepEnqueues(w, v, past, k);
    x, more := StepFinishes(w, queued, k, |v.jobs|);
  }

  /** From a pending step: it is linked, enqueued, run and recorded. */
  lemma StepPasses(w: World, v: World, past: seq<Thread>, k: nat) returns (x: World, more: seq<Thread>)
    requires Stands(w, v, past, Linking(k), k) && v.op.steps[k].status.Pending?
    ensures Advanced(w, v, k, x, more)
  {
    StandsSound(w, v, past, Linking(k), k);
    SoundJobless(v.op, v.jobs, k);
    var linked := StepLinks(w, v, past, k);
    x, more := StepDispatches(w, linked, past, k);
  }

  /** Calls in turn can come to any later step. */
  lemma {:induction false} StepsPass(w: World, v: World, past: seq<Thread>, k: nat, d: nat)
      returns (x: World, more: seq<Thread>)
    requires Stands(w, v, past, Linking(k), k) && v.op.steps[k].status.Pending? && k <= d < |v.op.steps|
    ensures Stands(w, x, more, Linking(d), d) && x.op.steps[d].status.Pending? && |x.op.steps| == |v.op.steps|
    decreases d - k
  {
    x, more := v, past;
    if k < d {
      x, more := StepPasses(w, v, past, k);
      x, more := StepsPass(w, x, more, k + 1, d);
    }
  }

  lemma StepsComplete(w: World, v: World, past: seq<Thread>, k: nat) returns (x: World)
    requires Stands(w, v, past, Linking(k), k) && v.op.steps[k].status.Pending?
    ensures LeadsInTurn(w, x) && x.op.status.Succeeded?
  {
    var n := |v.op.steps|;
    var last, more := StepsPass(w, v, past, k, n - 1);
    x, more := StepPasses(w, last, more, n - 1);
  }

  /** The first call on a queued operation. */
  lemma FirstLinks(w: World, v: World) returns (x: World)
    requires Healthy(w) && Alone(w) && LeadsInTurn(w, v) && AllDone(v.threads) && v.op.status.Queued?
    ensures Stands(w, x, v.threads, Linking(0), 0) && x.op.steps[0].status.Pending? && |x.op.steps| == |v.op.steps|
    ensures x.jobs == v.jobs
  {
    TurnsReach(w, v);
    var n := v.op.(status := Running, startedAt := Some(Stamp(0, true)));
    TurnOn(w, v, Spawn, World(v.op, v.jobs, v.threads + [Fetching]));
    LastAsks(w, v.op, v.jobs, v.threads, Fetching, Starting, v.jobs);
    FirstOpenAt(n.steps, 0);
    LastCalls(w, v.op, v.jobs, v.threads, Starting, n);
    x := World(n, v.jobs, v.threads + [Linking(0)]);
  }

  /** A call on a running operation whose open step is pending. */
  lemma NextLinks(w: World, v: World, k: nat) returns (x: World)
    requires Healthy(w) && Alone(w) && LeadsInTurn(w, v) && AllDone(v.threads) && StepsReach(v.op, k)
    requires v.op.steps[k].status.Pending?
    ensures Stands(w, x, v.threads, Linking(k), k) && x.op == v.op
  {
    TurnsReach(w, v);
    TurnOn(w, v, Spawn, World(v.op, v.jobs, v.threads + [Fetching]));
    FirstOpenAt(v.op.steps, k);
    LastAsks(w, v.op, v.jobs, v.threads, Fetching, Linking(k), v.jobs);
    x := World(v.op, v.jobs, v.threads + [Linking(k)]);
  }

  lemma OpenStep(v: World) returns (k: nat)
    requires Healthy(v) && v.op.status.Running?
    ensures StepsReach(v.op, k) && (v.op.steps[k].status.Pending? || v.op.steps[k].status.Dispatched?)
  {
    FirstOpenIsFirst(v.op.steps);
    k := FirstOpen(v.op.steps).value;
    assert !v.op.steps[k].status.StepFailed?;
  }

  /** Wherever calls in turn have left a running operation, more of them complete it. */
  lemma RunningCompletes(w: World, v: World) returns (x: World)
    requires Healthy(w) && Alone(w) && LeadsInTurn(w, v) && AllDone(v.threads) && v.op.status.Running?
    ensures LeadsInTurn(w, x) && x.op.status.Succeeded?
  {
    TurnsReach(w, v);
    var k := OpenStep(v);
    var past := v.threads;
    if v.op.steps[k].status.Pending? {
      x := NextLinks(w, v, k);
      x := StepsComplete(w, x, past, k);
    } else {
      if j :| 0 <= j < |v.jobs| && v.jobs[j].request.key == v.op.plan.steps[k].stepDigest {
        x, past := StepFinishes(w, v, k, j);
      } else {
        x := StepFetches(w, v, k);
        x, past := StepDispatches(w, x, past, k);
      }
      if k + 1 < |v.op.steps| { x := StepsComplete(w, x, past, k + 1); }
    }
  }

  /** From any state that calls in turn lead to; a call still alive may die there. */
  lemma Completes(v: World) returns (x: World)
    requires Healthy(v) && Alone(v)
    ensures LeadsInTurn(v, x) && x.op.status.Succeeded?
  {
    assert InTurn(v, []) && Play(v, []) == v;
    x := v;
    if i :| 0 <= i < |v.threads| && !v.threads[i].Done? {
      x := World(v.op, v.jobs, v.threads[i := Done(Refused)]);
      TurnOn(v, v, Die(i), x);
    }
    TurnsReach(v, x);
    if x.op.status.Queued? {
      var past := x.threads;
      x := FirstLinks(v, x);
      x := StepsComplete(v, x, past, 0);
    } else if x.op.status.Running? {
      x := RunningCompletes(v, x);
    }
  }

  lemma {:induction false} TurnsJoin(w: World, a: seq<Action>, b: seq<Action>)
    requires InTurn(w, a) && InTurn(Play(w, a), b)
    ensures InTurn(w, a + b) && Play(w, a + b) == Play(Play(w, a), b)
    decreases |a|
  {
    if a == [] {
      assert a + b == b;
    } else {
      assert (a + b)[0] == a[0] && (a + b)[1..] == a[1..] + b;
      TurnsJoin(Perform(w, a[0]), a[1..], b);
    }
  }

  /** Nor do calls in turn ever leave a healthy backup stuck: whatever has happened, it can still succeed. */
  lemma InTurnCanComplete(o: Operation, actions: seq<Action>) returns (more: seq<Action>)
    requires Settled(o) && o.status.Queued? && AllChildren(o.plan) && InTurn(World(o, [], []), actions)
    ensures InTurn(World(o, [], []), actions + more) && Play(World(o, [], []), actions + more).op.status.Succeeded?
  {
    var w := World(o, [], []);
    NewOperationSafe(o);
    TurnsKeep(w, actions);
    var x := Completes(Play(w, actions));
    more :| InTurn(Play(w, actions), more) && Play(Play(w, actions), more) == x;
    TurnsJoin(w, actions, more);
  }

  // ---- overlapping calls -----------------------------------------------------

  lemma LastAsksFreely(w: World, o: Operation, jobs: seq<ChildJob>, past: seq<Thread>, t: Thread, next: Thread)
    requires Leads(w, World(o, jobs, past + [t])) && At(t) < |o.plan.steps|
    requires Called(o, t, GOOD).None? && Asked(o, jobs, t, GOOD) == (next, jobs)
    ensures Leads(w, World(o, jobs, past + [next]))
  {
    assert (past + [t])[|past| := next] == past + [next];
    RunOn(w, World(o, jobs, past + [t]), Resume(|past|, GOOD), World(o, jobs, past + [next]));
  }

  /** The step is linked and a first call about to verify it. */
  lemma FirstVerifies(w: World, v: World, past: seq<Thread>, d: nat) returns (o: Operation)
    requires Stands(w, v, past, Linking(d), d) && v.op.steps[d].status.Pending?
    ensures o == WithLink(v.op, d, Intent(v.op.plan.steps[d]), 0) && Sound(o, v.jobs) && StepsReach(o, d)
    ensures o.steps[d].status.Dispatched?
    ensures Leads(w, World(o, v.jobs, past + [Verifying(d, Intent(v.op.plan.steps[d]))]))
    ensures Idle(v.jobs) && forall j | 0 <= j < |v.jobs| ::
        v.jobs[j].request.key != v.op.plan.steps[d].stepDigest
  {
    SoundJobless(v.op, v.jobs, d) by { StandsSound(w, v, past, Linking(d), d); }
    var linked := StepLinks(w, v, past, d);
    o := linked.op;
    var ref := Intent(o.plan.steps[d]);
    StandsSound(w, linked, past, Looking(d, ref), d);
    NothingActive(o, v.jobs, d);
    AwaitsToJob(o, v.jobs, d);
    var actions :| InTurn(w, actions) && Play(w, actions) == linked;
    InTurnIsFavourable(w, actions);
    LastAsksFreely(w, o, v.jobs, past, Looking(d, ref), Verifying(d, ref));
  }

  /** A second call comes to verify the same step, while the first has yet to enqueue its job. */
  lemma BothVerify(w: World, v: World, past: seq<Thread>, d: nat) returns (x: World)
    requires Stands(w, v, past, Linking(d), d) && v.op.steps[d].status.Pending?
    ensures var t := Verifying(d, Intent(v.op.plan.steps[d]));
      x == World(WithLink(v.op, d, Intent(v.op.plan.steps[d]), 0), v.jobs, past + [t] + [t])
    ensures Leads(w, x) && Sound(x.op, x.jobs) && x.op.steps[d].status.Dispatched? && StepsReach(x.op, d)
  {
    var jobs := v.jobs;
    var o := FirstVerifies(w, v, past, d);
    var ref := Intent(o.plan.steps[d]);
    var p := past + [Verifying(d, ref)];
    RunOn(w, World(o, jobs, p), Spawn, World(o, jobs, p + [Fetching]));
    FirstOpenAt(o.steps, d);
    assert IsChild(o.plan.steps[d]) by { StandsSound(w, v, past, Linking(d), d); }
    FetchLooks(o, jobs, d, GOOD);
    LastAsksFreely(w, o, jobs, p, Fetching, Looking(d, ref));
    AwaitsToJob(o, jobs, d);
    LastAsksFreely(w, o, jobs, p, Looking(d, ref), Verifying(d, ref));
    x := World(o, jobs, p + [Verifying(d, ref)]);
  }

  /** The first call enqueues the job between the two verifications. */
  lemma FirstEnqueues(w: World, both: World, past: seq<Thread>, d: nat) returns (x: World)
    requires d < |both.op.plan.steps| && Leads(w, both) && Idle(both.jobs)
    requires forall j | 0 <= j < |both.jobs| :: both.jobs[j].request.key != both.op.plan.steps[d].stepDigest
    requires both.threads == past + [Verifying(d, Intent(both.op.plan.steps[d]))]
        + [Verifying(d, Intent(both.op.plan.steps[d]))]
    ensures var job := NewJob(RequestFor(both.op.serverId, both.op.plan.steps[d]), GOOD);
      x == World(both.op, both.jobs + [job], past + [Done(Returned)] + [Verifying(d, Intent(both.op.plan.steps[d]))])
    ensures Leads(w, x)
  {
    var o, jobs, ref := both.op, both.jobs, Intent(both.op.plan.steps[d]);
    var t, job := Verifying(d, ref), NewJob(RequestFor(o.serverId, o.plan.steps[d]), GOOD);
    AwaitsToJob(o, jobs, d);
    var enqueuing := World(o, jobs, past + [Enqueuing(d, ref)] + [t]);
    assert (past + [t] + [t])[|past| := Enqueuing(d, ref)] == past + [Enqueuing(d, ref)] + [t];
    RunOn(w, both, Resume(|past|, GOOD), enqueuing);
    x := World(o, jobs + [job], past + [Done(Returned)] + [t]);
    assert enqueuing.threads[|past| := Done(Returned)] == past + [Done(Returned)] + [t];
    RunOn(w, enqueuing, Resume(|past|, GOOD), x);
  }

  /** The one enqueues the job; the other takes that very job for a conflict and fails the step. */
  lemma SecondFails(w: World, v: World, past: seq<Thread>, d: nat) returns (x: World)
    requires Stands(w, v, past, Linking(d), d) && v.op.steps[d].status.Pending?
    ensures Leads(w, x) && x.op.status.Failed?
    ensures |x.jobs| > 0 && x.jobs[|x.jobs| - 1] == NewJob(RequestFor(v.op.serverId, v.op.plan.steps[d]), GOOD)
  {
    SoundJobless(v.op, v.jobs, d) by { StandsSound(w, v, past, Linking(d), d); }
    var both := BothVerify(w, v, past, d);
    NothingActive(both.op, v.jobs, d) by { assert IsChild(both.op.plan.steps[d]); }
    var queued := FirstEnqueues(w, both, past, d);
    OwnRequestCompetes(v.op, d) by { StandsSound(w, v, past, Linking(d), d); }
    x := LastFails(w, queued, past + [Done(Returned)], d);
  }

  /** The job of a step stands in the step's own way. */
  lemma OwnRequestCompetes(o: Operation, d: nat)
    requires Settled(o) && d < |o.plan.steps| && IsChild(o.plan.steps[d])
    ensures Competes(RequestFor(o.serverId, o.plan.steps[d]), o.plan.steps[d])
  {
    ChildInput(o, d);
  }

  lemma LastFails(w: World, v: World, past: seq<Thread>, d: nat) returns (x: World)
    requires d < |v.op.plan.steps| && v.threads == past + [Verifying(d, Intent(v.op.plan.steps[d]))] && Leads(w, v)
    requires Aligned(v.op)
    requires v.op.status.Running? && d < |v.op.steps| && v.op.steps[d].status.Dispatched?
    requires v.op.steps[d].workRef == Some(Intent(v.op.plan.steps[d]))
    requires IsChild(v.op.plan.steps[d])
    requires |v.jobs| > 0 && v.jobs[|v.jobs| - 1].status.JobQueued?
    requires v.jobs[|v.jobs| - 1].request == RequestFor(v.op.serverId, v.op.plan.steps[d])
    requires Competes(v.jobs[|v.jobs| - 1].request, v.op.plan.steps[d])
    ensures Leads(w, x) && x.op.status.Failed? && x.jobs == v.jobs
  {
    var o, jobs, ref := v.op, v.jobs, Intent(v.op.plan.steps[d]);
    var t, failing := Verifying(d, ref), Failing(d, ref, SafeFailure(GOOD.failure));
    assert JobActive(jobs[|jobs| - 1]) && Competes(jobs[|jobs| - 1].request, o.plan.steps[d]);
    assert SourceBusy(jobs, o.plan.steps[d]);
    assert v == World(o, jobs, past + [t]);
    LastAsksFreely(w, o, jobs, past, t, failing);
    var n := WithFailure(o, d, SafeFailure(GOOD.failure), 0);
    FailureMoves(o, d, ref, SafeFailure(GOOD.failure), 0);
    assert (past + [failing])[|past| := Done(Returned)] == past + [Done(Returned)];
    x := World(n, jobs, past + [Done(Returned)]);
    RunOn(w, World(o, jobs, past + [failing]), Resume(|past|, GOOD), x);
  }

  /**
   Overlapping calls can fail every healthy backup, at any of its steps, while that step's job waits in
   the queue: the second verification counts the job that the first call has just queued.
   */
  lemma OverlapFails(o: Operation, d: nat) returns (actions: seq<Action>)
    requires Settled(o) && o.status.Queued? && AllChildren(o.plan) && d < |o.plan.steps|
    ensures FavourableRun(World(o, [], []), actions)
    ensures var x := Play(World(o, [], []), actions);
      && x.op.status.Failed? && |x.jobs| > 0
      && x.jobs[|x.jobs| - 1] == NewJob(RequestFor(o.serverId, o.plan.steps[d]), GOOD)
  {
    var w := World(o, [], []);
    NewOperationSafe(o);
    assert InTurn(w, []) && Play(w, []) == w;
    var v := FirstLinks(w, w);
    var past: seq<Thread>;
    v, past := StepsPass(w, v, [], 0, d);
    StandsSound(w, v, past, Linking(d), d);
    assert o.serverId == o.plan.serverId && v.op.serverId == v.op.plan.serverId;
    var x := SecondFails(w, v, past, d);
    actions :| FavourableRun(w, actions) && Play(w, actions) == x;
  }

  // ---- exactly which favourable runs fail ------------------------------------

  /** Somewhere in the run a verification is resumed that meets an active job of its source. */
  predicate MeetsBusySource(w: World, actions: seq<Action>)
    decreases |actions|
  {
    actions != []
    && ((actions[0].Resume? && actions[0].i < |w.threads| && Blocked(w, w.threads[actions[0].i]))
        || MeetsBusySource(Perform(w, actions[0]), actions[1..]))
  }

  predicate SomeFailing(w: World) { exists i | 0 <= i < |w.threads| :: w.threads[i].Failing? }

  /** Somewhere in the run a call is about to record a failure. */
  predicate ComesToFail(w: World, actions: seq<Action>)
    decreases |actions|
  {
    SomeFailing(w) || (actions != [] && ComesToFail(Perform(w, actions[0]), actions[1..]))
  }

  lemma BlockedFails(w: World, i: nat, c: Choice)
    requires i < |w.threads| && Blocked(w, w.threads[i])
    ensures SomeFailing(Act(w, i, c))
  {
    assert Act(w, i, c).threads[i].Failing?;
  }

  lemma FailsAtOnce(w: World, actions: seq<Action>)
    requires SomeFailing(w)
    ensures ComesToFail(w, actions)
  {
  }

  /** A favourable run comes to fail a step if and only if it resumes a verification that meets a busy source. */
  lemma {:induction false} ComesToFailIff(w: World, actions: seq<Action>)
    requires Healthy(w) && FavourableRun(w, actions)
    ensures ComesToFail(w, actions) <==> MeetsBusySource(w, actions)
    ensures Play(w, actions).op.status.Failed? ==> MeetsBusySource(w, actions)
    decreases |actions|
  {
    if actions != [] {
      var a := actions[0];
      if a.Resume? && a.i < |w.threads| && Blocked(w, w.threads[a.i]) {
        BlockedFails(w, a.i, a.choice);
        FailsAtOnce(Perform(w, a), actions[1..]);
      } else {
        PerformKeepsHealthy(w, a);
        ComesToFailIff(Perform(w, a), actions[1..]);
      }
    }
  }

  /**
   When calls overlap: every backup nothing is wrong with can end failed, and a favourable run comes to
   fail one exactly where a verification meets an active job of its own source.
   */
  lemma OverlapFailsExactly(o: Operation, actions: seq<Action>)
    requires Settled(o) && o.status.Queued? && AllChildren(o.plan) && FavourableRun(World(o, [], []), actions)
    ensures exists run :: FavourableRun(World(o, [], []), run) && Play(World(o, [], []), run).op.status.Failed?
    ensures ComesToFail(World(o, [], []), actions) <==> MeetsBusySource(World(o, [], []), actions)
    ensures Play(World(o, [], []), actions).op.status.Failed? ==> MeetsBusySource(World(o, [], []), actions)
  {
    NewOperationSafe(o);
    var run := OverlapFails(o, 0);
    ComesToFailIff(World(o, [], []), actions);
  }
}
