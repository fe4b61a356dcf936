/** One undisturbed `advance` call after another: the loop as the orchestrator runs it, and what the calls achieve. */
module BackupAdvance {
  import opened Common
  import opened Texts
  import opened BackupPlan
  import opened BackupOperation
  import opened BackupProtocol
  import opened BackupProtocolSafety

  /** The only thread takes one step. */
  function Next(w: World, c: Choice): World { if |w.threads| == 1 then Act(w, 0, c) else w }

  /** Marks the awaits of a run, so that a run is only unfolded where one is named. */
  predicate Await(i: int) { true }

  /** `v` is reached from `w` between the awaits numbered `at` and `until`, which `env` answers. */
  ghost predicate Reaches(w: World, env: nat -> Choice, at: nat, until: nat, v: World) {
    exists trace: seq<World> :: IsRun(trace, env, at, until) && trace[0] == w && trace[until - at] == v
  }

  ghost predicate IsRun(trace: seq<World>, env: nat -> Choice, at: nat, until: nat) {
    && at <= until && |trace| == until - at + 1
    && forall i: nat {:trigger Await(i)} | at <= i < until && Await(i) ::
        trace[i - at + 1] == Next(trace[i - at], env(i))
  }

  lemma OneAwait(w: World, env: nat -> Choice, at: nat)
    ensures Reaches(w, env, at, at + 1, Next(w, env(at)))
  {
    assert IsRun([w, Next(w, env(at))], env, at, at + 1);
  }

  lemma NoAwait(w: World, env: nat -> Choice, at: nat)
    ensures Reaches(w, env, at, at, w)
  {
    assert IsRun([w], env, at, at);
  }

  lemma JoinRuns(first: seq<World>, second: seq<World>, env: nat -> Choice, at: nat, mid: nat, until: nat)
    requires IsRun(first, env, at, mid) && IsRun(second, env, mid, until) && first[mid - at] == second[0]
    ensures IsRun(first + second[1..], env, at, until)
  {
    var trace := first + second[1..];
    forall i: nat | at <= i < until && Await(i) ensures trace[i - at + 1] == Next(trace[i - at], env(i)) {
      if i >= mid { assert trace[i - at] == second[i - mid] && trace[i - at + 1] == second[i - mid + 1]; }
    }
  }

  lemma Then(w: World, v: World, x: World, env: nat -> Choice, at: nat, mid: nat, until: nat)
    requires Reaches(w, env, at, mid, v) && Reaches(v, env, mid, until, x)
    ensures Reaches(w, env, at, until, x)
  {
    var first: seq<World> :| IsRun(first, env, at, mid) && first[0] == w && first[mid - at] == v;
    var second: seq<World> :| IsRun(second, env, mid, until) && second[0] == v && second[until - mid] == x;
    JoinRuns(first, second, env, at, mid, until);
    var trace := first + second[1..];
    assert trace[until - at] == x by { if until > mid { assert trace[until - at] == second[until - mid]; } }
  }

  lemma Asks(o: Operation, jobs: seq<ChildJob>, t: Thread, env: nat -> Choice, at: nat)
    requires At(t) < |o.plan.steps| && Called(o, t, env(at)).None?
    ensures var (next, more) := Asked(o, jobs, t, env(at));
        Reaches(World(o, jobs, [t]), env, at, at + 1, World(o, more, [next]))
  {
    OneAwait(World(o, jobs, [t]), env, at);
  }

  lemma Calls(o: Operation, jobs: seq<ChildJob>, t: Thread, env: nat -> Choice, at: nat)
    requires At(t) < |o.plan.steps| && Called(o, t, env(at)).Some?
    ensures var r := Called(o, t, env(at)).value;
      Reaches(World(o, jobs, [t]), env, at, at + 1, if r.Ok? then World(r.value, jobs, [Resumed(r.value, t)])
              else World(o, jobs, [Done(Refused)]))
  {
    OneAwait(World(o, jobs, [t]), env, at);
  }

  function OpenSteps(steps: seq<StepState>): nat {
    if steps == [] then 0 else OpenSteps(steps[1..]) + if steps[0].status.StepSucceeded? then 0 else 1
  }

  lemma {:induction false} OpenStepsBound(steps: seq<StepState>)
    ensures OpenSteps(steps) <= |steps|
  {
    if steps != [] { OpenStepsBound(steps[1..]); }
  }

  lemma {:induction false} OpenStepCounts(steps: seq<StepState>, k: nat)
    requires k < |steps| && !steps[k].status.StepSucceeded?
    ensures OpenSteps(steps) >= 1
  {
    if k > 0 { OpenStepCounts(steps[1..], k - 1); }
  }

  lemma {:induction false} ClosingAStep(steps: seq<StepState>, k: nat, s: StepState)
    requires k < |steps| && !steps[k].status.StepSucceeded? && s.status.StepSucceeded?
    ensures OpenSteps(steps[k := s]) == OpenSteps(steps) - 1
  {
    if k == 0 {
      assert steps[k := s][1..] == steps[1..];
    } else {
      ClosingAStep(steps[1..], k - 1, s);
      assert steps[k := s][1..] == steps[1..][k - 1 := s];
    }
  }

  lemma {:induction false} OpeningKept(steps: seq<StepState>, k: nat, s: StepState)
    requires k < |steps| && !steps[k].status.StepSucceeded? && !s.status.StepSucceeded?
    ensures OpenSteps(steps[k := s]) == OpenSteps(steps)
  {
    if k == 0 {
      assert steps[k := s][1..] == steps[1..];
    } else {
      OpeningKept(steps[1..], k - 1, s);
      assert steps[k := s][1..] == steps[1..][k - 1 := s];
    }
  }

  // ---- the loop, as the orchestrator runs it ---------------------------------

  /** What the dispatcher leaves to do: judge a job, or fail the step because it threw. */
  function Answered(o: Operation, k: nat, ref: WorkRef, job: Option<ChildJob>, c: Choice): Thread
    requires k < |o.plan.steps|
  {
    if job.Some? then Judge(k, ref, o.plan.steps[k], job.value, c) else Failing(k, ref, SafeFailure(c.failure))
  }

  predicate IsAnswer(t: Thread, k: nat, ref: WorkRef) {
    match t
    case Done(outcome) => outcome.Returned?
    case Succeeding(i, r, _) => i == k && r == ref
    case Failing(i, r, _) => i == k && r == ref
    case _ => false
  }

  /** enqueue: the stored job of that key, or a new one; None where the queue refuses. */
  method EnqueuePrepared(o: Operation, queue: seq<ChildJob>, k: nat, ref: WorkRef, env: nat -> Choice, at: nat)
    returns (job: Option<ChildJob>, jobs: seq<ChildJob>)
    requires k < |o.plan.steps|
    ensures Reaches(World(o, queue, [Enqueuing(k, ref)]), env, at, at + 1,
                    World(o, jobs, [Answered(o, k, ref, job, env(at))]))
  {
    var request := RequestFor(o.serverId, o.plan.steps[k]);
    Asks(o, queue, Enqueuing(k, ref), env, at);
    jobs := queue;
    var existing := FindJob(queue, request.key);
    if existing.Some? {
      job := if queue[existing.value].request == request then Some(queue[existing.value]) else None;
      return;
    }
    var added := NewJob(request, env(at));
    if env(at).enqueue.Rejected? && !env(at).enqueue.recorded { return None, jobs; }
    jobs := queue + [added];
    job := if env(at).enqueue.Accepted? then Some(added) else None;
  }

  method VerifyAndEnqueue(o: Operation, queue: seq<ChildJob>, k: nat, ref: WorkRef, env: nat -> Choice, at: nat)
    returns (next: Thread, jobs: seq<ChildJob>, until: nat)
    requires k < |o.plan.steps|
    ensures at < until <= at + 2
    ensures IsAnswer(next, k, ref)
    ensures Reaches(World(o, queue, [Verifying(k, ref)]), env, at, until, World(o, jobs, [next]))
  {
    Asks(o, queue, Verifying(k, ref), env, at);
    if !env(at).sourceUnchanged || SourceBusy(queue, o.plan.steps[k]) {
      return Answered(o, k, ref, None, env(at)), queue, at + 1;
    }
    var job;
    job, jobs := EnqueuePrepared(o, queue, k, ref, env, at + 1);
    next, until := Answered(o, k, ref, job, env(at + 1)), at + 2;
    Then(World(o, queue, [Verifying(k, ref)]), World(o, queue, [Enqueuing(k, ref)]), World(o, jobs, [next]), env, at,
         at + 1, until);
  }

  /** reconcile, verify, enqueue: what the job, or the dispatcher's error, leads to. */
  method DispatchPrepared(o: Operation, queue: seq<ChildJob>, k: nat, ref: WorkRef, env: nat -> Choice, at: nat)
    returns (next: Thread, jobs: seq<ChildJob>, until: nat)
    requires k < |o.plan.steps|
    ensures at < until <= at + 3
    ensures IsAnswer(next, k, ref)
    ensures Reaches(World(o, queue, [Looking(k, ref)]), env, at, until, World(o, jobs, [next]))
  {
    Asks(o, queue, Looking(k, ref), env, at);
    var found := FindJob(queue, o.plan.steps[k].stepDigest);
    if ref == Intent(o.plan.steps[k]) && !env(at).lookup.Unavailable? && (found.None? || env(at).lookup.Missed?) {
      next, jobs, until := VerifyAndEnqueue(o, queue, k, ref, env, at + 1);
      Then(World(o, queue, [Looking(k, ref)]), World(o, queue, [Verifying(k, ref)]), World(o, jobs, [next]), env, at,
           at + 1, until);
      return;
    }
    var job := if ref == Intent(o.plan.steps[k]) && !env(at).lookup.Unavailable?
        && queue[found.value].request == RequestFor(o.serverId, o.plan.steps[k])
               then Some(queue[found.value]) else None;
    return Answered(o, k, ref, job, env(at)), queue, at + 1;
  }

  /** One registry call after which the call to advance is over. */
  method Finish(o: Operation, jobs: seq<ChildJob>, t: Thread, env: nat -> Choice, at: nat)
    returns (operation: Operation, outcome: Outcome)
    requires At(t) < |o.plan.steps| && (t.Failing? || t.SucceedingLocal?)
    ensures Reaches(World(o, jobs, [t]), env, at, at + 1, World(operation, jobs, [Done(outcome)]))
  {
    Calls(o, jobs, t, env, at);
    var r := Called(o, t, env(at)).value;
    if r.Err? { return o, Refused; }
    return r.value, Returned;
  }

  /** Running a linked local step and recording what it produced. */
  method RunPrepared(o: Operation, jobs: seq<ChildJob>, k: nat, ref: WorkRef, env: nat -> Choice, at: nat)
    returns (operation: Operation, outcome: Outcome)
    requires k < |o.plan.steps|
    ensures Reaches(World(o, jobs, [Executing(k, ref)]), env, at, at + 2, World(operation, jobs, [Done(outcome)]))
  {
    var produced := env(at).produced;
    var t := if produced.Some? then SucceedingLocal(k, ref, produced.value)
        else Failing(k, ref, SafeFailure(env(at).failure));
    Asks(o, jobs, Executing(k, ref), env, at);
    operation, outcome := Finish(o, jobs, t, env, at + 1);
    Then(World(o, jobs, [Executing(k, ref)]), World(o, jobs, [t]), World(operation, jobs, [Done(outcome)]), env, at,
         at + 1, at + 2);
  }

  /** Preparing a local step and linking the reference it chose. */
  method LinkLocal(o: Operation, jobs: seq<ChildJob>, k: nat, env: nat -> Choice, at: nat)
    returns (operation: Operation, next: Thread, until: nat)
    requires k < |o.plan.steps|
    ensures at < until <= at + 2 && (next.Done? || (next.Executing? && next.k == k)) && operation.plan == o.plan
    ensures Reaches(World(o, jobs, [Preparing(k)]), env, at, until, World(operation, jobs, [next]))
  {
    Asks(o, jobs, Preparing(k), env, at);
    if !env(at).prepared.kind.Local? { return o, Done(Refused), at + 1; }
    var t := LinkingLocal(k, env(at).prepared);
    Calls(o, jobs, t, env, at + 1);
    var r := Called(o, t, env(at + 1)).value;
    operation, next, until := if r.Ok? then r.value else o, if r.Ok? then AfterLocalLink(r.value, k)
        else Done(Refused), at + 2;
    Then(World(o, jobs, [Preparing(k)]), World(o, jobs, [t]), World(operation, jobs, [next]), env, at, at + 1, until);
  }

  /** executeLocalStep on a pending step: prepare, link, then run the executor. */
  method PrepareAndRun(o: Operation, jobs: seq<ChildJob>, k: nat, env: nat -> Choice, at: nat)
    returns (operation: Operation, outcome: Outcome, until: nat)
    requires k < |o.plan.steps|
    ensures at <= until <= at + 4
    ensures Reaches(World(o, jobs, [Preparing(k)]), env, at, until, World(operation, jobs, [Done(outcome)]))
  {
    var linked, next, mid := LinkLocal(o, jobs, k, env, at);
    if next.Done? { return linked, next.outcome, mid; }
    operation, outcome := RunPrepared(linked, jobs, k, next.ref, env, mid);
    until := mid + 2;
    Then(World(o, jobs, [Preparing(k)]), World(linked, jobs, [next]), World(operation, jobs, [Done(outcome)]), env, at,
         mid, until);
  }

  /** executeLocalStep on a step that is not pending: run the executor on its recorded reference. */
  method RunReady(o: Operation, jobs: seq<ChildJob>, k: nat, env: nat -> Choice, at: nat)
    returns (operation: Operation, outcome: Outcome, until: nat)
    requires k < |o.plan.steps|
    ensures at <= until <= at + 2
    ensures Reaches(World(o, jobs, [AfterLocalLink(o, k)]), env, at, until, World(operation, jobs, [Done(outcome)]))
  {
    var ready := AfterLocalLink(o, k);
    if ready.Done? {
      NoAwait(World(o, jobs, [ready]), env, at);
      return o, ready.outcome, at;
    }
    operation, outcome := RunPrepared(o, jobs, k, ready.ref, env, at);
    until := at + 2;
  }

  lemma LinkOpens(o: Operation, n: Operation, k: nat, ref: WorkRef, now: int)
    requires Aligned(o) && k < |o.steps| && o.steps[k].status.Pending?
    requires Linked(o, o.plan.steps[k].stepId, ref, now) == Ok(n)
    ensures Aligned(n) && n.plan == o.plan && n == WithLink(o, k, ref, now) && OpenSteps(n.steps) == OpenSteps(o.steps)
  {
    LinkMoves(o, k, ref, now);
    OpeningKept(o.steps, k, n.steps[k]);
  }

  lemma SuccessCloses(o: Operation, n: Operation, k: nat, ref: WorkRef, e: Evidence, now: int)
    requires Aligned(o) && k < |o.steps| && !o.steps[k].status.StepSucceeded?
    requires CompletedWith(o, o.plan.steps[k].stepId, ref, e, now) == Ok(n)
    ensures OpenSteps(n.steps) < OpenSteps(o.steps) && !n.status.Queued?
  {
    SuccessMoves(o, k, ref, NormalizeEvidence(e).value, now);
    ClosingAStep(o.steps, k, n.steps[k]);
  }

  /** Either the call is over, or it goes round again with one step less to do. */
  predicate Progress(o: Operation, n: Operation, next: Thread) {
    next.Done? || (next == Decide(n) && !n.status.Queued? && OpenSteps(n.steps) < OpenSteps(o.steps))
  }

  /** The registry call an answer asks for: record the evidence and go round again, or record the failure. */
  method Record(o: Operation, jobs: seq<ChildJob>, t: Thread, env: nat -> Choice, at: nat)
      returns (operation: Operation, next: Thread)
    requires t.Succeeding? || t.Failing?
    requires Aligned(o) && t.k < |o.steps| && !o.steps[t.k].status.StepSucceeded?
    ensures Reaches(World(o, jobs, [t]), env, at, at + 1, World(operation, jobs, [next]))
    ensures Progress(o, operation, next)
  {
    if t.Failing? {
      var outcome;
      operation, outcome := Finish(o, jobs, t, env, at);
      return operation, Done(outcome);
    }
    Calls(o, jobs, t, env, at);
    var r := Called(o, t, env(at)).value;
    if r.Err? { return o, Done(Refused); }
    SuccessCloses(o, r.value, t.k, t.ref, t.evidence, env(at).now);
    return r.value, Decide(r.value);
  }

  /** The dispatched step of one round: ask the dispatcher and act on its answer. */
  method JudgeStep(o: Operation, queue: seq<ChildJob>, k: nat, ref: WorkRef, env: nat -> Choice, at: nat)
    returns (operation: Operation, jobs: seq<ChildJob>, next: Thread, until: nat)
    requires Aligned(o) && k < |o.steps| && !o.steps[k].status.StepSucceeded?
    ensures at <= until <= at + 4
    ensures Reaches(World(o, queue, [Looking(k, ref)]), env, at, until, World(operation, jobs, [next]))
    ensures Progress(o, operation, next)
  {
    var t, mid;
    t, jobs, mid := DispatchPrepared(o, queue, k, ref, env, at);
    if t.Done? { return o, jobs, t, mid; }
    operation, next := Record(o, jobs, t, env, mid);
    until := mid + 1;
    Then(World(o, queue, [Looking(k, ref)]), World(o, jobs, [t]), World(operation, jobs, [next]), env, at, mid, until);
  }

  /** Recording the intent of a pending child step. */
  method LinkChild(o: Operation, jobs: seq<ChildJob>, k: nat, env: nat -> Choice, at: nat)
      returns (operation: Operation, next: Thread)
    requires Aligned(o) && k < |o.steps| && o.steps[k].status.Pending?
    ensures Reaches(World(o, jobs, [Linking(k)]), env, at, at + 1, World(operation, jobs, [next]))
    ensures next.Done? || (next == Looking(k, Intent(o.plan.steps[k]))
                           && operation == WithLink(o, k, next.ref, env(at).now))
    ensures Aligned(operation) && OpenSteps(operation.steps) == OpenSteps(o.steps) && operation.plan == o.plan
  {
    Calls(o, jobs, Linking(k), env, at);
    var r := Called(o, Linking(k), env(at)).value;
    if r.Err? { return o, Done(Refused); }
    LinkOpens(o, r.value, k, Intent(o.plan.steps[k]), env(at).now);
    return r.value, AfterLink(r.value, k);
  }

  /** One round on a pending child step: link it, then judge it. */
  method LinkAndJudge(o: Operation, queue: seq<ChildJob>, k: nat, env: nat -> Choice, at: nat)
    returns (operation: Operation, jobs: seq<ChildJob>, next: Thread, until: nat)
    requires Aligned(o) && k < |o.steps| && o.steps[k].status.Pending?
    ensures at <= until <= at + 5
    ensures Reaches(World(o, queue, [Linking(k)]), env, at, until, World(operation, jobs, [next]))
    ensures Progress(o, operation, next)
  {
    var linked, ready := LinkChild(o, queue, k, env, at);
    if ready.Done? { return linked, queue, ready, at + 1; }
    operation, jobs, next, until := JudgeStep(linked, queue, k, ready.ref, env, at + 1);
    Then(World(o, queue, [Linking(k)]), World(linked, queue, [ready]), World(operation, jobs, [next]), env, at, at + 1,
         until);
  }

  // ---- the invariant along a call --------------------------------------------

  /** Safe, kept folded: it is unfolded only where an await is named. */
  ghost predicate InOrder(w: World) { forall i: int {:trigger Await(i)} :: Await(i) ==> Safe(w) }

  lemma Fold(w: World)
    requires Safe(w)
    ensures InOrder(w)
  {
  }

  lemma Unfold(w: World)
    requires InOrder(w)
    ensures Safe(w)
  {
    assert Await(0);
  }

  lemma NextInOrder(w: World, c: Choice)
    requires InOrder(w)
    ensures InOrder(Next(w, c))
  {
    Unfold(w);
    if |w.threads| == 1 { StepKeeps(w, 0, c); }
    Fold(Next(w, c));
  }

  lemma RunBefore(trace: seq<World>, env: nat -> Choice, at: nat, until: nat)
    requires IsRun(trace, env, at, until) && at < until
    ensures IsRun(trace[..until - at], env, at, until - 1)
  {
  }

  lemma {:induction false} RunInOrder(trace: seq<World>, env: nat -> Choice, at: nat, until: nat)
    requires IsRun(trace, env, at, until) && InOrder(trace[0])
    ensures InOrder(trace[until - at])
    decreases until
  {
    if at < until {
      RunBefore(trace, env, at, until);
      RunInOrder(trace[..until - at], env, at, until - 1);
      NextInOrder(trace[until - at - 1], env(until - 1));
      assert Await(until - 1);
    }
  }

  lemma InOrderAfter(w: World, env: nat -> Choice, at: nat, until: nat, v: World)
    requires InOrder(w) && Reaches(w, env, at, until, v)
    ensures InOrder(v)
  {
    var trace: seq<World> :| IsRun(trace, env, at, until) && trace[0] == w && trace[until - at] == v;
    RunInOrder(trace, env, at, until);
  }

  // ---- the loop --------------------------------------------------------------

  /** What the loop head knows of an operation that is not queued. */
  lemma LoopHead(o: Operation, jobs: seq<ChildJob>)
    requires InOrder(World(o, jobs, [Decide(o)])) && !o.status.Queued?
    ensures Aligned(o)
    ensures o.status.Running? ==> FirstOpen(o.steps).Some? && OpenSteps(o.steps) >= 1
    ensures o.status.Running? ==> var k := FirstOpen(o.steps).value;
      k < |o.plan.steps| && Decide(o) == if IsChild(o.plan.steps[k]) then if o.steps[k].status.Pending? then Linking(k)
      else AfterLink(o, k)
                                         else if o.steps[k].status.Pending? then Preparing(k) else AfterLocalLink(o, k)
  {
    Unfold(World(o, jobs, [Decide(o)]));
    DecideOk(o, jobs);
    FirstOpenIsFirst(o.steps);
    if FirstOpen(o.steps).Some? { OpenStepCounts(o.steps, FirstOpen(o.steps).value); }
  }

  /** One round of the loop on a running operation. */
  method Round(o: Operation, queue: seq<ChildJob>, env: nat -> Choice, at: nat)
    returns (operation: Operation, jobs: seq<ChildJob>, next: Thread, until: nat)
    requires InOrder(World(o, queue, [Decide(o)])) && o.status.Running?
    ensures at <= until <= at + 5
    ensures Reaches(World(o, queue, [Decide(o)]), env, at, until, World(operation, jobs, [next]))
    ensures Progress(o, operation, next) && OpenSteps(o.steps) >= 1
  {
    LoopHead(o, queue);
    var k := FirstOpen(o.steps).value;
    if !IsChild(o.plan.steps[k]) {
      var outcome;
      if o.steps[k].status.Pending? {
        operation, outcome, until := PrepareAndRun(o, queue, k, env, at);
      } else {
        operation, outcome, until := RunReady(o, queue, k, env, at);
      }
      return operation, queue, Done(outcome), until;
    }
    if o.steps[k].status.Pending? {
      operation, jobs, next, until := LinkAndJudge(o, queue, k, env, at);
      return;
    }
    var ready := AfterLink(o, k);
    if ready.Done? {
      NoAwait(World(o, queue, [ready]), env, at);
      return o, queue, ready, at;
    }
    operation, jobs, next, until := JudgeStep(o, queue, k, ready.ref, env, at);
  }

  /** getOperation, and start where the operation is still queued. */
  method Begin(o: Operation, jobs: seq<ChildJob>, env: nat -> Choice) returns (operation: Operation, until: nat)
    requires |o.plan.steps| >= 1
    ensures 1 <= until <= 2 && !operation.status.Queued? && operation.steps == o.steps
    ensures Reaches(World(o, jobs, [Fetching]), env, 0, until, World(operation, jobs, [Decide(operation)]))
  {
    OneAwait(World(o, jobs, [Fetching]), env, 0);
    operation, until := o, 1;
    if o.status.Queued? {
      StartMoves(o, env(1).now);
      operation, until := Started(o, env(1).now).value, 2;
      OneAwait(World(o, jobs, [Starting]), env, 1);
      Then(World(o, jobs, [Fetching]), World(o, jobs, [Starting]), World(operation, jobs, [Decide(operation)]), env, 0,
           1, 2);
    }
  }

  lemma NotBroken(o: Operation, jobs: seq<ChildJob>, outcome: Outcome)
    requires InOrder(World(o, jobs, [Done(outcome)]))
    ensures !outcome.Broken?
  {
    Unfold(World(o, jobs, [Done(outcome)]));
    assert ThreadOk(o, jobs, World(o, jobs, [Done(outcome)]).threads[0]);
  }

  predicate OnTheWay(o: Operation, next: Thread, awaits: nat, limit: nat) {
    if next.Done? then awaits <= limit
    else next == Decide(o) && !o.status.Queued? && awaits + 5 * OpenSteps(o.steps) <= limit
  }

  /**
   The advance loop. It ends after a bounded number of awaits, because every round that does not
   return closes a step; on the way it does what the protocol's thread does.
   */
  method Advance(o: Operation, queue: seq<ChildJob>, env: nat -> Choice)
    returns (operation: Operation, jobs: seq<ChildJob>, outcome: Outcome, awaits: nat)
    requires InOrder(World(o, queue, [Fetching])) && |o.plan.steps| >= 1
    ensures Reaches(World(o, queue, [Fetching]), env, 0, awaits, World(operation, jobs, [Done(outcome)]))
    ensures awaits <= 5 * |o.steps| + 2
    ensures InOrder(World(operation, jobs, [Done(outcome)])) && !outcome.Broken?
  {
    operation, awaits := Begin(o, queue, env);
    jobs := queue;
    OpenStepsBound(o.steps);
    var next := Decide(operation);
    InOrderAfter(World(o, queue, [Fetching]), env, 0, awaits, World(operation, jobs, [next]));
    while !next.Done?
      invariant Reaches(World(o, queue, [Fetching]), env, 0, awaits, World(operation, jobs, [next]))
      invariant InOrder(World(operation, jobs, [next]))
      invariant OnTheWay(operation, next, awaits, 5 * |o.steps| + 2)
      decreases if next.Done? then 0 else 1 + OpenSteps(operation.steps)
    {
      ghost var head, mid := World(operation, jobs, [next]), awaits;
      operation, jobs, next, awaits := Round(operation, jobs, env, awaits);
      InOrderAfter(head, env, mid, awaits, World(operation, jobs, [next]));
      Then(World(o, queue, [Fetching]), head, World(operation, jobs, [next]), env, 0, mid, awaits);
    }
    outcome := next.outcome;
    NotBroken(operation, jobs, outcome);
  }
}
