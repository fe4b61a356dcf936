/** What undisturbed calls to advance achieve. */
module BackupLiveness {
  import opened Common
  import opened Texts
  import opened BackupPlan
  import opened BackupOperation
  import opened BackupProtocol
  import opened BackupProtocolSafety
  import opened BackupAdvance

  // ---- the result of a call --------------------------------------------------

  predicate Over(w: World) { |w.threads| == 1 && w.threads[0].Done? }

  lemma DoneStays(w: World, c: Choice)
    requires Over(w)
    ensures Next(w, c) == w
  {
    assert w.threads[0 := w.threads[0]] == w.threads;
  }

  /** Two runs with the same answers from the same world agree, await by await. */
  lemma {:induction false} RunsAgree(a: seq<World>, b: seq<World>, env: nat -> Choice, at: nat, u: nat, v: nat, i: nat)
    requires IsRun(a, env, at, u) && IsRun(b, env, at, v) && a[0] == b[0] && at <= i <= u && i <= v
    ensures a[i - at] == b[i - at]
    decreases i
  {
    if at < i {
      RunsAgree(a, b, env, at, u, v, i - 1);
      assert Await(i - 1);
    }
  }

  /** A call that has returned stays where it is. */
  lemma {:induction false} OverStays(trace: seq<World>, env: nat -> Choice, at: nat, until: nat, i: nat)
    requires IsRun(trace, env, at, until) && at <= i <= until && Over(trace[i - at])
    ensures trace[until - at] == trace[i - at]
    decreases until - i
  {
    if i < until {
      DoneStays(trace[i - at], env(i));
      assert Await(i);
      OverStays(trace, env, at, until, i + 1);
    }
  }

  /** An undisturbed call on the operation returns, leaving `w`. */
  ghost predicate Returns(o: Operation, jobs: seq<ChildJob>, env: nat -> Choice, w: World) {
    Over(w) && exists until: nat :: Reaches(World(o, jobs, [Fetching]), env, 0, until, w)
  }

  /** A call has one result. */
  lemma ReturnsOnce(o: Operation, jobs: seq<ChildJob>, env: nat -> Choice, w: World, v: World)
    requires Returns(o, jobs, env, w) && Returns(o, jobs, env, v)
    ensures w == v
  {
    var start := World(o, jobs, [Fetching]);
    var a: nat :| Reaches(start, env, 0, a, w);
    var b: nat :| Reaches(start, env, 0, b, v);
    if a <= b { EndsEqual(start, env, a, w, b, v); } else { EndsEqual(start, env, b, v, a, w); }
  }

  lemma EndsEqual(start: World, env: nat -> Choice, a: nat, w: World, b: nat, v: World)
    requires Reaches(start, env, 0, a, w) && Reaches(start, env, 0, b, v) && Over(w) && a <= b
    ensures v == w
  {
    var one: seq<World> :| IsRun(one, env, 0, a) && one[0] == start && one[a] == w;
    var two: seq<World> :| IsRun(two, env, 0, b) && two[0] == start && two[b] == v;
    RunsAgree(one, two, env, 0, a, b, a);
    OverStays(two, env, 0, b, a);
  }

  // ---- a call on an all-child plan whose jobs verify and succeed -------------

  predicate Favourable(c: Choice) { c.lookup.Seen? && c.sourceUnchanged && c.enqueue.Accepted? }

  predicate AllChildren(plan: Plan) { forall k | 0 <= k < |plan.steps| :: IsChild(plan.steps[k]) }

  /** The first `m` steps have their jobs, in order. */
  predicate Queue(o: Operation, jobs: seq<ChildJob>, m: nat) {
    m <= |o.plan.steps| && |jobs| == m && forall i | 0 <= i < m ::
    jobs[i].request == RequestFor(o.serverId, o.plan.steps[i])
  }

  /** After `m` calls: `m - 1` steps succeeded, the next one dispatched, the rest pending, one job each. */
  ghost predicate Waiting(o: Operation, jobs: seq<ChildJob>, m: nat) {
    && Aligned(o) && AllChildren(o.plan) && o.status.Running? && 1 <= m <= |o.steps| && Queue(o, jobs, m)
    && (forall i | 0 <= i < m - 1 :: o.steps[i].status.StepSucceeded?)
    && o.steps[m - 1].status.Dispatched? && o.steps[m - 1].workRef == Some(Intent(o.plan.steps[m - 1]))
    && (forall i | m <= i < |o.steps| :: o.steps[i].status.Pending?)
  }

  /** Between two calls every job has run and succeeded, with a result the queue stores. */
  predicate Ran(jobs: seq<ChildJob>, done: seq<ChildJob>) {
    && |done| == |jobs|
    && forall i | 0 <= i < |done| ::
         done[i].request == jobs[i].request && done[i].status.JobSucceeded? && Stored(done[i])
  }

  /** The results are ones the steps can be recorded with. */
  predicate Finished(o: Operation, jobs: seq<ChildJob>, done: seq<ChildJob>) {
    && |done| == |jobs| <= |o.plan.steps|
    && forall i | 0 <= i < |done| ::
         done[i].request == jobs[i].request && done[i].status.JobSucceeded? && Yields(o.plan.steps[i], done[i])
  }

  lemma RanIsFinished(o: Operation, jobs: seq<ChildJob>, done: seq<ChildJob>, m: nat)
    requires Queue(o, jobs, m) && Ran(jobs, done)
    ensures Finished(o, jobs, done)
  {
    forall i | 0 <= i < |done| ensures Yields(o.plan.steps[i], done[i]) {
      StoredYields(o.plan.steps[i], o.serverId, done[i]);
    }
  }

  lemma {:induction false} FindsJob(jobs: seq<ChildJob>, k: nat)
    requires k < |jobs| && forall i, j | 0 <= i < j < |jobs| :: jobs[i].request.key != jobs[j].request.key
    ensures FindJob(jobs, jobs[k].request.key) == Some(k)
  {
    if k > 0 { FindsJob(jobs[1..], k - 1); }
  }

  lemma {:induction false} FindsNone(jobs: seq<ChildJob>, key: Digest)
    requires forall i | 0 <= i < |jobs| :: jobs[i].request.key != key
    ensures FindJob(jobs, key).None?
  {
    if jobs != [] { FindsNone(jobs[1..], key); }
  }

  lemma {:induction false} FirstOpenAt(steps: seq<StepState>, k: nat)
    requires k < |steps| && !steps[k].status.StepSucceeded? && forall i | 0 <= i < k :: steps[i].status.StepSucceeded?
    ensures FirstOpen(steps) == Some(k)
  {
    if k > 0 { FirstOpenAt(steps[1..], k - 1); }
  }

  /** A pending child step is linked, verified and enqueued in four awaits. */
  lemma LinkAndEnqueue(o: Operation, jobs: seq<ChildJob>, k: nat, env: nat -> Choice, at: nat)
    requires Aligned(o) && o.status.Running? && k < |o.steps| && o.steps[k].status.Pending? && IsChild(o.plan.steps[k])
    requires forall i | 0 <= i < |jobs| :: jobs[i].request.key != o.plan.steps[k].stepDigest && !JobActive(jobs[i])
    requires Favourable(env(at)) && Favourable(env(at + 1)) && Favourable(env(at + 2)) && Favourable(env(at + 3))
    ensures Reaches(World(o, jobs, [Linking(k)]), env, at, at + 4,
                    World(WithLink(o, k, Intent(o.plan.steps[k]), env(at).now),
                          jobs + [NewJob(RequestFor(o.serverId, o.plan.steps[k]), env(at + 3))], [Done(Returned)]))
  {
    var ref := Intent(o.plan.steps[k]);
    var n := WithLink(o, k, ref, env(at).now);
    LinkMoves(o, k, ref, env(at).now);
    Calls(o, jobs, Linking(k), env, at);
    FindsNone(jobs, o.plan.steps[k].stepDigest);
    Asks(n, jobs, Looking(k, ref), env, at + 1);
    Asks(n, jobs, Verifying(k, ref), env, at + 2);
    Asks(n, jobs, Enqueuing(k, ref), env, at + 3);
    var end := World(n, jobs + [NewJob(RequestFor(o.serverId, o.plan.steps[k]), env(at + 3))], [Done(Returned)]);
    Then(World(n, jobs, [Verifying(k, ref)]), World(n, jobs, [Enqueuing(k, ref)]), end, env, at + 2, at + 3, at + 4);
    Then(World(n, jobs, [Looking(k, ref)]), World(n, jobs, [Verifying(k, ref)]), end, env, at + 1, at + 2, at + 4);
    Then(World(o, jobs, [Linking(k)]), World(n, jobs, [Looking(k, ref)]), end, env, at, at + 1, at + 4);
  }

  lemma QueueKeys(o: Operation, jobs: seq<ChildJob>, done: seq<ChildJob>, m: nat)
    requires Aligned(o) && Queue(o, jobs, m) && |done| == m && forall i | 0 <= i < m ::
        done[i].request == jobs[i].request
    ensures forall i, j | 0 <= i < j < m :: done[i].request.key != done[j].request.key
    ensures forall i, k | 0 <= i < m <= k < |o.plan.steps| :: done[i].request.key != o.plan.steps[k].stepDigest
    ensures Queue(o, done, m)
  {
  }

  /** The evidence a finished step's job is recorded with. */
  function EvidenceFor(planned: Step, j: ChildJob): Evidence
    requires Yields(planned, j)
  {
    NormalizeEvidence(EvidenceOf(planned, j).value).value
  }

  /** A lookup that finds the step's succeeded job. */
  lemma LooksAt(o: Operation, jobs: seq<ChildJob>, k: nat, c: Choice)
    requires k < |o.plan.steps| && FindJob(jobs, o.plan.steps[k].stepDigest) == Some(k) && Favourable(c)
    requires jobs[k].request == RequestFor(o.serverId, o.plan.steps[k]) && Yields(o.plan.steps[k], jobs[k])
    ensures var planned := o.plan.steps[k];
      Asked(o, jobs, Looking(k, Intent(planned)), c)
      == (Succeeding(k, Intent(planned), EvidenceOf(planned, jobs[k]).value), jobs)
  {
  }

  lemma JudgesFinished(o: Operation, jobs: seq<ChildJob>, done: seq<ChildJob>, m: nat, env: nat -> Choice, at: nat)
    requires Waiting(o, jobs, m) && Finished(o, jobs, done) && Favourable(env(at))
    ensures var planned := o.plan.steps[m - 1];
      Reaches(World(o, done, [Looking(m - 1, Intent(planned))]), env, at, at + 1,
              World(o, done, [Succeeding(m - 1, Intent(planned), EvidenceOf(planned, done[m - 1]).value)]))
  {
    assert FindJob(done, o.plan.steps[m - 1].stepDigest) == Some(m - 1) by {
      QueueKeys(o, jobs, done, m);
      FindsJob(done, m - 1);
    }
    LooksAt(o, done, m - 1, env(at));
    Asks(o, done, Looking(m - 1, Intent(o.plan.steps[m - 1])), env, at);
  }

  /** The dispatched step's finished job is found, judged and recorded in two awaits. */
  lemma CompleteStep(o: Operation, jobs: seq<ChildJob>, done: seq<ChildJob>, m: nat, env: nat -> Choice, at: nat)
    requires Waiting(o, jobs, m) && Finished(o, jobs, done) && Favourable(env(at))
    ensures var n := WithSuccess(o, m - 1, EvidenceFor(o.plan.steps[m - 1], done[m - 1]), env(at + 1).now);
      Reaches(World(o, done, [Looking(m - 1, Intent(o.plan.steps[m - 1]))]), env, at, at + 2,
              World(n, done, [Decide(n)]))
  {
    var k, planned := m - 1, o.plan.steps[m - 1];
    var t := Succeeding(k, Intent(planned), EvidenceOf(planned, done[k]).value);
    var n := WithSuccess(o, k, EvidenceFor(planned, done[k]), env(at + 1).now);
    JudgesFinished(o, jobs, done, m, env, at);
    SuccessMoves(o, k, Intent(planned), EvidenceFor(planned, done[k]), env(at + 1).now);
    Calls(o, done, t, env, at + 1);
    Then(World(o, done, [Looking(k, Intent(planned))]), World(o, done, [t]), World(n, done, [Decide(n)]), env, at,
         at + 1, at + 2);
  }

  /** What recording the dispatched step leaves: a finished operation, or the next step to link. */
  lemma AfterCompletion(o: Operation, jobs: seq<ChildJob>, m: nat, e: Evidence, now: int)
    requires Waiting(o, jobs, m)
    ensures var n := WithSuccess(o, m - 1, e, now);
      && Aligned(n) && n.plan == o.plan && n.serverId == o.serverId && |n.steps| == |o.steps|
      && (forall i | 0 <= i < m :: n.steps[i].status.StepSucceeded?)
          && (forall i | m <= i < |n.steps| :: n.steps[i].status.Pending?)
      && (if m == |o.steps| then n.status.Succeeded? && Decide(n) == Done(Returned)
          else n.status.Running? && Decide(n) == Linking(m))
  {
    var n := WithSuccess(o, m - 1, e, now);
    if m < |o.steps| {
      assert n.steps[m] == o.steps[m];
      FirstOpenAt(n.steps, m);
    }
  }

  lemma BeginWaiting(o: Operation, jobs: seq<ChildJob>, done: seq<ChildJob>, m: nat, env: nat -> Choice)
    requires Waiting(o, jobs, m)
    ensures Reaches(World(o, done, [Fetching]), env, 0, 1,
                    World(o, done, [Looking(m - 1, Intent(o.plan.steps[m - 1]))]))
  {
    FirstOpenAt(o.steps, m - 1);
    OneAwait(World(o, done, [Fetching]), env, 0);
  }

  /** What a call does with the finished job of the dispatched step: three awaits to the recorded evidence. */
  lemma CallRecords(o: Operation, jobs: seq<ChildJob>, done: seq<ChildJob>, m: nat, env: nat -> Choice, n: Operation)
    requires Waiting(o, jobs, m) && Finished(o, jobs, done) && Favourable(env(1))
    requires n == WithSuccess(o, m - 1, EvidenceFor(o.plan.steps[m - 1], done[m - 1]), env(2).now)
    ensures Reaches(World(o, done, [Fetching]), env, 0, 3, World(n, done, [Decide(n)]))
  {
    BeginWaiting(o, jobs, done, m, env);
    CompleteStep(o, jobs, done, m, env, 1);
    Then(World(o, done, [Fetching]), World(o, done, [Looking(m - 1, Intent(o.plan.steps[m - 1]))]),
         World(n, done, [Decide(n)]), env, 0, 1, 3);
  }

  /** The last call: the backup is complete. */
  lemma LastCall(o: Operation, jobs: seq<ChildJob>, done: seq<ChildJob>, env: nat -> Choice, w: World)
    requires Waiting(o, jobs, |o.steps|) && Ran(jobs, done) && Favourable(env(1)) && Returns(o, done, env, w)
    ensures w.op.status.Succeeded?
  {
    var m := |o.steps|;
    RanIsFinished(o, jobs, done, m);
    var e := EvidenceFor(o.plan.steps[m - 1], done[m - 1]);
    var n := WithSuccess(o, m - 1, e, env(2).now);
    CallRecords(o, jobs, done, m, env, n);
    AfterCompletion(o, jobs, m, e, env(2).now);
    ReturnsOnce(o, done, env, World(n, done, [Done(Returned)]), w);
  }

  /** A call that records one step and enqueues the next, in seven awaits. */
  lemma NextLinked(o: Operation, jobs: seq<ChildJob>, done: seq<ChildJob>, m: nat, env: nat -> Choice, n: Operation)
    requires Waiting(o, jobs, m) && m < |o.steps| && Finished(o, jobs, done) && (forall i :: Favourable(env(i)))
    requires n == WithSuccess(o, m - 1, EvidenceFor(o.plan.steps[m - 1], done[m - 1]), env(2).now)
    ensures n.plan == o.plan && |n.steps| == |o.steps| && Decide(n) == Linking(m)
    ensures Reaches(World(n, done, [Linking(m)]), env, 3, 7,
                    World(WithLink(n, m, Intent(n.plan.steps[m]), env(3).now),
                          done + [NewJob(RequestFor(n.serverId, n.plan.steps[m]), env(6))], [Done(Returned)]))
  {
    AfterCompletion(o, jobs, m, EvidenceFor(o.plan.steps[m - 1], done[m - 1]), env(2).now);
    QueueKeys(o, jobs, done, m);
    LinkAndEnqueue(n, done, m, env, 3);
  }

  lemma CallGoesOn(o: Operation, jobs: seq<ChildJob>, done: seq<ChildJob>, m: nat, env: nat -> Choice, n: Operation)
    requires Waiting(o, jobs, m) && m < |o.steps| && Finished(o, jobs, done) && (forall i :: Favourable(env(i)))
    requires n == WithSuccess(o, m - 1, EvidenceFor(o.plan.steps[m - 1], done[m - 1]), env(2).now)
    ensures n.plan == o.plan && |n.steps| == |o.steps|
    ensures Reaches(World(o, done, [Fetching]), env, 0, 7,
                    World(WithLink(n, m, Intent(n.plan.steps[m]), env(3).now),
                          done + [NewJob(RequestFor(n.serverId, n.plan.steps[m]), env(6))], [Done(Returned)]))
  {
    CallRecords(o, jobs, done, m, env, n);
    NextLinked(o, jobs, done, m, env, n);
    var linked := WithLink(n, m, Intent(n.plan.steps[m]), env(3).now);
    var more := done + [NewJob(RequestFor(n.serverId, n.plan.steps[m]), env(6))];
    Then(World(o, done, [Fetching]), World(n, done, [Linking(m)]), World(linked, more, [Done(Returned)]), env, 0, 3, 7);
  }

  /** Any earlier call: one more step done, the next one dispatched. */
  lemma NextCall(o: Operation, jobs: seq<ChildJob>, done: seq<ChildJob>, m: nat, env: nat -> Choice, w: World)
    requires Waiting(o, jobs, m) && m < |o.steps| && Ran(jobs, done) && (forall i :: Favourable(env(i)))
    requires Returns(o, done, env, w)
    ensures w.op.plan == o.plan && |w.op.steps| == |o.steps| && Waiting(w.op, w.jobs, m + 1)
  {
    RanIsFinished(o, jobs, done, m);
    var e := EvidenceFor(o.plan.steps[m - 1], done[m - 1]);
    var n := WithSuccess(o, m - 1, e, env(2).now);
    CallGoesOn(o, jobs, done, m, env, n);
    var linked := WithLink(n, m, Intent(n.plan.steps[m]), env(3).now);
    var more := done + [NewJob(RequestFor(n.serverId, n.plan.steps[m]), env(6))];
    ReturnsOnce(o, done, env, World(linked, more, [Done(Returned)]), w);
    AfterCompletion(o, jobs, m, e, env(2).now);
    QueueKeys(o, jobs, done, m);
    NextWaiting(n, linked, done, more, m, env(3).now, env(6));
  }

  lemma NextWaiting(n: Operation, linked: Operation, done: seq<ChildJob>, more: seq<ChildJob>, m: nat, now: int,
                    c: Choice)
    requires Aligned(n) && AllChildren(n.plan) && n.status.Running? && m < |n.steps| && Queue(n, done, m)
    requires (forall i | 0 <= i < m :: n.steps[i].status.StepSucceeded?)
    requires (forall i | m <= i < |n.steps| :: n.steps[i].status.Pending?)
    requires linked == WithLink(n, m, Intent(n.plan.steps[m]), now)
    requires more == done + [NewJob(RequestFor(n.serverId, n.plan.steps[m]), c)]
    ensures Waiting(linked, more, m + 1)
  {
  }

  /** The first call starts the operation and dispatches its first step. */
  lemma FirstCall(o: Operation, env: nat -> Choice, w: World)
    requires Aligned(o) && AllChildren(o.plan) && o.status.Queued? && AllPending(o.steps) && |o.steps| >= 1
    requires (forall i :: Favourable(env(i))) && Returns(o, [], env, w)
    ensures w.op.plan == o.plan && |w.op.steps| == |o.steps| && Waiting(w.op, w.jobs, 1)
  {
    var n := o.(status := Running, startedAt := Some(Stamp(env(1).now, true)));
    FirstOpenAt(n.steps, 0);
    OneAwait(World(o, [], [Fetching]), env, 0);
    OneAwait(World(o, [], [Starting]), env, 1);
    LinkAndEnqueue(n, [], 0, env, 2);
    var linked := WithLink(n, 0, Intent(n.plan.steps[0]), env(2).now);
    var more := [] + [NewJob(RequestFor(n.serverId, n.plan.steps[0]), env(5))];
    Then(World(o, [], [Fetching]), World(o, [], [Starting]), World(n, [], [Linking(0)]), env, 0, 1, 2);
    Then(World(o, [], [Fetching]), World(n, [], [Linking(0)]), World(linked, more, [Done(Returned)]), env, 0, 2, 6);
    ReturnsOnce(o, [], env, World(linked, more, [Done(Returned)]), w);
    NextWaiting(n, linked, [], more, 0, env(2).now, env(5));
  }

  // ---- n + 1 calls -----------------------------------------------------------

  /**
   Call after call on a new operation: `worlds[r]` is left by call `r`, and `finish[r]` is the queue
   as the next call finds it.
   */
  ghost predicate CallAfterCall(o: Operation, worlds: seq<World>, env: nat -> nat -> Choice,
                                finish: seq<seq<ChildJob>>) {
    && |worlds| == |finish| + 1 && worlds[0].op == o && worlds[0].jobs == []
    && forall r | 0 <= r < |finish| ::
         Ran(worlds[r].jobs, finish[r]) && Returns(worlds[r].op, finish[r], env(r), worlds[r + 1])
  }

  lemma {:induction false} StepByStep(o: Operation, worlds: seq<World>, env: nat -> nat -> Choice,
                                      finish: seq<seq<ChildJob>>, r: nat)
    requires Aligned(o) && AllChildren(o.plan) && o.status.Queued? && AllPending(o.steps)
    requires CallAfterCall(o, worlds, env, finish) && 1 <= r <= |o.steps| && r < |worlds|
    requires forall a, b :: Favourable(env(a)(b))
    ensures worlds[r].op.plan == o.plan && |worlds[r].op.steps| == |o.steps| && Waiting(worlds[r].op, worlds[r].jobs, r)
  {
    if r == 1 {
      assert finish[0] == [];
      FirstCall(o, env(0), worlds[1]);
    } else {
      StepByStep(o, worlds, env, finish, r - 1);
      NextCall(worlds[r - 1].op, worlds[r - 1].jobs, finish[r - 1], r - 1, env(r - 1), worlds[r]);
    }
  }

  /**
   A backup whose n steps are all child jobs, each verified when dispatched and finished before the
   next call, is complete after exactly n + 1 calls: running until then, with one more step done by each.
   */
  lemma CompleteAfterNPlusOneCalls(o: Operation, worlds: seq<World>, env: nat -> nat -> Choice,
                                   finish: seq<seq<ChildJob>>)
    requires Settled(o) && o.status.Queued? && AllChildren(o.plan)
    requires CallAfterCall(o, worlds, env, finish) && |finish| == |o.steps| + 1
    requires forall a, b :: Favourable(env(a)(b))
    ensures forall r: nat | 1 <= r <= |o.steps| :: worlds[r].op.status.Running?
    ensures worlds[|o.steps| + 1].op.status.Succeeded?
  {
    NewOperationSafe(o);
    var n := |o.steps|;
    forall r: nat | 1 <= r <= n ensures worlds[r].op.status.Running? { StepByStep(o, worlds, env, finish, r); }
    StepByStep(o, worlds, env, finish, n);
    LastCall(worlds[n].op, worlds[n].jobs, finish[n], env(n), worlds[n + 1]);
  }
}
