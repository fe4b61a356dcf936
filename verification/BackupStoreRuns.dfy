/** Whole runs of the backup operation store: requests in a row, crashes inside persist, and overlapping first reads. */
module BackupStoreRuns {
  import opened Common
  import opened Texts
  import opened BackupPlan
  import opened BackupPlanTheorems
  import opened BackupOperation
  import opened BackupStore

  function Run(s: Store, rs: seq<Request>): Store
    decreases |rs|
  {
    if rs == [] then s else Run(Apply(s, rs[0]).0, rs[1..])
  }

  predicate FreshAlong(s: Store, rs: seq<Request>)
    decreases |rs|
  {
    rs == [] || (Fresh(s, rs[0]) && FreshAlong(Apply(s, rs[0]).0, rs[1..]))
  }

  /** A step's later states: never back, a linked work reference stays, and an outcome is final. */
  predicate StepLater(s: StepState, n: StepState) {
    && n.stepId == s.stepId
    && (n == s || s.status.Pending? || (s.status.Dispatched? && !n.status.Pending? && n.workRef == s.workRef))
  }

  predicate Later(o: Operation, n: Operation) {
    && n.id == o.id && n.plan == o.plan && n.serverId == o.serverId && n.createdAt == o.createdAt
    && |n.steps| == |o.steps| && (forall i | 0 <= i < |o.steps| :: StepLater(o.steps[i], n.steps[i]))
    && (!Active(o) ==> n == o)
  }

  lemma LaterTransitive(a: Operation, b: Operation, c: Operation)
    requires Forward(a, b) && Later(b, c)
    ensures Later(a, c)
  {
    forall i | 0 <= i < |a.steps| ensures StepLater(a.steps[i], c.steps[i]) {
      assert StepForward(a.steps[i], b.steps[i]) && StepLater(b.steps[i], c.steps[i]);
    }
  }

  /**
   Over every run of requests the store can be reloaded unchanged at any point, no server has two
   active operations, and each operation only moves forward and is frozen once terminal.
   */
  lemma {:induction false} RunKeeps(s: Store, rs: seq<Request>)
    requires StoreOk(s) && FreshAlong(s, rs)
    ensures StoreOk(Run(s, rs)) && NormalizeStore(Run(s, rs)) == Some(Run(s, rs))
    ensures |Run(s, rs)| >= |s| && forall i | 0 <= i < |s| :: Later(s[i], Run(s, rs)[i])
    decreases |rs|
  {
    if rs == [] {
      ReloadUnchanged(s);
    } else {
      ApplyKeeps(s, rs[0]);
      var n := Apply(s, rs[0]).0;
      RunKeeps(n, rs[1..]);
      forall i | 0 <= i < |s| ensures Later(s[i], Run(s, rs)[i]) { LaterTransitive(s[i], n[i], Run(s, rs)[i]); }
    }
  }

  /** The stored plan is one createBackupExecutionPlan made from a preview that createBackupPlan returned. */
  ghost predicate Planned(o: Operation) { exists p: Preview :: FromPlan(p) && Executed(p) == Ok(o.plan) }

  /** A step id belongs to one step of one stored operation, and so does the child job key derived from it. */
  lemma StepNamesOneOperation(s: Store, i: nat, j: nat, a: nat, b: nat)
    requires StoreOk(s) && i < |s| && j < |s| && a < |s[i].plan.steps| && b < |s[j].plan.steps|
    requires Planned(s[i]) && Planned(s[j])
    requires s[i].plan.steps[a].stepId == s[j].plan.steps[b].stepId
    ensures i == j && a == b
  {
    var p: Preview :| FromPlan(p) && Executed(p) == Ok(s[i].plan);
    var q: Preview :| FromPlan(q) && Executed(q) == Ok(s[j].plan);
    StepNamesOnePlan(p, q, a, b);
    assert s[i].idempotencyKey == s[i].plan.idempotencyKey && s[j].idempotencyKey == s[j].plan.idempotencyKey;
  }

  // ---- the file and crashes --------------------------------------------------

  /** A file as it can be found on disk: cut off, or a whole store. */
  datatype Image = Partial | Whole(store: Store)

  datatype Disk = Disk(file: Option<Store>, temporary: Option<Image>)

  /** The awaits of persist: making the directory, writing the temporary file, renaming it. */
  datatype Phase = BeforeWrite | DuringWrite | Written | Renamed

  function Persisting(d: Disk, next: Store, phase: Phase): Disk {
    match phase
    case BeforeWrite => d
    case DuringWrite => d.(temporary := Some(Partial))
    case Written => d.(temporary := Some(Whole(next)))
    case Renamed => Disk(Some(next), None)
  }

  /** What init reads: nothing without a file, and a refusal if the file does not re-read. */
  function Recovered(d: Disk): Option<Store> {
    if d.file.None? then Some([]) else NormalizeStore(d.file.value)
  }

  datatype How = Completed | Crashed(phase: Phase)
  datatype Event = Event(request: Request, how: How)

  predicate TookEffect(h: How) { h.Completed? || h.phase.Renamed? }

  datatype World = World(memory: Store, disk: Disk)

  /**
   A mutation to `next` that completes, or one the process dies in, followed by a restart; None if
   the restart refuses the file.
   */
  function Happen(w: World, next: Store, h: How): Option<World> {
    if h.Completed? then
      if next == w.memory then Some(w) else Some(World(next, Persisting(w.disk, next, Renamed)))
    else
      var disk := if next == w.memory then w.disk else Persisting(w.disk, next, h.phase);
      var store := Recovered(disk);
      if store.Some? then Some(World(store.value, disk)) else None
  }

  function History(w: World, es: seq<Event>): Option<World>
    decreases |es|
  {
    if es == [] then Some(w)
    else
      var next := Happen(w, Apply(w.memory, es[0].request).0, es[0].how);
      if next.None? then None else History(next.value, es[1..])
  }

  /** The requests that took effect: the completed ones, and of the interrupted ones those past the rename. */
  function Effective(es: seq<Event>): seq<Request> {
    if es == [] then []
    else (if TookEffect(es[0].how) then [es[0].request] else []) + Effective(es[1..])
  }

  predicate FreshEvents(s: Store, es: seq<Event>)
    decreases |es|
  {
    es == [] || (Fresh(s, es[0].request)
                 && FreshEvents(if TookEffect(es[0].how) then Apply(s, es[0].request).0 else s, es[1..]))
  }

  lemma EventKeeps(w: World, next: Store, h: How)
    requires NormalizeStore(next) == Some(next) && Recovered(w.disk) == Some(w.memory)
    ensures var r := Happen(w, next, h);
      r.Some? && Recovered(r.value.disk) == Some(r.value.memory) && r.value.memory == if TookEffect(h) then next
      else w.memory
  {
  }

  lemma RequestKeeps(s: Store, r: Request)
    requires StoreOk(s) && Fresh(s, r)
    ensures StoreOk(Apply(s, r).0) && NormalizeStore(Apply(s, r).0) == Some(Apply(s, r).0)
  {
    ApplyKeeps(s, r);
    ReloadUnchanged(Apply(s, r).0);
  }

  /**
   Through any history of requests and crashes the store is never refused, memory and file agree
   after every event, and the state is that of the requests that took effect, run one after another.
   */
  lemma {:induction false} CrashesAreAtomic(w: World, es: seq<Event>)
    requires StoreOk(w.memory) && Recovered(w.disk) == Some(w.memory) && FreshEvents(w.memory, es)
    ensures var r := History(w, es);
      && r.Some? && Recovered(r.value.disk) == Some(r.value.memory)
      && StoreOk(r.value.memory) && r.value.memory == Run(w.memory, Effective(es))
    decreases |es|
  {
    if es != [] {
      var next := Apply(w.memory, es[0].request).0;
      RequestKeeps(w.memory, es[0].request);
      EventKeeps(w, next, es[0].how);
      CrashesAreAtomic(Happen(w, next, es[0].how).value, es[1..]);
      var rest := Effective(es[1..]);
      assert Effective(es) == if TookEffect(es[0].how) then [es[0].request] + rest else rest;
      assert ([es[0].request] + rest)[1..] == rest;
    }
  }

  // ---- the first read --------------------------------------------------------

  /** init's reads that have started and not finished: None where the file did not exist yet. */
  datatype Loading = Loading(memory: Store, disk: Disk, initialized: bool, loads: seq<Option<Store>>)

  datatype Move = BeginRead | EndRead(k: nat) | Mutate(request: Request)

  predicate Enabled(l: Loading, m: Move) {
    match m
    case BeginRead => !l.initialized && Recovered(l.disk).Some?
    case EndRead(k) => k < |l.loads|
    case Mutate(_) => l.initialized
  }

  function Committed(l: Loading, next: Store): Loading {
    if next == l.memory then l else l.(memory := next, disk := Persisting(l.disk, next, Renamed))
  }

  function Moved(l: Loading, m: Move): Loading
    requires Enabled(l, m)
  {
    match m
    case BeginRead => l.(loads := l.loads + [if l.disk.file.None? then None else Recovered(l.disk)])
    case EndRead(k) =>
      l.(memory := if l.loads[k].Some? then l.loads[k].value
         else l.memory, initialized := true, loads := l.loads[..k] + l.loads[k + 1..])
    case Mutate(r) =>
      Committed(l, Apply(l.memory, r).0)
  }

  predicate InSync(l: Loading) { l.initialized ==> Recovered(l.disk) == Some(l.memory) }

  /**
   A read that finishes after the store is in use keeps memory and file together exactly when
   nothing was committed since it began.
   */
  lemma LateRead(l: Loading, k: nat)
    requires l.initialized && InSync(l) && k < |l.loads|
    ensures InSync(Moved(l, EndRead(k))) <==> l.loads[k].None? || l.loads[k] == Recovered(l.disk)
  {
  }

  predicate Runs(l: Loading, ms: seq<Move>)
    decreases |ms|
  {
    ms == [] || (Enabled(l, ms[0]) && Runs(Moved(l, ms[0]), ms[1..]))
  }

  function After(l: Loading, ms: seq<Move>): Loading
    requires Runs(l, ms)
    decreases |ms|
  {
    if ms == [] then l else After(Moved(l, ms[0]), ms[1..])
  }

  /** Every mutation starts with no read outstanding: what awaiting init before the first call gives. */
  predicate InitAwaited(l: Loading, ms: seq<Move>)
    requires Runs(l, ms)
    decreases |ms|
  {
    ms == [] || ((ms[0].Mutate? ==> l.loads == []) && InitAwaited(Moved(l, ms[0]), ms[1..]))
  }

  predicate FreshMoves(l: Loading, ms: seq<Move>)
    requires Runs(l, ms)
    decreases |ms|
  {
    ms == [] || ((ms[0].Mutate? ==> Fresh(l.memory, ms[0].request)) && FreshMoves(Moved(l, ms[0]), ms[1..]))
  }

  /** The file can be read, and memory and every outstanding read agree with it. */
  predicate Synced(l: Loading) {
    && Recovered(l.disk).Some?
    && (!l.initialized && l.disk.file.None? ==> l.memory == []) && InSync(l)
    && (forall k | 0 <= k < |l.loads| ::
        if l.disk.file.None? then l.loads[k].None? else l.loads[k] == Recovered(l.disk))
  }

  ghost predicate Loadable(l: Loading) { Synced(l) && StoreOk(Recovered(l.disk).value) }

  lemma CommitKeepsSync(l: Loading, next: Store)
    requires Synced(l) && l.initialized && l.loads == [] && NormalizeStore(next) == Some(next)
    ensures Synced(Committed(l, next)) && Recovered(Committed(l, next).disk) == Some(next)
  {
  }

  lemma ReadKeepsSync(l: Loading, m: Move)
    requires Synced(l) && Enabled(l, m) && !m.Mutate?
    ensures Synced(Moved(l, m)) && Moved(l, m).disk == l.disk
  {
  }

  lemma MoveKeepsSync(l: Loading, m: Move)
    requires Loadable(l) && Enabled(l, m)
    requires m.Mutate? ==> l.loads == [] && Fresh(l.memory, m.request)
    ensures Loadable(Moved(l, m))
  {
    if m.Mutate? {
      RequestKeeps(l.memory, m.request);
      CommitKeepsSync(l, Apply(l.memory, m.request).0);
    } else {
      ReadKeepsSync(l, m);
    }
  }

  /** With init awaited before the first mutation, memory and file agree at every point of every run. */
  lemma {:induction false} AwaitedInitStaysInSync(l: Loading, ms: seq<Move>)
    requires Loadable(l) && Runs(l, ms) && InitAwaited(l, ms) && FreshMoves(l, ms)
    ensures InSync(After(l, ms)) && Loadable(After(l, ms))
    decreases |ms|
  {
    if ms != [] {
      MoveKeepsSync(l, ms[0]);
      AwaitedInitStaysInSync(Moved(l, ms[0]), ms[1..]);
    }
  }

  lemma FirstMove(l: Loading, m: Move, ms: seq<Move>, next: Loading, end: Loading)
    requires Enabled(l, m) && Moved(l, m) == next && Runs(next, ms) && After(next, ms) == end
    ensures Runs(l, [m] + ms) && After(l, [m] + ms) == end
  {
    assert ([m] + ms)[1..] == ms;
  }

  lemma MutateTo(l: Loading, r: Request, next: Store)
    requires l.initialized && next == Apply(l.memory, r).0 && next != l.memory
    ensures Moved(l, Mutate(r)) == l.(memory := next, disk := Disk(Some(next), None))
  {
  }

  /** A read of `s` still outstanding when a mutation to `next` commits brings `s` back. */
  lemma StaleEnd(s: Store, next: Store)
    requires NormalizeStore(s) == Some(s)
    ensures var l := Loading(next, Disk(Some(next), None), true, [Some(s)]);
      Enabled(l, EndRead(0)) && Moved(l, EndRead(0)) == Loading(s, Disk(Some(next), None), true, [])
  {
  }

  lemma StaleReadReturns(s: Store, r: Request, next: Store)
    requires NormalizeStore(s) == Some(s) && next == Apply(s, r).0 && next != s
    ensures var l, ms := Loading(s, Disk(Some(s), None), true, [Some(s)]), [Mutate(r), EndRead(0)];
      Runs(l, ms) && After(l, ms) == Loading(s, Disk(Some(next), None), true, [])
  {
    var l := Loading(s, Disk(Some(s), None), true, [Some(s)]);
    var l1 := Loading(next, Disk(Some(next), None), true, [Some(s)]);
    var l2 := Loading(s, Disk(Some(next), None), true, []);
    assert Enabled(l, Mutate(r)) && Moved(l, Mutate(r)) == l1 by { MutateTo(l, r, next); }
    StaleEnd(s, next);
    assert Runs(l1, [EndRead(0)]) && After(l1, [EndRead(0)]) == l2 by {
      FirstMove(l1, EndRead(0), [], l2, l2);
      assert [EndRead(0)] + [] == [EndRead(0)];
    }
    FirstMove(l, Mutate(r), [EndRead(0)], l1, l2);
    assert [Mutate(r)] + [EndRead(0)] == [Mutate(r), EndRead(0)];
  }

  lemma TwoReads(s: Store, ms: seq<Move>, end: Loading)
    requires NormalizeStore(s) == Some(s)
    requires Runs(Loading(s, Disk(Some(s), None), true, [Some(s)]), ms)
    requires After(Loading(s, Disk(Some(s), None), true, [Some(s)]), ms) == end
    ensures var l := Loading([], Disk(Some(s), None), false, []);
      Synced(l) && Runs(l, [BeginRead, BeginRead, EndRead(1)] + ms)
      && After(l, [BeginRead, BeginRead, EndRead(1)] + ms) == end
  {
    var l0 := Loading([], Disk(Some(s), None), false, []);
    var l1, l2 := l0.(loads := [Some(s)]), l0.(loads := [Some(s), Some(s)]);
    FirstMove(l2, EndRead(1), ms, Loading(s, l0.disk, true, [Some(s)]), end);
    FirstMove(l1, BeginRead, [EndRead(1)] + ms, l2, end);
    FirstMove(l0, BeginRead, [BeginRead] + ([EndRead(1)] + ms), l1, end);
    assert [BeginRead] + ([BeginRead] + ([EndRead(1)] + ms)) == [BeginRead, BeginRead, EndRead(1)] + ms;
  }

  /**
   Without it a committed request can disappear from memory: a lookup's first read that finishes
   after a mutation puts the store back to what it was before.
   */
  lemma OverlappingInitLosesCommit(s: Store, r: Request)
    requires StoreOk(s) && Fresh(s, r) && Apply(s, r).0 != s
    ensures var l, ms := Loading([], Disk(Some(s), None), false, []),
        [BeginRead, BeginRead, EndRead(1), Mutate(r), EndRead(0)];
      Synced(l) && Runs(l, ms) && After(l, ms).memory == s && Recovered(After(l, ms).disk) == Some(Apply(s, r).0)
  {
    ReloadUnchanged(s);
    RequestKeeps(s, r);
    var next := Apply(s, r).0;
    StaleReadReturns(s, r, next);
    TwoReads(s, [Mutate(r), EndRead(0)], Loading(s, Disk(Some(next), None), true, []));
    assert [BeginRead, BeginRead, EndRead(1)] + [Mutate(r), EndRead(0)]
        == [BeginRead, BeginRead, EndRead(1), Mutate(r), EndRead(0)];
  }
}
