/** The theorems about whole runs of one application, and about the ports of all of them. */
module ApplicationRuns {
  import opened Common
  import opened ApplicationModel
  import opened ApplicationInvariants

  // ---- reload ---------------------------------------------------------------

  lemma {:induction false} HydrateKeepsReleases(a: App, rs: seq<Release>)
    requires ConfigInv(a) && ShapeInv(a) && Managed(a)
    requires forall r | r in rs :: r in a.releases
    ensures HydrateReleases(a, rs) == Some(rs)
  {
    if rs != [] {
      assert rs[0] in a.releases;
      assert ReleaseOk(a, rs[0]) && RuntimeFits(a, rs[0].runtime);
      HydrateKeepsReleases(a, rs[1..]);
      assert HydrateRelease(a, rs[0]) == Some(rs[0]);
      assert rs == [rs[0]] + rs[1..];
    }
  }

  lemma {:induction false} ClearKeepsBareReleases(rs: seq<Release>)
    requires forall r | r in rs :: r.runtime.None? && r.configurationRevision.None?
    ensures ClearReleases(rs) == rs
  {
    if rs != [] {
      assert rs[0] in rs;
      ClearKeepsBareReleases(rs[1..]);
    }
  }

  /** Persisting and reloading a reachable record neither rejects nor alters it. */
  lemma ReloadClosure(a: App)
    requires Inv(a)
    ensures Hydrate(a) == Ok(a)
  {
    if a.kind.Static? {
      ClearKeepsBareReleases(a.releases);
    } else if Managed(a) {
      HydrateKeepsReleases(a, a.releases);
    }
  }

  lemma StepIsApply(a: App, op: Op)
    requires Inv(a)
    ensures Step(a, op) == if Apply(a, op).Ok? then Apply(a, op).value else a
    ensures Inv(Step(a, op))
  {
    ReloadClosure(a);
    if Apply(a, op).Ok? { StepKeepsInv(a, op); }
  }

  /** The record of a new application of any type. */
  ghost predicate Created(a: App) {
    || (exists id, s, branch, retention, now :: a == CreateStatic(id, s, branch, retention, now))
    || (exists id, s, now :: a == CreatePhp(id, s, now))
    || (exists id, s, branch, retention, adapter, rt, now ::
        CreateNode(id, s, branch, retention, adapter, rt, now) == Ok(a))
    || (exists id, s, branch, retention, rt, now :: CreatePython(id, s, branch, retention, rt, now) == Ok(a))
  }

  lemma CreatedInv(a: App)
    requires Created(a)
    ensures Inv(a) && LastIsActive(a)
  {
  }

  /** Every record any sequence of calls can produce satisfies the invariant. */
  lemma {:induction false} RunKeepsInv(a: App, ops: seq<Op>)
    requires Inv(a)
    ensures Inv(Run(a, ops))
    decreases |ops|
  {
    if ops != [] {
      StepIsApply(a, ops[0]);
      RunKeepsInv(Step(a, ops[0]), ops[1..]);
    }
  }

  lemma ReachableInv(a: App, ops: seq<Op>)
    requires Created(a)
    ensures Inv(Run(a, ops)) && Hydrate(Run(a, ops)) == Ok(Run(a, ops))
  {
    CreatedInv(a);
    RunKeepsInv(a, ops);
    ReloadClosure(Run(a, ops));
  }

  // ---- the operation in flight ----------------------------------------------

  ghost predicate LastIsActive(a: App) { a.phase.Deploying? ==> a.lastDeploymentId == a.activeDeploymentId }

  /** A deployment in flight does not reuse the identity of the release it replaces. */
  ghost predicate FreshFlight(a: App) {
    LastIsActive(a) && (a.phase.Deploying? ==> a.activeDeploymentId != a.currentReleaseId)
  }

  ghost predicate FreshId(a: App, op: Op) { op.MarkDeploying? ==> Some(op.deploymentId) != a.currentReleaseId }

  ghost predicate FreshRun(a: App, ops: seq<Op>)
    decreases |ops|
  {
    ops != [] ==> FreshId(a, ops[0]) && FreshRun(Step(a, ops[0]), ops[1..])
  }

  /** The calls that may end operation `id`. */
  predicate Completes(op: Op, id: Id) {
    || (op.MarkDeployed? && op.deploymentId == id)
    || (op.MarkRolledBack? && op.operationId == id)
    || (op.MarkFailed? && op.reported == Some(id))
  }

  /** Everything a deployment or rollback in flight relies on. */
  ghost predicate SameFlight(a: App, b: App) {
    && a.activeDeploymentId == b.activeDeploymentId && a.phase == b.phase
    && a.pendingRollbackReleaseId == b.pendingRollbackReleaseId
    && a.currentReleaseId == b.currentReleaseId && a.previousReleaseId == b.previousReleaseId
    && a.desiredRevision == b.desiredRevision
    && |a.releases| == |b.releases|
    && forall i | 0 <= i < |a.releases| :: a.releases[i].releaseId == b.releases[i].releaseId
  }

  /** What an operation that installs a release leaves alone. */
  ghost predicate Installs(a: App, c: App) {
    && c.phase.Live? && c.kind == a.kind && c.serverId == a.serverId
    && c.runtime == a.runtime && c.desiredRevision == a.desiredRevision
  }

  lemma DeployedInstalls(a: App, op: Op)
    requires op.MarkDeployed? && DeployedOf(a, op).Ok?
    ensures Installs(a, DeployedOf(a, op).value)
  {
  }

  lemma ActivatedInstalls(a: App, o: Id, r: Id, p: Option<Id>, sha: Option<string>, t: Option<GitTarget>,
                          rt: Option<Runtime>, now: Time)
    requires Activated(a, o, r, p, sha, t, rt, now).Ok?
    ensures var c := Activated(a, o, r, p, sha, t, rt, now).value; c == a || Installs(a, c)
  {
  }

  lemma RolledBackInstalls(a: App, op: Op)
    requires op.MarkRolledBack? && RolledBackOf(a, op).Ok?
    ensures Installs(a, RolledBackOf(a, op).value)
  {
  }

  lemma StepKeepsFreshFlight(a: App, op: Op)
    requires Inv(a)
    ensures LastIsActive(a) ==> LastIsActive(Step(a, op))
    ensures FreshFlight(a) && FreshId(a, op) ==> FreshFlight(Step(a, op))
  {
    StepIsApply(a, op);
    if Apply(a, op).Ok? {
      match op
      case MarkDeployed(_, _, _, _, _, _, _, _, _, _) => DeployedInstalls(a, op);
      case ActivatePassenger(o, r, p, sha, t, rt, now) => ActivatedInstalls(a, o, r, p, sha, t, rt, now);
      case ActivatePython(o, r, p, sha, t, rt, now) => ActivatedInstalls(a, o, r, p, sha, t, rt, now);
      case MarkRolledBack(_, _, _, _, _) => RolledBackInstalls(a, op);
      case _ =>
    }
  }

  lemma RollbackHasPrevious(a: App)
    requires Inv(a) && a.phase.RollingBack?
    ensures a.previousReleaseId.Some?
  {
    var r :| r in a.releases && r.releaseId == a.pendingRollbackReleaseId.value;
  }

  /** While an operation is in flight, a call that does not complete it is refused or only migrates the adapter. */
  lemma OnlyMigrationActs(a: App, op: Op, id: Id)
    requires Hydrate(a) == Ok(a) && FreshFlight(a) && a.activeDeploymentId == Some(id) && !Completes(op, id)
    requires a.phase.Deploying? || (a.phase.RollingBack? && a.previousReleaseId.Some?)
    ensures Step(a, op) == a
        || (op.MarkPassengerMigrated? && a.kind.Node? && Step(a, op) == MigratedOf(a, op.now).value)
  {
    match op
    case MarkDeploying(_, _) => assert DeployingOf(a, op).Err?;
    case MarkDeployed(_, _, _, _, _, _, _, _, _, _) => assert DeployedError(a, op).Some?;
    case ActivatePassenger(o, r, p, sha, t, rt, now) => assert ActivationError(a, o, r, sha, t, rt).Some?;
    case ResetPassenger(o, r, now) =>
    case MarkPassengerMigrated(now) =>
    case ActivatePython(o, r, p, sha, t, rt, now) => assert ActivationError(a, o, r, sha, t, rt).Some?;
    case ResetPython(o, r, now) =>
    case MarkRollingBack(_, _, _) => assert RollingBackOf(a, op).Err?;
    case MarkRolledBack(_, _, _, _, _) => assert RolledBackOf(a, op).Err?;
    case MarkFailed(_, _, _) =>
    case UpdateNodeConfiguration(_, _, _) => assert ConfiguredOf(a, op).Err?;
  }

  lemma StepKeepsFlight(a: App, op: Op, id: Id)
    requires Inv(a) && FreshFlight(a) && a.activeDeploymentId == Some(id) && !Completes(op, id)
    ensures SameFlight(a, Step(a, op))
  {
    ReloadClosure(a);
    if a.phase.RollingBack? { RollbackHasPrevious(a); }
    OnlyMigrationActs(a, op, id);
  }

  /**
   With fresh deployment ids, a deployment or rollback in flight is ended by nothing but
   markDeployed, markRolledBack or markFailed carrying its own id: no reset, activation,
   migration or configuration change drops it or moves what it stands on.
   */
  lemma {:induction false} InFlightExclusive(a: App, ops: seq<Op>, id: Id)
    requires Inv(a) && FreshFlight(a) && a.activeDeploymentId == Some(id) && FreshRun(a, ops)
    requires forall op | op in ops :: !Completes(op, id)
    ensures SameFlight(a, Run(a, ops))
    decreases |ops|
  {
    if ops != [] {
      var b := Step(a, ops[0]);
      assert ops[0] in ops;
      StepIsApply(a, ops[0]);
      StepKeepsFlight(a, ops[0], id);
      StepKeepsFreshFlight(a, ops[0]);
      InFlightExclusive(b, ops[1..], id);
    }
  }

  /**
   A migration during a direct-systemd deployment or rollback takes its completion away: from then on
   the application's own markDeployed or markRolledBack is refused, and nothing but markFailed with its
   id ends it.
   */
  lemma {:induction false} MigrationStrandsFlight(b: App, ops: seq<Op>, id: Id)
    requires Inv(b) && OnPassenger(b) && FreshFlight(b) && b.activeDeploymentId == Some(id) && FreshRun(b, ops)
    requires forall op | op in ops :: !(op.MarkFailed? && op.reported == Some(id))
    ensures SameFlight(b, Run(b, ops)) && OnPassenger(Run(b, ops))
    ensures forall op: Op | op.MarkDeployed? || op.MarkRolledBack? :: Apply(Run(b, ops), op) == Err(AdapterMismatch)
    decreases |ops|
  {
    if ops != [] {
      assert ops[0] in ops;
      StepIsApply(b, ops[0]);
      StrandedStep(b, ops[0], id);
      StepKeepsFreshFlight(b, ops[0]);
      MigrationStrandsFlight(Step(b, ops[0]), ops[1..], id);
    }
  }

  lemma StrandedStep(b: App, op: Op, id: Id)
    requires Inv(b) && OnPassenger(b) && FreshFlight(b) && b.activeDeploymentId == Some(id)
    requires !(op.MarkFailed? && op.reported == Some(id))
    ensures SameFlight(b, Step(b, op)) && OnPassenger(Step(b, op))
  {
    StepIsApply(b, op);
    ReloadClosure(b);
    if b.phase.RollingBack? { RollbackHasPrevious(b); }
    if !Completes(op, id) { OnlyMigrationActs(b, op, id); StepKeepsFlight(b, op, id); }
  }

  /** What the migration makes of a deployment in flight is such an application. */
  lemma MigratedIsStranded(a: App, now: Time, id: Id)
    requires Inv(a) && Direct(a) && FreshFlight(a) && a.activeDeploymentId == Some(id)
    ensures var b := Step(a, MarkPassengerMigrated(now));
      Inv(b) && OnPassenger(b) && FreshFlight(b) && b.activeDeploymentId == Some(id)
  {
    StepIsApply(a, MarkPassengerMigrated(now));
    StepKeepsFreshFlight(a, MarkPassengerMigrated(now));
  }

  predicate Migrates(ops: seq<Op>) { exists op | op in ops :: op.MarkPassengerMigrated? }

  /** One operation that does not complete the flight: it does nothing, or it migrates a Node application. */
  lemma UncompletedStep(a: App, op: Op, id: Id)
    requires Inv(a) && !OnPassenger(a) && FreshFlight(a) && a.activeDeploymentId == Some(id) && FreshId(a, op)
    requires !Completes(op, id)
    ensures var b := Step(a, op);
      if op.MarkPassengerMigrated? && a.kind.Node?
      then Inv(b) && OnPassenger(b) && FreshFlight(b) && b.activeDeploymentId == Some(id)
      else b == a
  {
    StepIsApply(a, op);
    StepKeepsFreshFlight(a, op);
    ReloadClosure(a);
    if a.phase.RollingBack? { RollbackHasPrevious(a); }
    OnlyMigrationActs(a, op, id);
    StepKeepsFlight(a, op, id);
  }

  lemma RunSkips(a: App, ops: seq<Op>)
    requires ops != [] && Step(a, ops[0]) == a && FreshRun(a, ops)
    ensures Run(a, ops) == Run(a, ops[1..]) && FreshRun(a, ops[1..])
  {
  }

  lemma RunTakes(a: App, ops: seq<Op>) returns (b: App)
    requires ops != [] && FreshRun(a, ops)
    ensures b == Step(a, ops[0]) && FreshId(a, ops[0]) && Run(a, ops) == Run(b, ops[1..]) && FreshRun(b, ops[1..])
  {
    b := Step(a, ops[0]);
  }

  /** A run that begins with the migration of a Node application in flight. */
  lemma AfterMigration(a: App, ops: seq<Op>, id: Id) returns (b: App)
    requires Inv(a) && !OnPassenger(a) && FreshFlight(a) && a.activeDeploymentId == Some(id) && FreshRun(a, ops)
    requires a.kind.Node? && ops != [] && ops[0].MarkPassengerMigrated?
    ensures Run(a, ops) == Run(b, ops[1..]) && FreshRun(b, ops[1..])
    ensures Inv(b) && OnPassenger(b) && FreshFlight(b) && b.activeDeploymentId == Some(id)
  {
    b := RunTakes(a, ops);
    UncompletedStep(a, ops[0], id);
  }

  lemma MigratesFirst(a: App, ops: seq<Op>, id: Id)
    requires Inv(a) && !OnPassenger(a) && FreshFlight(a) && a.activeDeploymentId == Some(id) && FreshRun(a, ops)
    requires a.kind.Node? && ops != [] && ops[0].MarkPassengerMigrated? && forall op | op in ops :: !Completes(op, id)
    ensures OnPassenger(Run(a, ops))
  {
    var b := AfterMigration(a, ops, id);
    forall op | op in ops[1..] ensures !(op.MarkFailed? && op.reported == Some(id)) { assert op in ops; }
    MigrationStrandsFlight(b, ops[1..], id);
  }

  /**
   The exact condition.  Until it is completed or failed, nothing at all changes an application with a
   deployment or rollback in flight, unless it is a Node application and is migrated meanwhile.
   */
  lemma {:induction false} OnlyMigrationStrands(a: App, ops: seq<Op>, id: Id)
    requires Inv(a) && !OnPassenger(a) && FreshFlight(a) && a.activeDeploymentId == Some(id) && FreshRun(a, ops)
    requires forall op | op in ops :: !Completes(op, id)
    ensures if a.kind.Node? && Migrates(ops) then OnPassenger(Run(a, ops)) else Run(a, ops) == a
    decreases |ops|
  {
    if ops != [] {
      MigratesSplits(ops);
      if a.kind.Node? && ops[0].MarkPassengerMigrated? {
        MigratesFirst(a, ops, id);
      } else {
        assert Step(a, ops[0]) == a && FreshId(a, ops[0]) by { assert ops[0] in ops; UncompletedStep(a, ops[0], id); }
        RunSkips(a, ops);
        OnlyMigrationStrands(a, ops[1..], id);
      }
    }
  }

  /** What this means for the flight's own completion: answered as at the start, or refused after a migration. */
  lemma CompletionAnswered(a: App, ops: seq<Op>, id: Id, op: Op)
    requires Inv(a) && !OnPassenger(a) && FreshFlight(a) && a.activeDeploymentId == Some(id) && FreshRun(a, ops)
    requires forall x | x in ops :: !Completes(x, id)
    requires op.MarkDeployed? || op.MarkRolledBack?
    ensures Apply(Run(a, ops), op) == if a.kind.Node? && Migrates(ops) then Err(AdapterMismatch) else Apply(a, op)
  {
    OnlyMigrationStrands(a, ops, id);
    PassengerRefuses(Run(a, ops), op);
  }

  lemma PassengerRefuses(a: App, op: Op)
    requires op.MarkDeployed? || op.MarkRolledBack?
    ensures OnPassenger(a) ==> Apply(a, op) == Err(AdapterMismatch)
  {
  }

  lemma MigratesSplits(ops: seq<Op>)
    requires ops != []
    ensures Migrates(ops) <==> ops[0].MarkPassengerMigrated? || Migrates(ops[1..])
  {
    assert ops == [ops[0]] + ops[1..];
    if Migrates(ops) && !ops[0].MarkPassengerMigrated? {
      var op :| op in ops && op.MarkPassengerMigrated?;
      assert op in ops[1..];
    }
  }

  /** Whether a call is a reset of release `id` that its application type accepts. */
  predicate ResetsRelease(a: App, op: Op, id: Id) {
    || (op.ResetPassenger? && OnPassenger(a) && op.operationId == id && op.releaseId == id)
    || (op.ResetPython? && a.kind.Python? && op.operationId == id && op.releaseId == id)
  }

  /**
   The resets never test activeDeploymentId.  One drops operation `id` exactly when that id was
   reused from the initial release still current; fresh ids rule this out.
   */
  lemma ResetDropsFlightIff(a: App, op: Op, id: Id)
    requires Inv(a) && LastIsActive(a) && a.activeDeploymentId == Some(id)
    requires op.ResetPassenger? || op.ResetPython?
    ensures Step(a, op).activeDeploymentId != Some(id) <==>
            ResetsRelease(a, op, id) && a.currentReleaseId == Some(id) && a.previousReleaseId.None?
  {
    StepIsApply(a, op);
    if a.phase.RollingBack? {
      var r :| r in a.releases && r.releaseId == a.pendingRollbackReleaseId.value;
      assert a.previousReleaseId.Some?;
    }
  }

  lemma FirstActivation(a: App, id: Id)
    requires Inv(a) && a.kind.Python? && a.currentReleaseId.None? && a.activeDeploymentId.None?
    ensures var b := Step(a, ActivatePython(id, id, None, Some("c"), None, None, 1));
      b.kind.Python? && b.activeDeploymentId.None? && b.currentReleaseId == Some(id) && b.previousReleaseId.None?
  {
    StepIsApply(a, ActivatePython(id, id, None, Some("c"), None, None, 1));
  }

  lemma Redeploy(b: App, id: Id)
    requires Inv(b) && b.kind.Python? && b.activeDeploymentId.None?
    ensures var c := Step(b, MarkDeploying(id, 2));
      && LastIsActive(c) && c.activeDeploymentId == Some(id) && c.kind.Python?
      && c.currentReleaseId == b.currentReleaseId && c.previousReleaseId == b.previousReleaseId
  {
    StepIsApply(b, MarkDeploying(id, 2));
  }

  /** A concrete run that reuses an id and loses the deployment in flight. */
  lemma ReusedIdLosesDeployment()
    ensures exists a: App, first: Op, second: Op, third: Op ::
      && Created(a)
      && Run(a, [first, second]).activeDeploymentId == Some(7)
      && third.ResetPython? && Run(a, [first, second, third]).activeDeploymentId != Some(7)
  {
    var a := CreatePython(1, 1, "main", 5, Runtime(None, "/", ""), 0).value;
    var first, second, third := ActivatePython(7, 7, None, Some("c"), None, None, 1), MarkDeploying(7, 2),
        ResetPython(7, 7, 3);
    assert Created(a);
    CreatedInv(a);
    FirstActivation(a, 7);
    StepIsApply(a, first);
    var b := Step(a, first);
    Redeploy(b, 7);
    StepIsApply(b, second);
    var c := Step(b, second);
    ResetDropsFlightIff(c, third, 7);
    assert [first, second][1..] == [second] && [second][1..] == [];
    assert [first, second, third][1..] == [second, third] && [second, third][1..] == [third] && [third][1..] == [];
    assert Run(a, [first, second]) == Run(b, [second]) == Run(c, []);
    assert Run(a, [first, second, third]) == Run(b, [second, third]) == Run(c, [third]) == Run(Step(c, third), []);
  }

  /** The rollback target is still retained when the rollback completes. */
  lemma RollbackTargetRetained(a: App, op: Op)
    requires Inv(a) && op.MarkRolledBack?
    ensures Apply(a, op) != Err(RollbackReleaseUnknown) && Apply(a, op) != Err(StateInvalid)
  {
    if a.pendingRollbackReleaseId == Some(op.releaseId) && Managed(a) {
      assert ReleaseOk(a, Find(a.releases, op.releaseId).value);
    }
  }

  // ---- configuration revisions ----------------------------------------------

  /** A live application whose applied revision is the desired one has nothing pending. */
  lemma AppliedMeansNothingPending(a: App)
    requires Inv(a) && a.appliedRevision == a.desiredRevision
    ensures !ConfigurationPending(a)
  {
    if a.currentReleaseId.Some? && Managed(a) {
      var r :| r in a.releases && r.releaseId == a.currentReleaseId.value;
      assert ReleaseOk(a, r);
    }
  }

  /** Later state b against earlier state a: equal revisions name equal configurations, up to the port. */
  ghost predicate RevisionsAgree(a: App, b: App) {
    && a.desiredRevision <= b.desiredRevision
    && (a.desiredRevision == b.desiredRevision ==> StripOption(a.runtime) == StripOption(b.runtime))
    && (forall s | s in b.releases && s.configurationRevision == Some(a.desiredRevision) ::
          StripOption(s.runtime) == StripOption(a.runtime))
    && (forall r, s | r in a.releases && s in b.releases && r.configurationRevision == s.configurationRevision ::
          StripOption(r.runtime) == StripOption(s.runtime))
  }

  /** A release as the next state records it, in the terms of state b. */
  ghost predicate Origin(b: App, was: Release, s: Release) {
    && was.configurationRevision == s.configurationRevision
    && StripOption(was.runtime) == StripOption(s.runtime)
    && (was in b.releases || (was.configurationRevision == Some(b.desiredRevision) && was.runtime == b.runtime))
  }

  lemma DeployOrigins(b: App, op: Op, s: Release)
    requires Inv(b) && Managed(b) && op.MarkDeployed? && DeployedOf(b, op).Ok? && s in DeployedOf(b, op).value.releases
    ensures Origin(b, s, s)
  {
    var c := DeployedOf(b, op).value;
    var rel := Release(op.releaseId, op.deploymentId, op.commitSha.value, Target(b, op.gitTarget), op.artifactFiles,
                       op.artifactBytes, op.now, b.runtime, Some(b.desiredRevision));
    assert c == Recorded(c.(releases := b.releases), rel);
    RecordedKeepsHistory(b, c.(releases := b.releases), rel);
  }

  lemma ActivateOrigins(b: App, o: Id, r: Id, p: Option<Id>, sha: Option<string>, t: Option<GitTarget>,
                        rt: Option<Runtime>, now: Time, s: Release)
    requires Inv(b) && (OnPassenger(b) || b.kind.Python?)
    requires Activated(b, o, r, p, sha, t, rt, now).Ok? && s in Activated(b, o, r, p, sha, t, rt, now).value.releases
    ensures Origin(b, s, s)
  {
    var c := Activated(b, o, r, p, sha, t, rt, now).value;
    if b.currentReleaseId != Some(r) {
      var rel := Release(r, o, sha.value, Target(b, t), None, None, now, b.runtime, Some(b.desiredRevision));
      assert c == Recorded(c.(releases := b.releases), rel);
      RecordedKeepsHistory(b, c.(releases := b.releases), rel);
    }
  }

  /** Where each release of the next state comes from. */
  lemma StepOrigins(b: App, op: Op, s: Release) returns (was: Release)
    requires Inv(b) && Managed(b) && s in Step(b, op).releases
    ensures Origin(b, was, s)
  {
    ReloadClosure(b);
    was := s;
    if Apply(b, op).Ok? {
      match op
      case MarkDeploying(_, _) =>
      case MarkDeployed(_, _, _, _, _, _, _, _, _, _) => DeployOrigins(b, op, s);
      case ActivatePassenger(o, r, p, sha, t, rt, now) => ActivateOrigins(b, o, r, p, sha, t, rt, now, s);
      case ResetPassenger(o, r, now) =>
      case MarkPassengerMigrated(now) =>
        if b.adapter != Some(Passenger) { was := StripOrigin(b.releases, s); }
      case ActivatePython(o, r, p, sha, t, rt, now) => ActivateOrigins(b, o, r, p, sha, t, rt, now, s);
      case ResetPython(o, r, now) =>
      case MarkRollingBack(_, _, _) =>
      case MarkRolledBack(_, _, _, _, _) => RolledBackKeepsHistory(b, op, RolledBackOf(b, op).value);
      case MarkFailed(_, _, _) =>
      case UpdateNodeConfiguration(_, _, _) =>
    }
  }

  /** The port a stored application occupies on its server. */
  function HeldPort(a: App): Option<int> {
    if (a.kind.Node? || a.kind.Python?) && a.runtime.Some? then a.runtime.value.port else None
  }

  /** Only a configuration edit moves the desired runtime; the migration strips its port. */
  lemma StepDesired(b: App, op: Op)
    requires Hydrate(b) == Ok(b)
    ensures var c := Step(b, op); c.kind == b.kind && c.serverId == b.serverId
    ensures var c := Step(b, op);
      if op.UpdateNodeConfiguration? && c != b then c.desiredRevision == b.desiredRevision + 1
      else c.desiredRevision == b.desiredRevision && StripOption(b.runtime) == StripOption(c.runtime)
    ensures HeldPort(Step(b, op)).Some? ==> HeldPort(Step(b, op)) == HeldPort(b)
  {
    if Apply(b, op).Ok? {
      match op
      case MarkDeployed(_, _, _, _, _, _, _, _, _, _) => DeployedInstalls(b, op);
      case ActivatePassenger(o, r, p, sha, t, rt, now) => ActivatedInstalls(b, o, r, p, sha, t, rt, now);
      case ActivatePython(o, r, p, sha, t, rt, now) => ActivatedInstalls(b, o, r, p, sha, t, rt, now);
      case MarkRolledBack(_, _, _, _, _) => RolledBackInstalls(b, op);
      case _ =>
    }
  }

  lemma StepKeepsAgreement(a: App, b: App, op: Op)
    requires Inv(a) && Inv(b) && Managed(a) && Managed(b) && RevisionsAgree(a, b)
    ensures RevisionsAgree(a, Step(b, op))
  {
    ReloadClosure(b);
    StepDesired(b, op);
    var c := Step(b, op);
    forall s | s in c.releases && s.configurationRevision == Some(a.desiredRevision)
      ensures StripOption(s.runtime) == StripOption(a.runtime)
    {
      var was := StepOrigins(b, op, s);
    }
    forall r, s | r in a.releases && s in c.releases && r.configurationRevision == s.configurationRevision
      ensures StripOption(r.runtime) == StripOption(s.runtime)
    {
      var was := StepOrigins(b, op, s);
      assert ReleaseOk(a, r);
    }
  }

  lemma {:induction false} RunKeepsAgreement(a: App, b: App, ops: seq<Op>)
    requires Inv(a) && Inv(b) && Managed(a) && Managed(b) && RevisionsAgree(a, b)
    ensures RevisionsAgree(a, Run(b, ops))
    decreases |ops|
  {
    if ops != [] {
      StepKeepsAgreement(a, b, ops[0]);
      ReloadClosure(b);
      StepDesired(b, ops[0]);
      StepIsApply(b, ops[0]);
      RunKeepsAgreement(a, Step(b, ops[0]), ops[1..]);
    }
  }

  /**
   A configuration revision names one configuration for the whole life of an application: two
   releases recorded at any two moments of a run under the same revision ran the same runtime,
   whatever deployments, rollbacks, resets, edits and port-stripping migrations lie between.
   */
  lemma RevisionNamesOneRuntime(a: App, ops: seq<Op>, r: Release, s: Release)
    requires Inv(a) && Managed(a)
    requires r in a.releases && s in Run(a, ops).releases && r.configurationRevision == s.configurationRevision
    ensures StripOption(r.runtime) == StripOption(s.runtime)
  {
    forall x | x in a.releases ensures ReleaseOk(a, x) { }
    RunKeepsAgreement(a, a, ops);
  }
}
