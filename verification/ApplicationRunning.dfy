/**
 What an application says it is running, against its release history: over every run, and through a
 rollback and back.
 */
module ApplicationRunning {
  import opened Common
  import opened ApplicationModel
  import opened ApplicationInvariants
  import opened ApplicationRuns

  /** Current release, commit and Git target are one record of the history. */
  ghost predicate CurrentInv(a: App) {
    && (a.currentReleaseId.Some? <==> a.currentCommitSha.Some?)
    && (a.currentReleaseId.Some? <==> a.currentGitTarget.Some?)
    && (forall r | r in a.releases && Some(r.releaseId) == a.currentReleaseId ::
          a.currentCommitSha == Some(r.commitSha) && a.currentGitTarget == Some(r.gitTarget))
  }

  /** Nothing in flight: live with a current release, and only then. */
  ghost predicate PhaseInv(a: App) {
    a.activeDeploymentId.None? ==> (a.phase.Live? <==> a.currentReleaseId.Some?)
  }

  /** A Node application with a release: the unit, the ports and the health path are those of the active runtime. */
  ghost predicate HostInv(a: App) {
    a.kind.Node? && a.currentReleaseId.Some? ==>
      && a.activeRuntime.Some? && a.healthPath == Some(a.activeRuntime.value.healthPath)
      && (Direct(a) ==> a.serviceName == Some(NodeUnit(a.id)) && a.servicePort == a.activeRuntime.value.port
                        && a.proxyPort == a.activeRuntime.value.port)
  }

  ghost predicate RunningInv(a: App) { CurrentInv(a) && PhaseInv(a) && HostInv(a) }

  // ---- every operation keeps it ----------------------------------------------

  /** A recorded release is the one its id names. */
  lemma RecordedNames(b: App, rel: Release)
    requires 2 <= b.retention
    ensures forall r | r in Recorded(b, rel).releases && r.releaseId == rel.releaseId :: r == rel
  {
    var added := [rel] + Without(b.releases, rel.releaseId);
    TrimKeeps(added, b.currentReleaseId, b.previousReleaseId, b.retention);
    forall r | r in Recorded(b, rel).releases && r.releaseId == rel.releaseId ensures r == rel { assert r in added; }
  }

  /** The release a completed deployment records. */
  ghost function NewRelease(a: App, op: Op): Release
    requires op.MarkDeployed? && op.commitSha.Some?
  {
    Release(op.releaseId, op.deploymentId, op.commitSha.value, Target(a, op.gitTarget), op.artifactFiles,
            op.artifactBytes, op.now, if Managed(a) then a.runtime else None,
            if Managed(a) then Some(a.desiredRevision) else None)
  }

  lemma DeployedRecords(a: App, op: Op)
    requires op.MarkDeployed? && DeployedOf(a, op).Ok?
    ensures var c := DeployedOf(a, op).value; c == Recorded(c.(releases := a.releases), NewRelease(a, op))
  {
  }

  lemma DeployedHosted(a: App, op: Op)
    requires Inv(a) && op.MarkDeployed? && DeployedOf(a, op).Ok?
    ensures HostInv(DeployedOf(a, op).value)
  {
    var c := DeployedOf(a, op).value;
    if a.kind.Node? {
      assert Direct(a) && ProbeError(a, a.runtime.value, op.probe).None?;
      assert c.activeRuntime == a.runtime && c.serviceName == op.probe.serviceName && c.servicePort == op.probe.port
             && c.healthPath == op.probe.healthPath && c.proxyPort == op.probe.port;
    }
  }

  lemma DeployedRuns(a: App, op: Op)
    requires Inv(a) && RunningInv(a) && op.MarkDeployed? && DeployedOf(a, op).Ok?
    ensures RunningInv(DeployedOf(a, op).value)
  {
    DeployedHosted(a, op);
    var c, rel := DeployedOf(a, op).value, NewRelease(a, op);
    var b := c.(releases := a.releases);
    DeployedRecords(a, op);
    RecordedNames(b, rel);
  }

  lemma ActivatedRuns(a: App, o: Id, r: Id, p: Option<Id>, sha: Option<string>, t: Option<GitTarget>,
                      rt: Option<Runtime>, now: Time)
    requires Inv(a) && RunningInv(a) && (OnPassenger(a) || a.kind.Python?) && Activated(a, o, r, p, sha, t, rt, now).Ok?
    ensures RunningInv(Activated(a, o, r, p, sha, t, rt, now).value)
  {
    var c := Activated(a, o, r, p, sha, t, rt, now).value;
    if a.currentReleaseId != Some(r) {
      var rel := Release(r, o, sha.value, Target(a, t), None, None, now, a.runtime, Some(a.desiredRevision));
      var b := c.(releases := a.releases);
      assert c == Recorded(b, rel);
      RecordedNames(b, rel);
    }
  }

  lemma MigratedRuns(a: App, now: Time)
    requires Inv(a) && RunningInv(a) && a.kind.Node?
    ensures RunningInv(MigratedOf(a, now).value)
  {
    var b := MigratedOf(a, now).value;
    if a.adapter != Some(Passenger) {
      forall r | r in b.releases && Some(r.releaseId) == b.currentReleaseId
        ensures b.currentCommitSha == Some(r.commitSha) && b.currentGitTarget == Some(r.gitTarget)
      {
        var was := StripOrigin(a.releases, r);
      }
    }
  }

  lemma RolledBackRuns(a: App, op: Op)
    requires Inv(a) && RunningInv(a) && op.MarkRolledBack? && RolledBackOf(a, op).Ok?
    ensures RunningInv(RolledBackOf(a, op).value)
  {
    RolledBackKeepsHistory(a, op, RolledBackOf(a, op).value);
  }

  lemma OthersRun(a: App, op: Op)
    requires Inv(a) && RunningInv(a) && Apply(a, op).Ok?
    requires op.MarkDeploying? || op.MarkRollingBack? || op.MarkFailed? || op.UpdateNodeConfiguration?
             || op.ResetPassenger? || op.ResetPython?
    ensures RunningInv(Apply(a, op).value)
  {
  }

  lemma StepKeepsRunning(a: App, op: Op)
    requires Inv(a) && RunningInv(a) && Apply(a, op).Ok?
    ensures RunningInv(Apply(a, op).value)
  {
    match op
    case MarkDeployed(_, _, _, _, _, _, _, _, _, _) => DeployedRuns(a, op);
    case ActivatePassenger(o, r, p, sha, t, rt, now) => ActivatedRuns(a, o, r, p, sha, t, rt, now);
    case MarkPassengerMigrated(now) => MigratedRuns(a, now);
    case ActivatePython(o, r, p, sha, t, rt, now) => ActivatedRuns(a, o, r, p, sha, t, rt, now);
    case MarkRolledBack(_, _, _, _, _) => RolledBackRuns(a, op);
    case _ => OthersRun(a, op);
  }

  lemma {:induction false} RunKeepsRunning(a: App, ops: seq<Op>)
    requires Inv(a) && RunningInv(a)
    ensures Inv(Run(a, ops)) && RunningInv(Run(a, ops))
    decreases |ops|
  {
    if ops != [] {
      StepIsApply(a, ops[0]);
      if Apply(a, ops[0]).Ok? { StepKeepsRunning(a, ops[0]); }
      RunKeepsRunning(Step(a, ops[0]), ops[1..]);
    }
  }

  lemma CreatedRuns(a: App)
    requires Created(a)
    ensures RunningInv(a)
  {
  }

  /** After creation and any calls, an application says it runs exactly what its history and its runtime record. */
  lemma ReachableRunning(a: App, ops: seq<Op>)
    requires Created(a)
    ensures RunningInv(Run(a, ops))
  {
    CreatedInv(a);
    CreatedRuns(a);
    RunKeepsRunning(a, ops);
  }

  // ---- what a new release leaves --------------------------------------------

  /** The release is current and recorded under its id, and the one it replaces is the previous one, still retained. */
  ghost predicate Installed(a: App, b: App, id: Id, sha: string, target: GitTarget, now: Time) {
    && b.currentReleaseId == Some(id) && b.currentCommitSha == Some(sha) && b.currentGitTarget == Some(target)
    && b.previousReleaseId == a.currentReleaseId && b.activeDeploymentId.None? && b.phase.Live?
    && Has(b.releases, id)
    && (forall r | r in b.releases && r.releaseId == id ::
          r.commitSha == sha && r.gitTarget == target && r.deployedAt == now && r.deploymentId == id)
    && (forall r | r in b.releases && r.releaseId != id :: r in a.releases)
    && (a.currentReleaseId.Some? ==> Has(b.releases, a.currentReleaseId.value))
    && b.lastDeployedAt == Some(now)
  }

  lemma DeploymentInstalls(a: App, op: Op)
    requires Inv(a) && op.MarkDeployed? && DeployedOf(a, op).Ok?
    ensures a.activeDeploymentId == Some(op.deploymentId) && op.commitSha.Some?
    ensures Installed(a, DeployedOf(a, op).value, op.deploymentId, op.commitSha.value, Target(a, op.gitTarget), op.now)
  {
    var c, rel := DeployedOf(a, op).value, NewRelease(a, op);
    var b := c.(releases := a.releases);
    DeployedRecords(a, op);
    RecordedKeepsHistory(a, b, rel);
  }

  lemma ActivationInstalls(a: App, o: Id, r: Id, p: Option<Id>, sha: Option<string>, t: Option<GitTarget>,
                           rt: Option<Runtime>, now: Time)
    requires Inv(a) && (OnPassenger(a) || a.kind.Python?) && Activated(a, o, r, p, sha, t, rt, now).Ok?
    ensures o == r && sha.Some? && a.activeDeploymentId.None?
    ensures var c := Activated(a, o, r, p, sha, t, rt, now).value;
      if a.currentReleaseId == Some(r)
      then c == a && a.currentCommitSha == sha && a.previousReleaseId == p
      else a.currentReleaseId == p && Installed(a, c, r, sha.value, Target(a, t), now) && Applies(a, c)
  {
    var c := Activated(a, o, r, p, sha, t, rt, now).value;
    if a.currentReleaseId != Some(r) {
      var rel := Release(r, o, sha.value, Target(a, t), None, None, now, a.runtime, Some(a.desiredRevision));
      var b := c.(releases := a.releases);
      assert c == Recorded(b, rel);
      RecordedKeepsHistory(a, b, rel);
    }
  }

  /** A failure report that ends the flight: what was live stays live, and nothing it runs changes. */
  lemma FailureKeepsRunning(a: App, op: Op)
    requires Inv(a) && RunningInv(a) && op.MarkFailed?
    ensures var b := FailedOf(a, op);
      if a.activeDeploymentId.Some? && a.activeDeploymentId != op.reported then b == a
      else
        && b.activeDeploymentId.None? && b.pendingRollbackReleaseId.None? && b.lastError.Some?
        && (b.phase.Live? <==> a.currentReleaseId.Some?) && (b.phase.Failed? <==> a.currentReleaseId.None?)
        && b.releases == a.releases && SameRunning(a.(phase := b.phase), b)
  {
  }

  // ---- flights and configurations --------------------------------------------

  /** The call that puts a deployment or a rollback in flight under this id. */
  predicate Begins(op: Op, id: Id) {
    (op.MarkDeploying? && op.deploymentId == id) || (op.MarkRollingBack? && op.operationId == id)
  }

  /** A flight that fails leaves the application as it ran before, and the same flight can be tried again. */
  lemma FailedFlightRestores(a: App, begin: Op, fail: Op, id: Id)
    requires Inv(a) && RunningInv(a) && Begins(begin, id) && Apply(a, begin).Ok?
    requires fail.MarkFailed? && fail.reported == Some(id)
    ensures var b := FailedOf(Apply(a, begin).value, fail);
      && SameRunning(a.(phase := b.phase), b) && b.releases == a.releases && b.activeDeploymentId.None?
      && (b.phase.Live? <==> a.currentReleaseId.Some?) && Apply(b, begin).Ok?
  {
    var m := Apply(a, begin).value;
    assert m.activeDeploymentId == Some(id);
  }

  /** A deployment that completes: both calls together put the release in place of the one that ran when it began. */
  lemma DeploymentRuns(a: App, begin: Op, done: Op, b: App)
    requires Inv(a) && RunningInv(a) && begin.MarkDeploying? && Apply(a, begin).Ok?
    requires done.MarkDeployed? && Apply(Apply(a, begin).value, done) == Ok(b)
    ensures done.deploymentId == begin.deploymentId && done.commitSha.Some? && Inv(b) && RunningInv(b)
    ensures Installed(a, b, begin.deploymentId, done.commitSha.value, Target(a, done.gitTarget), done.now)
    ensures Managed(a) ==> Applies(a, b)
  {
    var m := Apply(a, begin).value;
    StepKeepsInv(a, begin);
    StepKeepsRunning(a, begin);
    DeploymentInstalls(m, done);
    StepKeepsInv(m, done);
    StepKeepsRunning(m, done);
  }

  /** What runs is what was configured. */
  predicate Applies(a: App, b: App) {
    && b.activeRuntime == b.runtime == a.runtime && b.appliedRevision == b.desiredRevision == a.desiredRevision
  }

  /**
   A new configuration: recorded under the next revision while what runs stays; whoever still holds the old
   revision is refused; and the next completed deployment runs it.
   */
  lemma ConfigurationTakesEffect(a: App, op: Op, stale: Op, begin: Op, done: Op)
    requires Inv(a) && RunningInv(a) && op.UpdateNodeConfiguration? && ConfiguredOf(a, op).Ok?
    requires stale.UpdateNodeConfiguration? && stale.expectedRevision == op.expectedRevision
    requires begin.MarkDeploying? && done.MarkDeployed?
    ensures var b := ConfiguredOf(a, op).value;
      && SameRunning(a, b) && b.releases == a.releases && b.appliedRevision <= op.expectedRevision < b.desiredRevision
      && Apply(b, stale) == Err(RevisionConflict)
      && (Apply(b, begin).Ok? && Apply(Apply(b, begin).value, done).Ok? ==>
            var c := Apply(Apply(b, begin).value, done).value;
            c.activeRuntime == Some(op.nextRuntime) && c.appliedRevision == op.expectedRevision + 1
            && c.healthPath == Some(op.nextRuntime.healthPath)
            && (Direct(a) ==> c.servicePort == op.nextRuntime.port && c.proxyPort == op.nextRuntime.port))
  {
    var b := ConfiguredOf(a, op).value;
    StepKeepsInv(a, op);
    StepKeepsRunning(a, op);
    if Apply(b, begin).Ok? && Apply(Apply(b, begin).value, done).Ok? {
      DeploymentRuns(b, begin, done, Apply(Apply(b, begin).value, done).value);
    }
  }

  /**
   Undoing the first activation: the reset is accepted right after it, leaves release, configuration and host
   fields as they were before, and the activation can be made again.
   */
  lemma ResetUndoes(a: App, id: Id, sha: Option<string>, t: Option<GitTarget>, rt: Option<Runtime>, now: Time,
                    later: Time)
    requires Inv(a) && RunningInv(a) && (OnPassenger(a) || a.kind.Python?) && a.currentReleaseId.None?
    requires Activated(a, id, id, None, sha, t, rt, now).Ok?
    ensures var b := Activated(a, id, id, None, sha, t, rt, now).value;
      && ResetOf(b, id, id, later).Ok?
      && var c := ResetOf(b, id, id, later).value;
         && SameRunning(a.(phase := Draft, healthPath := c.healthPath), c) && c.releases == a.releases
         && c.runtime == a.runtime && c.desiredRevision == a.desiredRevision && c.activeDeploymentId.None?
         && Activated(c, id, id, None, sha, t, rt, later).Ok?
  {
    ActivationInstalls(a, id, id, None, sha, t, rt, now);
    var b := Activated(a, id, id, None, sha, t, rt, now).value;
    assert a.releases == [];
    assert forall r | r in b.releases :: r.releaseId == id;
    assert Without(b.releases, id) == [];
  }

  // ---- a rollback and back ---------------------------------------------------

  /** What an application runs: release, commit, target, configuration, and where the host serves it. */
  ghost predicate SameRunning(a: App, b: App) {
    && b.currentReleaseId == a.currentReleaseId && b.currentCommitSha == a.currentCommitSha
    && b.currentGitTarget == a.currentGitTarget && b.activeRuntime == a.activeRuntime
    && b.appliedRevision == a.appliedRevision && b.phase == a.phase
    && b.serviceName == a.serviceName && b.servicePort == a.servicePort
    && b.healthPath == a.healthPath && b.proxyPort == a.proxyPort
  }

  /** A rollback as two calls, with the probe the host reports. */
  ghost predicate RollsBack(a: App, to: Id, mark: Op, done: Op, b: App) {
    && mark.MarkRollingBack? && mark.releaseId == to && Apply(a, mark).Ok?
    && done.MarkRolledBack? && done.releaseId == to && Apply(Apply(a, mark).value, done) == Ok(b)
  }

  /** What the completion itself writes. */
  lemma CompletionRuns(m: App, done: Op, b: App)
    requires Inv(m) && done.MarkRolledBack? && RolledBackOf(m, done) == Ok(b)
    ensures b.currentReleaseId == Some(done.releaseId) && b.previousReleaseId == m.currentReleaseId && b.phase.Live?
    ensures forall r | r in m.releases && r.releaseId == done.releaseId ::
      && b.currentCommitSha == Some(r.commitSha) && b.currentGitTarget == Some(r.gitTarget)
      && (Managed(m) ==> b.activeRuntime == r.runtime && Some(b.appliedRevision) == r.configurationRevision)
    ensures b.kind == m.kind && b.adapter == m.adapter && b.id == m.id && b.runtime == m.runtime
    ensures m.kind.Static? ==> SameFields(m, b)
  {
    forall r | r in m.releases && r.releaseId == done.releaseId ensures Find(m.releases, done.releaseId) == Some(r) {
      NamedOnce(m, r, done.releaseId);
    }
  }

  lemma MarkKeeps(a: App, mark: Op)
    requires Inv(a) && RunningInv(a) && mark.MarkRollingBack? && Apply(a, mark).Ok?
    ensures var m := Apply(a, mark).value;
      && Inv(m) && RunningInv(m) && m.releases == a.releases && m.currentReleaseId == a.currentReleaseId
      && m.kind == a.kind && m.adapter == a.adapter && m.id == a.id && m.runtime == a.runtime && SameFields(a, m)
  {
    StepKeepsInv(a, mark);
    StepKeepsRunning(a, mark);
  }

  /**
   After a completed rollback the target is current, what it recorded is running, and the release left
   behind is the previous one and still there.
   */
  lemma RollbackRuns(a: App, to: Id, mark: Op, done: Op, b: App)
    requires Inv(a) && RunningInv(a) && RollsBack(a, to, mark, done, b)
    ensures Inv(b) && RunningInv(b)
    ensures b.currentReleaseId == Some(to) && b.previousReleaseId == a.currentReleaseId && b.phase.Live?
    ensures forall r | r in a.releases && r.releaseId == to ::
      && b.currentCommitSha == Some(r.commitSha) && b.currentGitTarget == Some(r.gitTarget)
      && (Managed(a) ==> b.activeRuntime == r.runtime && Some(b.appliedRevision) == r.configurationRevision)
    ensures forall r | r in a.releases && Some(r.releaseId) == a.currentReleaseId :: r in b.releases
    ensures b.kind == a.kind && b.adapter == a.adapter && b.id == a.id && b.runtime == a.runtime
    ensures a.kind.Static? ==> SameFields(a, b)
  {
    MarkKeeps(a, mark);
    var m := Apply(a, mark).value;
    CompletionRuns(m, done, b);
    RollbackKeepsOld(m, done, b);
    StepKeepsInv(m, done);
    StepKeepsRunning(m, done);
  }

  lemma NamedOnce(a: App, r: Release, id: Id)
    requires HistoryInv(a) && r in a.releases && r.releaseId == id
    ensures Find(a.releases, id) == Some(r)
  {
    var i :| 0 <= i < |a.releases| && a.releases[i] == r;
    var t := Find(a.releases, id).value;
    var j :| 0 <= j < |a.releases| && a.releases[j] == t;
  }

  lemma RollbackKeepsOld(m: App, done: Op, b: App)
    requires HistoryInv(m) && done.MarkRolledBack? && RolledBackOf(m, done) == Ok(b)
    ensures forall r | r in m.releases && Some(r.releaseId) == m.currentReleaseId :: r in b.releases
  {
    TrimKeeps(m.releases, b.currentReleaseId, b.previousReleaseId, m.retention);
    assert b.releases == Trim(m.releases, b.currentReleaseId, b.previousReleaseId, m.retention);
    forall r | r in m.releases && Some(r.releaseId) == m.currentReleaseId ensures r in b.releases {
      assert Protected(b.currentReleaseId, b.previousReleaseId, r.releaseId) && Has(m.releases, r.releaseId);
      var s :| s in b.releases && s.releaseId == r.releaseId;
      var i :| 0 <= i < |m.releases| && m.releases[i] == r;
      var j :| 0 <= j < |m.releases| && m.releases[j] == s;
    }
  }

  /** Rolling back and then back again runs what ran before. */
  lemma RollbackRoundTrip(a: App, to: Id, mark: Op, done: Op, b: App, markBack: Op, doneBack: Op, c: App)
    requires Inv(a) && RunningInv(a) && a.phase.Live? && a.currentReleaseId.Some?
    requires RollsBack(a, to, mark, done, b) && RollsBack(b, a.currentReleaseId.value, markBack, doneBack, c)
    ensures SameRunning(a, c) && c.previousReleaseId == Some(to)
  {
    RollbackRuns(a, to, mark, done, b);
    RollbackRuns(b, a.currentReleaseId.value, markBack, doneBack, c);
    var r :| r in a.releases && r.releaseId == a.currentReleaseId.value;
    assert r in b.releases;
    SameHost(a, c, r);
  }

  lemma SameHost(a: App, c: App, r: Release)
    requires Inv(a) && RunningInv(a) && Inv(c) && RunningInv(c) && c.kind == a.kind && c.adapter == a.adapter
    requires c.id == a.id
    requires c.runtime == a.runtime && r in a.releases && Some(r.releaseId) == a.currentReleaseId
    requires c.currentReleaseId == a.currentReleaseId && a.phase.Live? && c.phase.Live?
    requires c.currentCommitSha == Some(r.commitSha) && c.currentGitTarget == Some(r.gitTarget)
    requires Managed(a) ==> c.activeRuntime == r.runtime && Some(c.appliedRevision) == r.configurationRevision
    requires a.kind.Static? ==> SameFields(a, c)
    ensures SameRunning(a, c)
  {
    if Managed(a) { assert ReleaseOk(a, r); }
    match a.kind
    case Node => if a.adapter.value.Passenger? { assert OnPassenger(a) && OnPassenger(c); } else {
      assert Direct(a) && Direct(c);
    }
    case Python =>
      assert a == PythonFields(a, a.runtime.value);
      assert c == PythonFields(c, a.runtime.value);
    case Static =>
    case Php =>
  }

  ghost predicate SameFields(a: App, c: App) {
    && c.serviceName == a.serviceName && c.servicePort == a.servicePort && c.healthPath == a.healthPath
    && c.proxyPort == a.proxyPort && c.activeRuntime == a.activeRuntime && c.appliedRevision == a.appliedRevision
  }
}
