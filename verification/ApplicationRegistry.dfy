/**
 The stored application object as the registry updates it: field by field, in place, after
 hydrateApplication (the identity on every reachable record: ApplicationRuns.ReloadClosure).
 Every operation is proved to have exactly the effect Apply states and to keep the invariants.
 */
module ApplicationRegistry {
  import opened Common
  import opened ApplicationModel
  import opened ApplicationInvariants
  import opened ApplicationRuns
  import opened ApplicationRunning

  /** What a call reports: done, or refused with the registry's error. */
  datatype Outcome = Done | Refused(error: Error)

  /** The call had exactly the effect Apply states, or was refused with its error and changed nothing. */
  ghost predicate Performs(before: App, op: Op, after: App, outcome: Outcome) {
    match Apply(before, op)
    case Ok(a) => outcome == Done && after == a
    case Err(e) => outcome == Refused(e) && after == before
  }

  lemma EffectKeepsInv(a: App, op: Op)
    requires Inv(a) && RunningInv(a)
    ensures Apply(a, op).Ok? ==> Inv(Apply(a, op).value) && RunningInv(Apply(a, op).value)
  {
    if Apply(a, op).Ok? {
      StepKeepsInv(a, op);
      StepKeepsRunning(a, op);
    }
  }

  class Application {
    /** The stored object: `record := record.(f := v)` is the source's assignment to its field f. */
    var record: App

    constructor (a: App)
      requires Created(a)
      ensures record == a && Valid()
    {
      CreatedInv(a);
      CreatedRuns(a);
      record := a;
    }

    /** The release-history, configuration and shape invariants; such a record re-reads as itself. */
    ghost predicate Valid()
      reads this
    {
      Inv(record) && RunningInv(record)
    }

    method TrimReleaseHistory()
      modifies this
      ensures record == Trimmed(old(record))
    {
      var kept: seq<Release> := [];
      var i := 0;
      while i < |record.releases|
        invariant i <= |record.releases| && record.releases == old(record.releases)
        invariant KeepProtected(record.releases[i..], record.currentReleaseId, record.previousReleaseId, kept)
               == KeepProtected(old(record.releases), record.currentReleaseId, record.previousReleaseId, [])
      {
        assert record.releases[i..][0] == record.releases[i] && record.releases[i..][1..] == record.releases[i + 1..];
        if Protected(record.currentReleaseId, record.previousReleaseId, record.releases[i].releaseId)
            && !Has(kept, record.releases[i].releaseId) {
          kept := kept + [record.releases[i]];
        }
        i := i + 1;
      }
      ghost var first := kept;
      assert first == KeepProtected(old(record.releases), record.currentReleaseId, record.previousReleaseId, []);
      i := 0;
      while i < |record.releases|
        invariant i <= |record.releases| && record.releases == old(record.releases)
        invariant Fill(record.releases[i..], kept, record.retention)
            == Fill(old(record.releases), first, record.retention)
      {
        if |kept| >= record.retention { break; }
        assert record.releases[i..][0] == record.releases[i] && record.releases[i..][1..] == record.releases[i + 1..];
        if !Has(kept, record.releases[i].releaseId) { kept := kept + [record.releases[i]]; }
        i := i + 1;
      }
      assert kept == Fill(old(record.releases), first, record.retention);
      record := record.(releases := kept[..Min(|kept|, record.retention)]);
    }

    /** Replaces any release of that id by the new one, at the front, and trims. */
    method PushRelease(added: Release)
      modifies this
      ensures record == Recorded(old(record), added)
    {
      record := record.(releases := Without(record.releases, added.releaseId));
      record := record.(releases := [added] + record.releases);
      TrimReleaseHistory();
    }

    method WritePythonFields(r: Runtime)
      modifies this
      ensures record == PythonFields(old(record), r)
    {
      record := record.(serviceName := Some(PythonUnit(record.id)));
      record := record.(servicePort := r.port);
      record := record.(healthPath := Some(r.healthPath));
      record := record.(proxyPort := r.port);
    }

    method WriteProbe(probe: Probe)
      modifies this
      ensures record == old(record).(serviceName := probe.serviceName, servicePort := probe.port,
                                     healthPath := probe.healthPath, proxyPort := probe.port)
    {
      record := record.(serviceName := probe.serviceName);
      record := record.(servicePort := probe.port);
      record := record.(healthPath := probe.healthPath);
      record := record.(proxyPort := probe.port);
    }

    /** What every new current release writes. */
    method Install(releaseId: Id, sha: string, target: GitTarget, now: Time)
      modifies this
      ensures record == old(record).(previousReleaseId := old(record).currentReleaseId,
                                     currentReleaseId := Some(releaseId),
                currentCommitSha := Some(sha), currentGitTarget := Some(target), activeDeploymentId := None,
                pendingRollbackReleaseId := None, phase := Live, lastDeployedAt := Some(now), lastError := None,
                    updatedAt := now)
    {
      record := record.(previousReleaseId := record.currentReleaseId);
      record := record.(currentReleaseId := Some(releaseId));
      record := record.(currentCommitSha := Some(sha));
      record := record.(currentGitTarget := Some(target));
      record := record.(activeDeploymentId := None);
      record := record.(pendingRollbackReleaseId := None);
      record := record.(phase := Live);
      record := record.(lastDeployedAt := Some(now));
      record := record.(lastError := None);
      record := record.(updatedAt := now);
    }

    method MarkDeploying(deploymentId: Id, now: Time) returns (outcome: Outcome)
      requires Valid()
      modifies this
      ensures Valid() && Performs(old(record), Op.MarkDeploying(deploymentId, now), record, outcome)
    {
      EffectKeepsInv(record, Op.MarkDeploying(deploymentId, now));
      if record.kind.Php? { return Refused(DeploymentNotSupported); }
      if record.kind.Node? && record.adapter != Some(DirectSystemd) { return Refused(AdapterMismatch); }
      if record.activeDeploymentId.Some? { return Refused(DeploymentInProgress); }
      record := record.(phase := Deploying);
      record := record.(activeDeploymentId := Some(deploymentId));
      record := record.(pendingRollbackReleaseId := None);
      record := record.(lastDeploymentId := Some(deploymentId));
      record := record.(lastError := None);
      record := record.(updatedAt := now);
      return Done;
    }

    /** The evidence checks of markDeployed, in its order. */
    method CheckDeployed(deploymentId: Id, releaseId: Id, commitSha: Option<string>, gitTarget: Option<GitTarget>,
                         previous: Reported, artifactFiles: Option<int>, artifactBytes: Option<int>,
                         probe: Probe, requested: Option<Runtime>, now: Time) returns (error: Option<Error>)
      ensures error == DeployedError(record,
                                     Op.MarkDeployed(deploymentId, releaseId, commitSha, gitTarget, previous,
                                                     artifactFiles, artifactBytes, probe, requested, now))
    {
      if record.kind.Php? { return Some(DeploymentNotSupported); }
      if record.kind.Node? && record.adapter != Some(DirectSystemd) { return Some(AdapterMismatch); }
      if record.activeDeploymentId != Some(deploymentId) { return Some(DeploymentMismatch); }
      if releaseId != deploymentId { return Some(ReleaseMismatch); }
      if PreviousOf(record, previous) != record.currentReleaseId { return Some(ReleaseStateDrift); }
      if commitSha.None? { return Some(InvalidCommit); }
      if !TargetMatches(Target(record, gitTarget), commitSha.value) { return Some(GitTargetMismatch); }
      if !ArtifactOk(artifactFiles, artifactBytes) { return Some(InvalidArtifact); }
      if !record.kind.Static? {
        var deployed := Deployed(record, requested);
        if deployed.None? { return Some(InvalidRuntime); }
        if deployed != record.runtime { return Some(RuntimeDrift); }
        if record.kind.Node? {
          var mismatch := ProbeError(record, deployed.value, probe);
          if mismatch.Some? { return Some(mismatch.value); }
        }
      }
      return None;
    }

    method MarkDeployed(deploymentId: Id, releaseId: Id, commitSha: Option<string>, gitTarget: Option<GitTarget>,
                        previous: Reported, artifactFiles: Option<int>, artifactBytes: Option<int>,
                        probe: Probe, requested: Option<Runtime>, now: Time) returns (outcome: Outcome)
      requires Valid()
      modifies this
      ensures Valid()
      ensures Performs(old(record),
                       Op.MarkDeployed(deploymentId, releaseId, commitSha, gitTarget, previous, artifactFiles,
                                       artifactBytes, probe, requested, now), record, outcome)
    {
      EffectKeepsInv(record,
                     Op.MarkDeployed(deploymentId, releaseId, commitSha, gitTarget, previous, artifactFiles,
                                     artifactBytes, probe, requested, now));
      var error := CheckDeployed(deploymentId, releaseId, commitSha, gitTarget, previous, artifactFiles, artifactBytes,
                                 probe, requested, now);
      if error.Some? { return Refused(error.value); }
      var target := Target(record, gitTarget);
      Install(releaseId, commitSha.value, target, now);
      if record.kind.Node? {
        record := record.(activeRuntime := record.runtime);
        record := record.(appliedRevision := record.desiredRevision);
        WriteProbe(probe);
      }
      if record.kind.Python? {
        record := record.(activeRuntime := record.runtime);
        record := record.(appliedRevision := record.desiredRevision);
        WritePythonFields(record.runtime.value);
      }
      var managed := record.kind.Node? || record.kind.Python?;
      var added := Release(releaseId, deploymentId, commitSha.value, target, artifactFiles, artifactBytes, now,
                           if managed then record.activeRuntime else None,
                           if managed then Some(record.appliedRevision) else None);
      PushRelease(added);
      return Done;
    }

    /** The part activatePassengerRelease and activatePythonRelease write alike. */
    method Activate(operationId: Id, releaseId: Id, previousId: Option<Id>, commitSha: Option<string>,
                    gitTarget: Option<GitTarget>, requested: Option<Runtime>, now: Time) returns (outcome: Outcome)
      requires OnPassenger(record) || record.kind.Python?
      modifies this
      ensures var r := Activated(old(record), operationId, releaseId, previousId, commitSha, gitTarget, requested, now);
        outcome == (if r.Ok? then Done else Refused(r.error)) && record == (if r.Ok? then r.value else old(record))
    {
      if record.activeDeploymentId.Some? { return Refused(DeploymentInProgress); }
      if operationId != releaseId { return Refused(ReleaseMismatch); }
      if commitSha.None? { return Refused(InvalidCommit); }
      if !TargetMatches(Target(record, gitTarget), commitSha.value) { return Refused(GitTargetMismatch); }
      var deployed := Deployed(record, requested);
      if deployed.None? { return Refused(InvalidRuntime); }
      if deployed != record.runtime { return Refused(RuntimeDrift); }
      var target := Target(record, gitTarget);
      if record.currentReleaseId == Some(releaseId) {
        if SameActivation(record, releaseId, previousId, commitSha.value, target) { return Done; }
        return Refused(ReleaseStateDrift);
      }
      if record.currentReleaseId != previousId { return Refused(ReleaseStateDrift); }
      Install(releaseId, commitSha.value, target, now);
      record := record.(activeRuntime := deployed);
      record := record.(appliedRevision := record.desiredRevision);
      record := record.(lastDeploymentId := Some(operationId));
      if record.kind.Node? {
        record := record.(serviceName := None);
        record := record.(servicePort := None);
        record := record.(healthPath := Some(deployed.value.healthPath));
        record := record.(proxyPort := None);
      } else {
        WritePythonFields(deployed.value);
      }
      PushRelease(Release(releaseId, operationId, commitSha.value, target, None, None, now, deployed,
                          Some(record.appliedRevision)));
      return Done;
    }

    method ActivatePassengerRelease(operationId: Id, releaseId: Id, previousId: Option<Id>, commitSha: Option<string>,
                                    gitTarget: Option<GitTarget>, requested: Option<Runtime>, now: Time)
                                    returns (outcome: Outcome)
      requires Valid()
      modifies this
      ensures Valid()
      ensures Performs(old(record),
                       ActivatePassenger(operationId, releaseId, previousId, commitSha, gitTarget, requested, now),
                       record, outcome)
    {
      EffectKeepsInv(record,
                     ActivatePassenger(operationId, releaseId, previousId, commitSha, gitTarget, requested, now));
      if !record.kind.Node? || record.adapter != Some(Passenger) { return Refused(AdapterMismatch); }
      outcome := Activate(operationId, releaseId, previousId, commitSha, gitTarget, requested, now);
    }

    method ActivatePythonRelease(operationId: Id, releaseId: Id, previousId: Option<Id>, commitSha: Option<string>,
                                 gitTarget: Option<GitTarget>, requested: Option<Runtime>, now: Time)
                                 returns (outcome: Outcome)
      requires Valid()
      modifies this
      ensures Valid()
      ensures Performs(old(record),
                       ActivatePython(operationId, releaseId, previousId, commitSha, gitTarget, requested, now), record,
                       outcome)
    {
      EffectKeepsInv(record, ActivatePython(operationId, releaseId, previousId, commitSha, gitTarget, requested, now));
      if !record.kind.Python? { return Refused(AdapterMismatch); }
      outcome := Activate(operationId, releaseId, previousId, commitSha, gitTarget, requested, now);
    }

    /** The part resetPassengerInitialRelease and resetPythonInitialRelease write alike. */
    method Reset(operationId: Id, releaseId: Id, now: Time) returns (outcome: Outcome)
      modifies this
      ensures var r := ResetOf(old(record), operationId, releaseId, now);
        outcome == (if r.Ok? then Done else Refused(r.error)) && record == (if r.Ok? then r.value else old(record))
    {
      if operationId != releaseId { return Refused(ReleaseMismatch); }
      if record.currentReleaseId.None? && !Has(record.releases, releaseId) { return Done; }
      if record.currentReleaseId != Some(releaseId) || record.previousReleaseId.Some?
          || record.lastDeploymentId != Some(operationId) {
        return Refused(ResetDrift);
      }
      record := record.(releases := Without(record.releases, releaseId));
      record := record.(currentReleaseId := None);
      record := record.(previousReleaseId := None);
      record := record.(currentCommitSha := None);
      record := record.(currentGitTarget := None);
      record := record.(activeRuntime := None);
      record := record.(appliedRevision := 0);
      record := record.(activeDeploymentId := None);
      record := record.(pendingRollbackReleaseId := None);
      record := record.(phase := Draft);
      record := record.(lastDeploymentId := None);
      record := record.(lastDeployedAt := None);
      record := record.(lastError := None);
      if record.kind.Node? && record.runtime.Some? {
        record := record.(serviceName := None);
        record := record.(servicePort := None);
        record := record.(healthPath := Some(record.runtime.value.healthPath));
        record := record.(proxyPort := None);
      }
      record := record.(updatedAt := now);
      return Done;
    }

    method ResetPassengerInitialRelease(operationId: Id, releaseId: Id, now: Time) returns (outcome: Outcome)
      requires Valid()
      modifies this
      ensures Valid() && Performs(old(record), ResetPassenger(operationId, releaseId, now), record, outcome)
    {
      EffectKeepsInv(record, ResetPassenger(operationId, releaseId, now));
      if !record.kind.Node? || record.adapter != Some(Passenger) { return Refused(AdapterMismatch); }
      outcome := Reset(operationId, releaseId, now);
    }

    method ResetPythonInitialRelease(operationId: Id, releaseId: Id, now: Time) returns (outcome: Outcome)
      requires Valid()
      modifies this
      ensures Valid() && Performs(old(record), ResetPython(operationId, releaseId, now), record, outcome)
    {
      EffectKeepsInv(record, ResetPython(operationId, releaseId, now));
      if !record.kind.Python? { return Refused(AdapterMismatch); }
      outcome := Reset(operationId, releaseId, now);
    }

    method MarkPassengerMigrated(now: Time) returns (outcome: Outcome)
      requires Valid()
      modifies this
      ensures Valid() && Performs(old(record), Op.MarkPassengerMigrated(now), record, outcome)
    {
      EffectKeepsInv(record, Op.MarkPassengerMigrated(now));
      if !record.kind.Node? { return Refused(NotNode); }
      if record.adapter == Some(Passenger) { return Done; }
      record := record.(adapter := Some(Passenger));
      record := record.(runtime := StripOption(record.runtime));
      record := record.(activeRuntime := StripOption(record.activeRuntime));
      record := record.(releases := StripReleases(record.releases));
      record := record.(serviceName := None);
      record := record.(servicePort := None);
      record := record.(proxyPort := None);
      record := record.(updatedAt := now);
      return Done;
    }

    method MarkRollingBack(operationId: Id, releaseId: Id, now: Time) returns (outcome: Outcome)
      requires Valid()
      modifies this
      ensures Valid() && Performs(old(record), Op.MarkRollingBack(operationId, releaseId, now), record, outcome)
    {
      EffectKeepsInv(record, Op.MarkRollingBack(operationId, releaseId, now));
      if record.kind.Php? { return Refused(DeploymentNotSupported); }
      if record.kind.Node? && record.adapter != Some(DirectSystemd) { return Refused(AdapterMismatch); }
      if record.activeDeploymentId.Some? { return Refused(DeploymentInProgress); }
      if record.currentReleaseId.None? { return Refused(NotDeployed); }
      if Some(releaseId) == record.currentReleaseId { return Refused(RollbackTargetCurrent); }
      if !Has(record.releases, releaseId) { return Refused(RollbackReleaseUnknown); }
      record := record.(phase := RollingBack);
      record := record.(activeDeploymentId := Some(operationId));
      record := record.(pendingRollbackReleaseId := Some(releaseId));
      record := record.(lastError := None);
      record := record.(updatedAt := now);
      return Done;
    }

    method MarkRolledBack(operationId: Id, releaseId: Id, previous: Reported, probe: Probe, now: Time)
        returns (outcome: Outcome)
      requires Valid()
      modifies this
      ensures Valid()
      ensures Performs(old(record), Op.MarkRolledBack(operationId, releaseId, previous, probe, now), record, outcome)
      ensures outcome != Refused(RollbackReleaseUnknown) && outcome != Refused(StateInvalid)
    {
      EffectKeepsInv(record, Op.MarkRolledBack(operationId, releaseId, previous, probe, now));
      RollbackTargetRetained(record, Op.MarkRolledBack(operationId, releaseId, previous, probe, now));
      if record.kind.Php? { return Refused(DeploymentNotSupported); }
      if record.kind.Node? && record.adapter != Some(DirectSystemd) { return Refused(AdapterMismatch); }
      if record.activeDeploymentId != Some(operationId) || record.pendingRollbackReleaseId != Some(releaseId) {
        return Refused(RollbackMismatch);
      }
      if PreviousOf(record, previous) != record.currentReleaseId { return Refused(ReleaseStateDrift); }
      var found := Find(record.releases, releaseId);
      if found.None? { return Refused(RollbackReleaseUnknown); }
      var t := found.value;
      if (record.kind.Node? || record.kind.Python?) && (t.runtime.None? || t.configurationRevision.None?) {
        return Refused(StateInvalid);
      }
      if record.kind.Node? {
        if !NodeRuntimeOk(t.runtime.value, true) { return Refused(InvalidRuntime); }
        var mismatch := ProbeError(record, t.runtime.value, probe);
        if mismatch.Some? { return Refused(mismatch.value); }
      }
      record := record.(previousReleaseId := record.currentReleaseId);
      record := record.(currentReleaseId := Some(releaseId));
      record := record.(currentCommitSha := Some(t.commitSha));
      record := record.(currentGitTarget := Some(t.gitTarget));
      record := record.(activeDeploymentId := None);
      record := record.(pendingRollbackReleaseId := None);
      record := record.(phase := Live);
      record := record.(lastRolledBackAt := Some(now));
      record := record.(lastError := None);
      record := record.(updatedAt := now);
      if record.kind.Node? {
        record := record.(activeRuntime := t.runtime);
        record := record.(appliedRevision := t.configurationRevision.value);
        WriteProbe(probe);
      }
      if record.kind.Python? {
        record := record.(activeRuntime := t.runtime);
        record := record.(appliedRevision := t.configurationRevision.value);
        WritePythonFields(t.runtime.value);
      }
      TrimReleaseHistory();
      return Done;
    }

    method MarkFailed(operationId: Option<Id>, errorCode: Option<string>, now: Time)
      requires Valid()
      modifies this
      ensures Valid() && Performs(old(record), Op.MarkFailed(operationId, errorCode, now), record, Done)
    {
      EffectKeepsInv(record, Op.MarkFailed(operationId, errorCode, now));
      if record.activeDeploymentId.Some? && record.activeDeploymentId != operationId { return; }
      record := record.(activeDeploymentId := None);
      record := record.(pendingRollbackReleaseId := None);
      record := record.(phase := if record.currentReleaseId.Some? then Live else Failed);
      record := record.(lastError
                        := Some(if errorCode.Some? then errorCode.value[..Min(120, |errorCode.value|)]
                                else "deployment_failed"));
      record := record.(updatedAt := now);
    }

    method UpdateNodeConfiguration(expectedRevision: nat, nextRuntime: Runtime, now: Time) returns (outcome: Outcome)
      requires Valid()
      modifies this
      ensures Valid()
      ensures Performs(old(record), Op.UpdateNodeConfiguration(expectedRevision, nextRuntime, now), record, outcome)
    {
      EffectKeepsInv(record, Op.UpdateNodeConfiguration(expectedRevision, nextRuntime, now));
      if record.desiredRevision != expectedRevision { return Refused(RevisionConflict); }
      if !record.kind.Node? || record.runtime.None? { return Refused(NotNode); }
      if record.activeDeploymentId.Some? { return Refused(DeploymentInProgress); }
      if !NodeRuntimeOk(nextRuntime, record.adapter == Some(DirectSystemd)) { return Refused(InvalidRuntime); }
      if record.adapter == Some(DirectSystemd) && nextRuntime.port != record.runtime.value.port {
        return Refused(PortImmutable);
      }
      if Some(nextRuntime) == record.runtime { return Refused(NoChanges); }
      record := record.(runtime := Some(nextRuntime));
      record := record.(desiredRevision := record.desiredRevision + 1);
      record := record.(updatedAt := now);
      return Done;
    }
  }
}
