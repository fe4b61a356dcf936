/**
 The persisted application record and the effect of each registry operation on it
 (apps/api/src/application-registry.js).  Identifiers, commit hashes, names and the
 runtime settings other than port and health path are opaque validated values; an
 absent and a null field are both None.
 */
module ApplicationModel {
  import opened Common

  type Id = nat
  type Time = nat

  datatype Kind = Static | Node | Php | Python
  datatype Adapter = DirectSystemd | Passenger
  datatype Phase = Draft | Deploying | Live | RollingBack | Failed

  datatype GitTarget = Branch(name: string) | Tag(name: string) | Commit(sha: string)
  datatype Runtime = Runtime(port: Option<int>, healthPath: string, settings: string)
  /** systemd unit names are digests of the application id: free constructors are injective. */
  datatype Service = NodeUnit(owner: Id) | PythonUnit(owner: Id)

  datatype Release = Release(
    releaseId: Id, deploymentId: Id, commitSha: string, gitTarget: GitTarget,
    artifactFiles: Option<int>, artifactBytes: Option<int>, deployedAt: Time,
    runtime: Option<Runtime>, configurationRevision: Option<nat>)

  datatype App = App(
    id: Id, serverId: Id, kind: Kind, adapter: Option<Adapter>, branch: string, retention: nat, phase: Phase,
    desiredRevision: nat, appliedRevision: nat,
    currentReleaseId: Option<Id>, previousReleaseId: Option<Id>,
    currentCommitSha: Option<string>, currentGitTarget: Option<GitTarget>,
    releases: seq<Release>,
    activeDeploymentId: Option<Id>, pendingRollbackReleaseId: Option<Id>,
    lastDeploymentId: Option<Id>, lastDeployedAt: Option<Time>, lastRolledBackAt: Option<Time>,
    lastError: Option<string>,
    serviceName: Option<Service>, servicePort: Option<int>, healthPath: Option<string>, proxyPort: Option<int>,
    runtime: Option<Runtime>, activeRuntime: Option<Runtime>,
    createdAt: Time, updatedAt: Time)

  datatype Error =
    | DeploymentNotSupported | AdapterMismatch | DeploymentInProgress | DeploymentMismatch
    | ReleaseMismatch | ReleaseStateDrift | InvalidCommit | GitTargetMismatch | InvalidArtifact
    | RuntimeDrift | InvalidService | InvalidPort | InvalidHealth | ResetDrift
    | NotDeployed | RollbackTargetCurrent | RollbackReleaseUnknown | RollbackMismatch
    | NotNode | InvalidRuntime | PortImmutable | NoChanges | RevisionConflict | StateInvalid
    | PortConflict | PortBoundsInvalid | PortExhausted | IdentityConflict

  /** A reported previous release: left out by the caller, or given (possibly as null). */
  datatype Reported = Omitted | Given(id: Option<Id>)

  /** What the host reports about a finished Node process. */
  datatype Probe = Probe(serviceName: Option<Service>, port: Option<int>, healthPath: Option<string>, healthy: bool)

  datatype Op =
    | MarkDeploying(deploymentId: Id, now: Time)
    | MarkDeployed(deploymentId: Id, releaseId: Id, commitSha: Option<string>, gitTarget: Option<GitTarget>,
                   previous: Reported, artifactFiles: Option<int>, artifactBytes: Option<int>,
                   probe: Probe, requested: Option<Runtime>, now: Time)
    | ActivatePassenger(operationId: Id, releaseId: Id, previousId: Option<Id>, commitSha: Option<string>,
                        gitTarget: Option<GitTarget>, requested: Option<Runtime>, now: Time)
    | ResetPassenger(operationId: Id, releaseId: Id, now: Time)
    | MarkPassengerMigrated(now: Time)
    | ActivatePython(operationId: Id, releaseId: Id, previousId: Option<Id>, commitSha: Option<string>,
                     gitTarget: Option<GitTarget>, requested: Option<Runtime>, now: Time)
    | ResetPython(operationId: Id, releaseId: Id, now: Time)
    | MarkRollingBack(operationId: Id, releaseId: Id, now: Time)
    | MarkRolledBack(operationId: Id, releaseId: Id, previous: Reported, probe: Probe, now: Time)
    | MarkFailed(reported: Option<Id>, errorCode: Option<string>, now: Time)
    | UpdateNodeConfiguration(expectedRevision: nat, nextRuntime: Runtime, now: Time)

  // ---- runtime policy -------------------------------------------------------

  predicate PortInRange(p: int) { 1024 <= p <= 65535 }

  /** What normalizeNodeRuntimeConfig accepts and then leaves unchanged. */
  predicate NodeRuntimeOk(r: Runtime, requirePort: bool) {
    if requirePort then r.port.Some? && PortInRange(r.port.value) else r.port.None?
  }

  predicate PythonRuntimeOk(r: Runtime) { r.port.Some? ==> PortInRange(r.port.value) }

  function StripPort(r: Runtime): Runtime { r.(port := None) }

  function StripOption(r: Option<Runtime>): Option<Runtime> {
    if r.Some? then Some(StripPort(r.value)) else None
  }

  predicate Direct(a: App) { a.adapter == Some(DirectSystemd) }

  predicate OnPassenger(a: App) { a.kind.Node? && a.adapter == Some(Passenger) }

  /** Types the deploy and rollback flow serves. */
  predicate Deployable(a: App) { a.kind.Static? || a.kind.Node? || a.kind.Python? }

  // ---- release history ------------------------------------------------------

  predicate Has(rs: seq<Release>, id: Id) { exists r :: r in rs && r.releaseId == id }

  function Find(rs: seq<Release>, id: Id): (found: Option<Release>)
    ensures found.Some? <==> Has(rs, id)
    ensures found.Some? ==> found.value in rs && found.value.releaseId == id
  {
    if rs == [] then None
    else if rs[0].releaseId == id then assert rs[0] in rs; Some(rs[0])
    else
      assert forall r :: r in rs[1..] ==> r in rs;
      Find(rs[1..], id)
  }

  function Without(rs: seq<Release>, id: Id): (kept: seq<Release>)
    ensures forall r :: r in kept <==> r in rs && r.releaseId != id
    ensures |kept| <= |rs|
    ensures (forall r | r in rs :: r.releaseId == id) ==> kept == []
  {
    if rs == [] then []
    else if rs[0].releaseId == id then Without(rs[1..], id)
    else [rs[0]] + Without(rs[1..], id)
  }

  predicate Protected(current: Option<Id>, previous: Option<Id>, id: Id) {
    Some(id) == current || Some(id) == previous
  }

  /** First pass of trimReleaseHistory: the protected releases, once each. */
  function KeepProtected(rs: seq<Release>, current: Option<Id>, previous: Option<Id>, acc: seq<Release>): seq<Release> {
    if rs == [] then acc
    else if Protected(current, previous, rs[0].releaseId) && !Has(acc, rs[0].releaseId)
    then KeepProtected(rs[1..], current, previous, acc + [rs[0]])
    else KeepProtected(rs[1..], current, previous, acc)
  }

  /** Second pass: the other releases in order until the history is full. */
  function Fill(rs: seq<Release>, acc: seq<Release>, limit: nat): seq<Release> {
    if rs == [] || |acc| >= limit then acc
    else if Has(acc, rs[0].releaseId) then Fill(rs[1..], acc, limit)
    else Fill(rs[1..], acc + [rs[0]], limit)
  }

  function Trim(rs: seq<Release>, current: Option<Id>, previous: Option<Id>, retention: nat): seq<Release> {
    var kept := Fill(rs, KeepProtected(rs, current, previous, []), retention);
    kept[..Min(|kept|, retention)]
  }

  function Trimmed(a: App): App {
    a.(releases := Trim(a.releases, a.currentReleaseId, a.previousReleaseId, a.retention))
  }

  // ---- operations -----------------------------------------------------------

  function Target(a: App, requested: Option<GitTarget>): GitTarget {
    if requested.Some? then requested.value else Branch(a.branch)
  }

  predicate TargetMatches(t: GitTarget, sha: string) { t.Commit? ==> t.sha == sha }

  predicate ArtifactOk(files: Option<int>, bytes: Option<int>) {
    && (files.Some? ==> 1 <= files.value <= 100_000)
    && (bytes.Some? ==> 0 <= bytes.value <= 2_147_483_648)
  }

  /** The runtime a deployment claims, normalised; None when the normaliser refuses it. */
  function Deployed(a: App, requested: Option<Runtime>): Option<Runtime> {
    var raw := if requested.Some? then requested else a.runtime;
    if raw.None? then None
    else if a.kind.Node? then (if NodeRuntimeOk(raw.value, Direct(a)) then raw else None)
    else if PythonRuntimeOk(raw.value) then raw
    else None
  }

  function ProbeError(a: App, r: Runtime, p: Probe): Option<Error> {
    if p.serviceName != Some(NodeUnit(a.id)) then Some(InvalidService)
    else if p.port.None? || p.port != r.port then Some(InvalidPort)
    else if p.healthPath != Some(r.healthPath) || !p.healthy then Some(InvalidHealth)
    else None
  }

  function PreviousOf(a: App, p: Reported): Option<Id> {
    if p.Omitted? then a.currentReleaseId else p.id
  }

  function DeployingOf(a: App, op: Op): Result<App, Error>
    requires op.MarkDeploying?
  {
    if !Deployable(a) then Err(DeploymentNotSupported)
    else if a.kind.Node? && !Direct(a) then Err(AdapterMismatch)
    else if a.activeDeploymentId.Some? then Err(DeploymentInProgress)
    else Ok(a.(phase := Deploying, activeDeploymentId := Some(op.deploymentId), pendingRollbackReleaseId := None,
               lastDeploymentId := Some(op.deploymentId), lastError := None, updatedAt := op.now))
  }

  function DeployedError(a: App, op: Op): Option<Error>
    requires op.MarkDeployed?
  {
    if !Deployable(a) then Some(DeploymentNotSupported)
    else if a.kind.Node? && !Direct(a) then Some(AdapterMismatch)
    else if a.activeDeploymentId != Some(op.deploymentId) then Some(DeploymentMismatch)
    else if op.releaseId != op.deploymentId then Some(ReleaseMismatch)
    else if PreviousOf(a, op.previous) != a.currentReleaseId then Some(ReleaseStateDrift)
    else if op.commitSha.None? then Some(InvalidCommit)
    else if !TargetMatches(Target(a, op.gitTarget), op.commitSha.value) then Some(GitTargetMismatch)
    else if !ArtifactOk(op.artifactFiles, op.artifactBytes) then Some(InvalidArtifact)
    else if a.kind.Static? then None
    else
      var deployed := Deployed(a, op.requested);
      if deployed.None? then Some(InvalidRuntime)
      else if deployed != a.runtime then Some(RuntimeDrift)
      else if a.kind.Node? then ProbeError(a, deployed.value, op.probe)
      else None
  }

  function PythonFields(a: App, r: Runtime): App {
    a.(serviceName := Some(PythonUnit(a.id)), servicePort := r.port, healthPath := Some(r.healthPath),
       proxyPort := r.port)
  }

  function Recorded(a: App, rel: Release): App {
    Trimmed(a.(releases := [rel] + Without(a.releases, rel.releaseId)))
  }

  function DeployedOf(a: App, op: Op): Result<App, Error>
    requires op.MarkDeployed?
  {
    if DeployedError(a, op).Some? then Err(DeployedError(a, op).value)
    else
      var sha, target := op.commitSha.value, Target(a, op.gitTarget);
      var managed := a.kind.Node? || a.kind.Python?;
      var b := a.(previousReleaseId := a.currentReleaseId, currentReleaseId := Some(op.releaseId),
                  currentCommitSha := Some(sha), currentGitTarget := Some(target),
                  activeDeploymentId := None, pendingRollbackReleaseId := None, phase := Live,
                  lastDeployedAt := Some(op.now), lastError := None, updatedAt := op.now);
      var c := if managed then b.(activeRuntime := a.runtime, appliedRevision := a.desiredRevision) else b;
      var d := if a.kind.Node? then c.(serviceName := op.probe.serviceName, servicePort := op.probe.port,
                                       healthPath := op.probe.healthPath, proxyPort := op.probe.port)
               else if a.kind.Python? && a.runtime.Some? then PythonFields(c, a.runtime.value)
               else c;
      Ok(Recorded(d, Release(op.releaseId, op.deploymentId, sha, target, op.artifactFiles, op.artifactBytes, op.now,
                             if managed then d.activeRuntime else None,
                             if managed then Some(d.appliedRevision) else None)))
  }

  /** The checks activatePassengerRelease and activatePythonRelease share. */
  function ActivationError(a: App, operationId: Id, releaseId: Id, commitSha: Option<string>,
                           gitTarget: Option<GitTarget>, requested: Option<Runtime>): Option<Error> {
    if a.activeDeploymentId.Some? then Some(DeploymentInProgress)
    else if operationId != releaseId then Some(ReleaseMismatch)
    else if commitSha.None? then Some(InvalidCommit)
    else if !TargetMatches(Target(a, gitTarget), commitSha.value) then Some(GitTargetMismatch)
    else
      var deployed := Deployed(a, requested);
      if deployed.None? then Some(InvalidRuntime)
      else if deployed != a.runtime then Some(RuntimeDrift)
      else None
  }

  /** A repeated activation is answered without a change when the stored state is the one it produced. */
  predicate SameActivation(a: App, releaseId: Id, previousId: Option<Id>, sha: string, target: GitTarget) {
    && Has(a.releases, releaseId)
    && a.previousReleaseId == previousId
    && a.currentCommitSha == Some(sha)
    && a.currentGitTarget == Some(target)
    && a.activeRuntime == a.runtime
    && a.appliedRevision == a.desiredRevision
    && (a.kind.Node? ==> a.serviceName.None? && a.servicePort.None? && a.proxyPort.None?)
  }

  function Activated(a: App, operationId: Id, releaseId: Id, previousId: Option<Id>, commitSha: Option<string>,
                     gitTarget: Option<GitTarget>, requested: Option<Runtime>, now: Time): Result<App, Error> {
    var error := ActivationError(a, operationId, releaseId, commitSha, gitTarget, requested);
    if error.Some? then Err(error.value)
    else
      var sha, target := commitSha.value, Target(a, gitTarget);
      if a.currentReleaseId == Some(releaseId) then
        if SameActivation(a, releaseId, previousId, sha, target) then Ok(a) else Err(ReleaseStateDrift)
      else if a.currentReleaseId != previousId then Err(ReleaseStateDrift)
      else
        var deployed := Deployed(a, requested);
        var b := a.(previousReleaseId := a.currentReleaseId, currentReleaseId := Some(releaseId),
                    currentCommitSha := Some(sha), currentGitTarget := Some(target),
                    activeRuntime := deployed, appliedRevision := a.desiredRevision,
                    activeDeploymentId := None, pendingRollbackReleaseId := None, phase := Live,
                    lastDeploymentId := Some(operationId), lastDeployedAt := Some(now), lastError := None,
                    updatedAt := now);
        var c := if a.kind.Node?
                 then b.(serviceName := None, servicePort := None, healthPath := Some(deployed.value.healthPath),
                         proxyPort := None)
                 else PythonFields(b, deployed.value);
        Ok(Recorded(c, Release(releaseId, operationId, sha, target, None, None, now, deployed,
                               Some(c.appliedRevision))))
  }

  /** The body shared by the two initial-release resets. */
  function ResetOf(a: App, operationId: Id, releaseId: Id, now: Time): Result<App, Error> {
    if operationId != releaseId then Err(ReleaseMismatch)
    else if a.currentReleaseId.None? && !Has(a.releases, releaseId) then Ok(a)
    else if a.currentReleaseId != Some(releaseId) || a.previousReleaseId.Some?
         || a.lastDeploymentId != Some(operationId) then Err(ResetDrift)
    else
      var b := a.(releases := Without(a.releases, releaseId), currentReleaseId := None, previousReleaseId := None,
                  currentCommitSha := None, currentGitTarget := None, activeRuntime := None, appliedRevision := 0,
                  activeDeploymentId := None, pendingRollbackReleaseId := None, phase := Draft,
                  lastDeploymentId := None, lastDeployedAt := None, lastError := None, updatedAt := now);
      Ok(if a.kind.Node? && a.runtime.Some?
         then b.(serviceName := None, servicePort := None, healthPath := Some(a.runtime.value.healthPath),
                 proxyPort := None)
         else b)
  }

  function StripReleases(rs: seq<Release>): (stripped: seq<Release>)
    ensures |stripped| == |rs|
    ensures forall i :: 0 <= i < |rs| ==> stripped[i] == rs[i].(runtime := StripOption(rs[i].runtime))
  {
    if rs == [] then [] else [rs[0].(runtime := StripOption(rs[0].runtime))] + StripReleases(rs[1..])
  }

  function MigratedOf(a: App, now: Time): Result<App, Error> {
    if !a.kind.Node? then Err(NotNode)
    else if a.adapter == Some(Passenger) then Ok(a)
    else Ok(a.(adapter := Some(Passenger), runtime := StripOption(a.runtime),
               activeRuntime := StripOption(a.activeRuntime),
               releases := StripReleases(a.releases),
               serviceName := None, servicePort := None, proxyPort := None, updatedAt := now))
  }

  function RollingBackOf(a: App, op: Op): Result<App, Error>
    requires op.MarkRollingBack?
  {
    if !Deployable(a) then Err(DeploymentNotSupported)
    else if a.kind.Node? && !Direct(a) then Err(AdapterMismatch)
    else if a.activeDeploymentId.Some? then Err(DeploymentInProgress)
    else if a.currentReleaseId.None? then Err(NotDeployed)
    else if Some(op.releaseId) == a.currentReleaseId then Err(RollbackTargetCurrent)
    else if !Has(a.releases, op.releaseId) then Err(RollbackReleaseUnknown)
    else Ok(a.(phase := RollingBack, activeDeploymentId := Some(op.operationId),
               pendingRollbackReleaseId := Some(op.releaseId), lastError := None, updatedAt := op.now))
  }

  function RolledBackOf(a: App, op: Op): Result<App, Error>
    requires op.MarkRolledBack?
  {
    if !Deployable(a) then Err(DeploymentNotSupported)
    else if a.kind.Node? && !Direct(a) then Err(AdapterMismatch)
    else if a.activeDeploymentId != Some(op.operationId) || a.pendingRollbackReleaseId != Some(op.releaseId)
        then Err(RollbackMismatch)
    else if PreviousOf(a, op.previous) != a.currentReleaseId then Err(ReleaseStateDrift)
    else
      var found := Find(a.releases, op.releaseId);
      if found.None? then Err(RollbackReleaseUnknown)
      else
        var t := found.value;
        if (a.kind.Node? || a.kind.Python?) && (t.runtime.None? || t.configurationRevision.None?) then Err(StateInvalid)
        else if a.kind.Node? && !NodeRuntimeOk(t.runtime.value, true) then Err(InvalidRuntime)
        else if a.kind.Node? && ProbeError(a, t.runtime.value, op.probe).Some?
            then Err(ProbeError(a, t.runtime.value, op.probe).value)
        else
          var b := a.(previousReleaseId := a.currentReleaseId, currentReleaseId := Some(op.releaseId),
                      currentCommitSha := Some(t.commitSha), currentGitTarget := Some(t.gitTarget),
                      activeDeploymentId := None, pendingRollbackReleaseId := None, phase := Live,
                      lastRolledBackAt := Some(op.now), lastError := None, updatedAt := op.now);
          Ok(Trimmed(
            if a.kind.Node? then
              b.(activeRuntime := t.runtime, appliedRevision := t.configurationRevision.value,
                 serviceName := op.probe.serviceName, servicePort := op.probe.port,
                 healthPath := op.probe.healthPath, proxyPort := op.probe.port)
            else if a.kind.Python? then
              PythonFields(b.(activeRuntime := t.runtime, appliedRevision := t.configurationRevision.value),
                           t.runtime.value)
            else b))
  }

  function FailedOf(a: App, op: Op): App
    requires op.MarkFailed?
  {
    if a.activeDeploymentId.Some? && a.activeDeploymentId != op.reported then a
    else a.(activeDeploymentId := None, pendingRollbackReleaseId := None,
            phase := if a.currentReleaseId.Some? then Live else Failed,
            lastError := Some(if op.errorCode.Some? then op.errorCode.value[..Min(120, |op.errorCode.value|)]
                              else "deployment_failed"),
            updatedAt := op.now)
  }

  function ConfiguredOf(a: App, op: Op): Result<App, Error>
    requires op.UpdateNodeConfiguration?
  {
    if a.desiredRevision != op.expectedRevision then Err(RevisionConflict)
    else if !a.kind.Node? || a.runtime.None? then Err(NotNode)
    else if a.activeDeploymentId.Some? then Err(DeploymentInProgress)
    else if !NodeRuntimeOk(op.nextRuntime, Direct(a)) then Err(InvalidRuntime)
    else if Direct(a) && op.nextRuntime.port != a.runtime.value.port then Err(PortImmutable)
    else if Some(op.nextRuntime) == a.runtime then Err(NoChanges)
    else Ok(a.(runtime := Some(op.nextRuntime), desiredRevision := a.desiredRevision + 1, updatedAt := op.now))
  }

  /** The effect of one registry operation on a hydrated record; an Err leaves the record as it was. */
  function Apply(a: App, op: Op): Result<App, Error> {
    match op
    case MarkDeploying(_, _) => DeployingOf(a, op)
    case MarkDeployed(_, _, _, _, _, _, _, _, _, _) => DeployedOf(a, op)
    case ActivatePassenger(o, r, p, sha, t, rt, now) =>
      if !OnPassenger(a) then Err(AdapterMismatch) else Activated(a, o, r, p, sha, t, rt, now)
    case ResetPassenger(o, r, now) => if !OnPassenger(a) then Err(AdapterMismatch) else ResetOf(a, o, r, now)
    case MarkPassengerMigrated(now) => MigratedOf(a, now)
    case ActivatePython(o, r, p, sha, t, rt, now) =>
      if !a.kind.Python? then Err(AdapterMismatch) else Activated(a, o, r, p, sha, t, rt, now)
    case ResetPython(o, r, now) => if !a.kind.Python? then Err(AdapterMismatch) else ResetOf(a, o, r, now)
    case MarkRollingBack(_, _, _) => RollingBackOf(a, op)
    case MarkRolledBack(_, _, _, _, _) => RolledBackOf(a, op)
    case MarkFailed(_, _, _) => Ok(FailedOf(a, op))
    case UpdateNodeConfiguration(_, _, _) => ConfiguredOf(a, op)
  }

  // ---- creation and reload --------------------------------------------------

  function Base(id: Id, serverId: Id, kind: Kind, adapter: Option<Adapter>, branch: string, retention: nat,
                runtime: Option<Runtime>, now: Time): App {
    App(id, serverId, kind, adapter, branch, retention, Draft, 1, 0, None, None, None, None, [], None, None, None, None,
        None, None,
        None, None, None, None, runtime, None, now, now)
  }

  /** normalizeRetention */
  function Retention(requested: int): nat { if 2 <= requested <= 20 then requested else 5 }

  function CreateStatic(id: Id, serverId: Id, branch: string, retention: int, now: Time): App {
    Base(id, serverId, Static, None, branch, Retention(retention), None, now)
  }

  function CreatePhp(id: Id, serverId: Id, now: Time): App { Base(id, serverId, Php, None, "", 2, None, now) }

  function CreateNode(id: Id, serverId: Id, branch: string, retention: int, requested: Option<Adapter>,
                      runtime: Runtime, now: Time): Result<App, Error> {
    var adapter := if requested.Some? then requested.value else if runtime.port.Some? then DirectSystemd else Passenger;
    if !NodeRuntimeOk(runtime, adapter.DirectSystemd?) then Err(InvalidRuntime)
    else
      Ok(Base(id, serverId, Node, Some(adapter), branch, Retention(retention), Some(runtime), now)
        .(servicePort := runtime.port, healthPath := Some(runtime.healthPath), proxyPort := runtime.port))
  }

  function CreatePython(id: Id, serverId: Id, branch: string, retention: int, runtime: Runtime, now: Time): Result<App,
      Error> {
    if !PythonRuntimeOk(runtime) then Err(InvalidRuntime)
    else Ok(PythonFields(Base(id, serverId, Python, None, branch, Retention(retention), Some(runtime), now), runtime))
  }

  /** One release as the reload rewrites it; None when its runtime is refused. */
  function HydrateRelease(a: App, r: Release): Option<Release> {
    var raw := if r.runtime.Some? then r.runtime else if a.activeRuntime.Some? then a.activeRuntime else a.runtime;
    if raw.None? then None
    else
      var stripped := if OnPassenger(a) then StripPort(raw.value) else raw.value;
      var ok := if a.kind.Node? then NodeRuntimeOk(stripped, Direct(a)) else PythonRuntimeOk(stripped);
      if !ok then None
      else Some(r.(runtime := Some(stripped),
                   configurationRevision :=
                     if r.configurationRevision.Some? && r.configurationRevision.value >= 1 then r.configurationRevision
                     else Some(if a.appliedRevision == 0 then 1 else a.appliedRevision)))
  }

  function HydrateReleases(a: App, rs: seq<Release>): Option<seq<Release>> {
    if rs == [] then Some([])
    else
      var head, tail := HydrateRelease(a, rs[0]), HydrateReleases(a, rs[1..]);
      if head.Some? && tail.Some? then Some([head.value] + tail.value) else None
  }

  function ClearReleases(rs: seq<Release>): seq<Release> {
    if rs == [] then [] else [rs[0].(runtime := None, configurationRevision := None)] + ClearReleases(rs[1..])
  }

  predicate HydrateRevisionsOk(a: App) {
    && (a.currentReleaseId.None? ==> a.appliedRevision == 0)
    && (a.currentReleaseId.Some? ==> a.activeRuntime.Some? && a.appliedRevision >= 1)
  }

  predicate PhpClean(a: App) {
    && a.runtime.None? && a.serviceName.None? && a.servicePort.None? && a.healthPath.None? && a.proxyPort.None?
    && a.releases == [] && a.currentReleaseId.None? && a.previousReleaseId.None? && a.currentCommitSha.None?
    && a.currentGitTarget.None? && a.activeDeploymentId.None? && a.pendingRollbackReleaseId.None?
    && a.lastDeploymentId.None? && a.lastDeployedAt.None? && a.lastRolledBackAt.None?
  }

  function HydrateManaged(a: App): Result<App, Error>
    requires a.kind.Node? || a.kind.Python?
  {
    if a.runtime.None? then Err(StateInvalid)
    else
      var ok := (r: Runtime) => if a.kind.Node? then NodeRuntimeOk(r, Direct(a)) else PythonRuntimeOk(r);
      if !ok(a.runtime.value) || (a.activeRuntime.Some? && !ok(a.activeRuntime.value)) then Err(InvalidRuntime)
      else if !HydrateRevisionsOk(a) then Err(StateInvalid)
      else
        var b := if a.kind.Python? then PythonFields(a, a.runtime.value) else a;
        var rs := HydrateReleases(b, b.releases);
        if rs.None? then Err(InvalidRuntime) else Ok(b.(releases := rs.value))
  }

  /** The last step of hydrateApplication: a current release missing from the history is put back. */
  function Readopt(a: App): App {
    if !a.kind.Php? && a.currentReleaseId.Some? && a.currentCommitSha.Some?
        && !Has(a.releases, a.currentReleaseId.value) then
      var id := a.currentReleaseId.value;
      var managed := a.kind.Node? || a.kind.Python?;
      a.(releases := a.releases + [Release(id, id, a.currentCommitSha.value,
        if a.currentGitTarget.Some? then a.currentGitTarget.value else Branch(a.branch), None, None,
        if a.lastDeployedAt.Some? then a.lastDeployedAt.value else a.updatedAt,
        if managed then a.activeRuntime else None, if managed then Some(a.appliedRevision) else None)])
    else a
  }

  /** hydrateApplication on a record of the current store version. */
  function Hydrate(stored: App): Result<App, Error> {
    var adapter :=
      if !stored.kind.Node? then None
      else if stored.adapter.Some? then stored.adapter
      else if stored.runtime.Some? && stored.runtime.value.port.Some? then Some(DirectSystemd) else Some(Passenger);
    var a := stored.(adapter := adapter, desiredRevision := if stored.desiredRevision < 1 then 1
                     else stored.desiredRevision);
    if OnPassenger(a) && (a.serviceName.Some? || a.servicePort.Some? || a.proxyPort.Some?) then Err(StateInvalid)
    else if a.kind.Php? then
      if PhpClean(a) then Ok(a.(activeRuntime := None, appliedRevision := 0)) else Err(StateInvalid)
    else if a.kind.Static? then Ok(Readopt(a.(activeRuntime := None, releases := ClearReleases(a.releases))))
    else
      var h := HydrateManaged(a);
      if h.Ok? then Ok(Readopt(h.value)) else h
  }

  /** One call on a stored record: reload rules first, then the operation; a refused call changes nothing more. */
  function Step(a: App, op: Op): App {
    var h := Hydrate(a);
    if h.Err? then a
    else if Apply(h.value, op).Ok? then Apply(h.value, op).value
    else h.value
  }

  function Run(a: App, ops: seq<Op>): App
    decreases |ops|
  {
    if ops == [] then a else Run(Step(a, ops[0]), ops[1..])
  }

  /** publicApplication's configurationPending flag. */
  predicate ConfigurationPending(a: App) {
    (a.kind.Node? || a.kind.Python?) && a.currentReleaseId.Some? && a.runtime != a.activeRuntime
  }
}
