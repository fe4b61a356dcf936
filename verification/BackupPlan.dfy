/**
 The backup pipeline from a preview to persisted work: createBackupPlan's selection,
 createBackupExecutionPlan, and normalizeBackupExecutionPlan, which re-reads the result.
 Digests are free constructors over what they hash: equal digests, equal content.
 */
module BackupPlan {
  import opened Common
  import opened Texts
  import D = DependencyGraph

  const MAX_STEPS := 8192

  /** A timestamp text: its instant, and whether it is spelled the way toISOString spells it. */
  datatype Stamp = Unparsable | Stamp(instant: int, iso: bool)

  datatype Kind = ApplicationKind | DatabaseKind | DockerKind | MailKind
  datatype Executor = ApplicationSnapshot | DatabaseBackup | DockerStorageBackup | MailDataBackup
  datatype ApplicationType = StaticSite | NodeSite | OtherSite
  datatype Engine = MariaDb | MySql | OtherEngine
  datatype StorageKind = NamedVolume | Bind | Ephemeral
  datatype Scope = Project | Host
  datatype MailScope = DomainScope | MailboxScope
  datatype Disposition = Include | Exclude | Reject
  datatype Mode = AllManaged | Explicit | OtherMode

  datatype Environment = Environment(savedRevision: int, appliedRevision: Option<int>, appliedReleaseId: Option<Text>)
  datatype Storage = Storage(kind: StorageKind, source: Text, scope: Scope, target: Text, readOnly: bool)

  datatype Input =
    | ApplicationInput(applicationId: Text, applicationType: ApplicationType, desiredRevision: int,
                       appliedRevision: int,
                       currentReleaseId: Option<Text>, currentCommitSha: Option<Text>, environment: Environment)
    | DatabaseInput(databaseName: Text, engine: Engine, databaseVersion: Text, sizeBytes: int,
                    inventoryJobId: Text, inventoryRefreshedAt: Stamp)
    | DockerInput(projectId: Text, projectRevision: int, serviceName: Text, storage: Storage)
    | MailInput(mailDomainId: Text, scope: MailScope, resourceId: Text, mailIdentity: Text,
                expectedRevision: int, snapshotSha256: nat, bytes: int)

  datatype Core = Core(identity: Text, kind: Kind, executor: Executor, input: Input)

  datatype Digest =
    | PreviewDigest(serverId: Text, mode: Mode, selected: seq<Text>, resources: seq<Resource>, graph: Option<D.Graph>)
    | StepDigest(serverId: Text, preview: Digest, core: Core)
    | ExecutionDigest(serverId: Text, preview: Digest, mode: Mode, steps: seq<Step>)
    | OtherDigest(nat)

  /** `stepId` and `idempotencyKey` are prefixed digests. */
  datatype Name = StepName(digest: Digest) | OperationName(digest: Digest) | OtherName(nat)

  datatype Step = Step(stepId: Name, stepDigest: Digest, core: Core)

  datatype Plan = Plan(version: int, serverId: Text, previewDigest: Digest, mode: Mode, steps: seq<Step>,
                       executionDigest: Digest, idempotencyKey: Name, sideEffects: bool)

  /** What the snapshot of a resource holds beyond the execution input. */
  datatype Resource = Resource(identity: Text, kind: Kind, serverId: Text, disposition: Disposition, input: Input,
                               sourcePresent: bool)

  datatype Preview = Preview(version: int, serverId: Text, previewDigest: Digest, confirmation: (Text, Digest),
                             mode: Mode,
                             resources: seq<Resource>, selected: seq<Text>, sideEffects: bool)

  datatype Error =
    | Invalid | Tampered | Stale | ConfirmationInvalid | NotSelectable | Empty | Duplicate | NotFound | TooLarge
    | DependenciesInvalid

  function ExecutorOf(k: Kind): Executor {
    match k
    case ApplicationKind => ApplicationSnapshot
    case DatabaseKind => DatabaseBackup
    case DockerKind => DockerStorageBackup
    case MailKind => MailDataBackup
  }

  function LowerOption(t: Option<Text>): Option<Text> { if t.Some? then Some(Lower(t.value)) else None }

  function Iso(s: Stamp): Stamp { if s.Stamp? then s.(iso := true) else s }

  // ---- re-reading persisted work (backup-execution-state.js) -----------------

  function NormalizeEnvironment(e: Environment): Option<Environment> {
    if !IsSafe(e.savedRevision) || e.savedRevision < 0
      || (e.appliedRevision.Some?
          && (!IsSafe(e.appliedRevision.value) || e.appliedRevision.value < 0
              || e.appliedRevision.value > e.savedRevision))
      || (e.appliedReleaseId.Some? && !IsUuid(e.appliedReleaseId.value))
      || e.appliedRevision.None? != e.appliedReleaseId.None? then None
    else Some(e.(appliedReleaseId := LowerOption(e.appliedReleaseId)))
  }

  function NormalizeApplication(i: Input): Option<Input>
    requires i.ApplicationInput?
  {
    if i.applicationType.OtherSite?
      || !IsSafe(i.desiredRevision) || i.desiredRevision < 1
      || !IsSafe(i.appliedRevision) || i.appliedRevision < 0 || i.appliedRevision > i.desiredRevision
      || (i.currentReleaseId.Some? && !IsUuid(i.currentReleaseId.value))
      || (i.currentCommitSha.Some? && !IsCommit(i.currentCommitSha.value))
      || i.currentReleaseId.None? != i.currentCommitSha.None?
      || (i.currentReleaseId.None? && i.appliedRevision != 0)
      || (i.applicationType.NodeSite? && i.currentReleaseId.Some? && i.appliedRevision < 1)
      || !IsUuid(i.applicationId)
      || NormalizeEnvironment(i.environment).None? then None
    else Some(i.(applicationId := Lower(i.applicationId), currentReleaseId := LowerOption(i.currentReleaseId),
                 currentCommitSha := LowerOption(i.currentCommitSha),
                 environment := NormalizeEnvironment(i.environment).value))
  }

  function NormalizeDatabase(i: Input): Option<Input>
    requires i.DatabaseInput?
  {
    if !IsDatabaseName(i.databaseName) || i.engine.OtherEngine?
      || !(1 <= |i.databaseVersion| <= 120) || !IsSafe(i.sizeBytes) || i.sizeBytes < 0
      || !IsUuid(i.inventoryJobId) || i.inventoryRefreshedAt.Unparsable? then None
    else Some(i.(inventoryJobId := Lower(i.inventoryJobId), inventoryRefreshedAt := Iso(i.inventoryRefreshedAt)))
  }

  predicate StorageOk(s: Storage) {
    && !s.kind.Ephemeral?
    && 1 <= |s.source| <= 4096
    && s.scope.Project?
    && 1 <= |s.target| <= 4096 && s.target[0] == '/'
  }

  function NormalizeDocker(i: Input): Option<Input>
    requires i.DockerInput?
  {
    if !IsSafe(i.projectRevision) || i.projectRevision < 1 || !IsServiceName(i.serviceName)
      || !IsUuid(i.projectId) || !StorageOk(i.storage) then None
    else Some(i.(projectId := Lower(i.projectId)))
  }

  function NormalizeMail(i: Input): Option<Input>
    requires i.MailInput?
  {
    if !IsUuid(i.mailDomainId) || !IsUuid(i.resourceId) || !i.scope.DomainScope?
      || Lower(i.resourceId) != Lower(i.mailDomainId) || !IsIdentityText(i.mailIdentity)
      || !IsSafe(i.expectedRevision) || i.expectedRevision < 1 || !IsSafe(i.bytes) || i.bytes < 0 then None
    else Some(i.(mailDomainId := Lower(i.mailDomainId), resourceId := Lower(i.resourceId)))
  }

  function NormalizeInput(k: Kind, i: Input): Option<Input> {
    match k
    case ApplicationKind => if i.ApplicationInput? then NormalizeApplication(i) else None
    case DatabaseKind => if i.DatabaseInput? then NormalizeDatabase(i) else None
    case DockerKind => if i.DockerInput? then NormalizeDocker(i) else None
    case MailKind => if i.MailInput? then NormalizeMail(i) else None
  }

  function NormalizeStep(s: Step, serverId: Text, preview: Digest): Option<Step> {
    var input := NormalizeInput(s.core.kind, s.core.input);
    if !IsResourceId(s.core.identity) || s.core.executor != ExecutorOf(s.core.kind) || input.None? then None
    else
      var core := s.core.(input := input.value);
      var digest := StepDigest(serverId, preview, core);
      if s.stepDigest != digest || s.stepId != StepName(digest) then None
      else Some(Step(s.stepId, digest, core))
  }

  function NormalizeSteps(steps: seq<Step>, serverId: Text, preview: Digest): Option<seq<Step>> {
    if steps == [] then Some([])
    else
      var head, tail := NormalizeStep(steps[0], serverId, preview), NormalizeSteps(steps[1..], serverId, preview);
      if head.Some? && tail.Some? then Some([head.value] + tail.value) else None
  }

  predicate Ordered(steps: seq<Step>) {
    && (forall i, j | 0 <= i < j < |steps| :: steps[i].stepId != steps[j].stepId)
    && (forall i, j | 0 <= i < j < |steps| :: steps[i].core.identity != steps[j].core.identity)
    && (forall i | 0 < i < |steps| :: Before(steps[i - 1].core.identity, steps[i].core.identity))
  }

  /** normalizeBackupExecutionPlan; None is a refusal. */
  function NormalizePlan(p: Plan): Option<Plan> {
    if p.version != 1 || !p.sideEffects || p.mode.OtherMode? || !(1 <= |p.steps| <= MAX_STEPS) || !IsUuid(p.serverId)
        then None
    else
      var serverId := Lower(p.serverId);
      var steps := NormalizeSteps(p.steps, serverId, p.previewDigest);
      if steps.None? || !Ordered(steps.value) then None
      else
        var digest := ExecutionDigest(serverId, p.previewDigest, p.mode, steps.value);
        if p.executionDigest != digest || p.idempotencyKey != OperationName(digest) then None
        else Some(Plan(1, serverId, p.previewDigest, p.mode, steps.value, digest, OperationName(digest), true))
  }

  // ---- building the execution plan (backup-execution-plan.js) ----------------

  /** executionInput: what each builder checks and copies; the remaining checks are left to the re-read. */
  function ExecutionInput(r: Resource): Option<Input> {
    match r.input
    case ApplicationInput(id, _, desired, applied, _, _, _) =>
      if !IsSafe(desired) || desired < 1 || !IsSafe(applied) || applied < 0 || !IsUuid(id) then None
      else Some(r.input.(applicationId := Lower(id)))
    case DatabaseInput(name, engine, version, size, job, _) =>
      if !(1 <= |name| <= 64) || engine.OtherEngine? || !(1 <= |version| <= 120) || !IsSafe(size) || size < 0
          || !IsUuid(job) then None
      else Some(r.input.(inventoryJobId := Lower(job)))
    case DockerInput(project, revision, service, storage) =>
      if !IsSafe(revision) || revision < 1 || !(1 <= |service| <= 63) || !IsUuid(project) || !StorageOk(storage)
          then None
      else Some(r.input.(projectId := Lower(project)))
    case MailInput(domain, scope, resource, identity, revision, _, bytes) =>
      if !scope.DomainScope? || resource != domain || !(1 <= |identity| <= 320) || !IsSafe(revision) || revision < 1
        || !r.sourcePresent || !IsSafe(bytes) || bytes < 0 || !IsUuid(domain) then None
      else Some(r.input.(mailDomainId := Lower(domain), resourceId := Lower(domain)))
  }

  function FindResource(rs: seq<Resource>, identity: Text): (r: Option<Resource>)
    ensures r.Some? ==> r.value in rs && r.value.identity == identity
    ensures r.None? ==> forall x | x in rs :: x.identity != identity
  {
    if rs == [] then None else if rs[0].identity == identity then Some(rs[0]) else FindResource(rs[1..], identity)
  }

  function BuildStep(rs: seq<Resource>, serverId: Text, preview: Digest, identity: Text): Result<Step, Error> {
    var r := FindResource(rs, identity);
    if r.None? || r.value.serverId != serverId || !r.value.disposition.Include? then Err(NotSelectable)
    else if !IsResourceId(identity) || ExecutionInput(r.value).None? then Err(Invalid)
    else
      var core := Core(identity, r.value.kind, ExecutorOf(r.value.kind), ExecutionInput(r.value).value);
      var digest := StepDigest(serverId, preview, core);
      Ok(Step(StepName(digest), digest, core))
  }

  /** The steps of a selection in its order; the first selection that fails decides the error. */
  function BuildSteps(rs: seq<Resource>, serverId: Text, preview: Digest, selected: seq<Text>): (r: Result<seq<Step>,
      Error>)
    ensures r.Ok? ==> |r.value| == |selected|
    ensures r.Ok? ==> forall i | 0 <= i < |selected| :: BuildStep(rs, serverId, preview, selected[i]) == Ok(r.value[i])
    ensures r.Err? ==> exists i | 0 <= i < |selected| :: BuildStep(rs, serverId, preview, selected[i]).Err?
  {
    if selected == [] then Ok([])
    else
      var last := |selected| - 1;
      var init := BuildSteps(rs, serverId, preview, selected[..last]);
      if init.Err? then
        assert exists i | 0 <= i < |selected| :: BuildStep(rs, serverId, preview, selected[i]).Err? by {
          var k :| 0 <= k < last && BuildStep(rs, serverId, preview, selected[..last][k]).Err?;
          assert selected[k] == selected[..last][k];
        }
        init
      else
        var step := BuildStep(rs, serverId, preview, selected[last]);
        if step.Err? then Err(step.error) else Ok(init.value + [step.value])
  }

  predicate IdentitiesDistinct(rs: seq<Resource>) {
    forall i, j | 0 <= i < j < |rs| :: rs[i].identity != rs[j].identity
  }

  function CurrentPlanError(p: Preview, expected: Digest, confirmation: (Text, Digest)): Option<Error> {
    if p.version != 1 || p.sideEffects || !IsUuid(p.serverId) || |p.resources| > MAX_STEPS || |p.selected| > MAX_STEPS
        then Some(Invalid)
    else if !IdentitiesDistinct(p.resources) || !NoDuplicates(p.selected) then Some(Duplicate)
    else if p.previewDigest != expected then Some(Stale)
    else if p.confirmation != (Lower(p.serverId), p.previewDigest) || confirmation != p.confirmation
        then Some(ConfirmationInvalid)
    else None
  }

  function PlanOf(serverId: Text, preview: Digest, mode: Mode, steps: seq<Step>): Plan {
    var digest := ExecutionDigest(serverId, preview, mode, steps);
    Plan(1, serverId, preview, mode, steps, digest, OperationName(digest), true)
  }

  function ExecutionPlan(p: Preview, expected: Digest, confirmation: (Text, Digest)): Result<Plan, Error> {
    var error := CurrentPlanError(p, expected, confirmation);
    if error.Some? then Err(error.value)
    else
      var serverId := Lower(p.serverId);
      var steps := BuildSteps(p.resources, serverId, p.previewDigest, Sort(p.selected));
      if steps.Err? then Err(steps.error)
      else if steps.value == [] then Err(Empty)
      else Ok(PlanOf(serverId, p.previewDigest, p.mode, steps.value))
  }

  /** createBackupExecutionPlan, collecting the steps in a loop. */
  method CreateBackupExecutionPlan(p: Preview, expected: Digest, confirmation: (Text, Digest))
      returns (plan: Result<Plan, Error>)
    ensures plan == ExecutionPlan(p, expected, confirmation)
  {
    var error := CurrentPlanError(p, expected, confirmation);
    if error.Some? { return Err(error.value); }
    var serverId, selected := Lower(p.serverId), Sort(p.selected);
    var steps: seq<Step> := [];
    for k := 0 to |selected|
      invariant BuildSteps(p.resources, serverId, p.previewDigest, selected[..k]) == Ok(steps)
    {
      assert selected[..k + 1][..k] == selected[..k];
      var step := BuildStep(p.resources, serverId, p.previewDigest, selected[k]);
      if step.Err? {
        FirstErrorDecides(p.resources, serverId, p.previewDigest, selected, k + 1, step.error);
        return Err(step.error);
      }
      steps := steps + [step.value];
    }
    assert selected[..|selected|] == selected;
    if steps == [] { return Err(Empty); }
    return Ok(PlanOf(serverId, p.previewDigest, p.mode, steps));
  }

  lemma {:induction false} FirstErrorDecides(rs: seq<Resource>, serverId: Text, preview: Digest, selected: seq<Text>,
                                             k: nat, error: Error)
    requires k <= |selected| && BuildSteps(rs, serverId, preview, selected[..k]) == Err(error)
    ensures BuildSteps(rs, serverId, preview, selected) == Err(error)
    decreases |selected| - k
  {
    if k < |selected| {
      assert selected[..k + 1][..k] == selected[..k];
      FirstErrorDecides(rs, serverId, preview, selected, k + 1, error);
    } else {
      assert selected[..k] == selected;
    }
  }

  // ---- normalising resources (backup-manifest.js and its two siblings) -------

  /** `^[A-Za-z0-9][A-Za-z0-9_.:-]{0,127}$` */
  predicate IsSafeId(s: Text) { |s| <= 128 && IsResourceId(s) }

  /** normalizeStorageMount: an ephemeral mount has no source, a named volume belongs to the project. */
  predicate MountOk(s: Storage) {
    && 1 <= |s.target| <= 4096 && IsPrintable(s.target) && s.target[0] == '/'
    && match s.kind
       case Ephemeral => s.source == [] && s.scope.Host?
       case NamedVolume => s.scope.Project? && 1 <= |s.source| <= 128
       case Bind => 1 <= |s.source| <= 4096 && IsPrintable(s.source)
  }

  function StoragePolicy(s: Storage): Disposition {
    if s.kind.Ephemeral? then Exclude
    else if s.kind.Bind? && s.scope.Host? then Reject
    else Include
  }

  function ManifestEnvironment(e: Environment): Option<Environment> {
    if !IsSafe(e.savedRevision) || e.savedRevision < 0
      || (e.appliedRevision.Some?
          && !(IsSafe(e.appliedRevision.value) && 0 <= e.appliedRevision.value <= e.savedRevision))
      || (e.appliedReleaseId.Some? && !IsUuid(e.appliedReleaseId.value))
      || e.appliedRevision.None? != e.appliedReleaseId.None? then None
    else Some(e.(appliedReleaseId := LowerOption(e.appliedReleaseId)))
  }

  function ManifestApplication(i: Input): Option<Input>
    requires i.ApplicationInput?
  {
    if i.applicationType.OtherSite? || !IsUuid(i.applicationId)
      || !IsSafe(i.desiredRevision) || i.desiredRevision < 1 || !IsSafe(i.appliedRevision)
          || !(0 <= i.appliedRevision <= i.desiredRevision)
      || (i.currentReleaseId.Some? && !IsUuid(i.currentReleaseId.value))
      || (i.currentCommitSha.Some? && !IsCommit(i.currentCommitSha.value))
      || i.currentReleaseId.None? != i.currentCommitSha.None?
      || (i.currentReleaseId.None? && i.appliedRevision != 0)
      || (i.applicationType.NodeSite? && i.currentReleaseId.Some? && i.appliedRevision < 1)
      || ManifestEnvironment(i.environment).None? then None
    else Some(i.(applicationId := Lower(i.applicationId), currentReleaseId := LowerOption(i.currentReleaseId),
                 currentCommitSha := LowerOption(i.currentCommitSha),
                     environment := ManifestEnvironment(i.environment).value))
  }

  /**
   One resource as its normaliser leaves it, None when it is refused. Identities are digests
   behind a prefix, of which only the format is used here.
   */
  function ManifestResource(r: Resource, serverId: Text): Option<Resource> {
    if !IsResourceId(r.identity) then None
    else match r.input
      case ApplicationInput(_, _, _, _, _, _, _) =>
        if !r.kind.ApplicationKind? || r.serverId != serverId || !IsSafeId(serverId) || !r.disposition.Include?
          || ManifestApplication(r.input).None? then None
        else Some(r.(input := ManifestApplication(r.input).value))
      case DockerInput(project, revision, service, storage) =>
        if !r.kind.DockerKind? || r.serverId != serverId || !IsSafeId(serverId) || !IsSafeId(project) || revision < 1
          || !IsServiceName(service) || !MountOk(storage) || r.disposition != StoragePolicy(storage) then None
        else Some(r)
      case DatabaseInput(name, engine, version, size, job, refreshed) =>
        if !r.kind.DatabaseKind? || !IsUuid(r.serverId) || !IsUuid(serverId) || Lower(r.serverId) != Lower(serverId)
          || !r.disposition.Include? || !IsDatabaseName(name) || engine.OtherEngine? || !(1 <= |version| <= 120)
          || !IsSafe(size) || size < 0 || !IsUuid(job) || refreshed.Unparsable? then None
        else Some(r.(serverId := Lower(serverId),
                     input := r.input.(inventoryJobId := Lower(job), inventoryRefreshedAt := Iso(refreshed))))
      case MailInput(domain, scope, resource, identity, revision, _, bytes) =>
        if !r.kind.MailKind? || !IsUuid(r.serverId) || !IsUuid(serverId) || Lower(r.serverId) != Lower(serverId)
          || r.disposition != (if r.sourcePresent then Include else Exclude) || !IsUuid(domain) || !IsUuid(resource)
          || !IsIdentityText(identity) || !IsSafe(revision) || revision < 1 || !IsSafe(bytes) || bytes < 0 then None
        else Some(r.(serverId := Lower(serverId),
                     input := r.input.(mailDomainId := Lower(domain), resourceId := Lower(resource))))
  }

  // ---- building the preview (backup-plan.js) ---------------------------------

  function InsertResource(r: Resource, rs: seq<Resource>): seq<Resource> {
    if rs == [] || Before(r.identity, rs[0].identity) then [r] + rs else [rs[0]] + InsertResource(r, rs[1..])
  }

  function SortResources(rs: seq<Resource>): seq<Resource> {
    if rs == [] then [] else InsertResource(rs[0], SortResources(rs[1..]))
  }

  /** The identities of the resources the policy includes. */
  function Included(rs: seq<Resource>): seq<Text> {
    if rs == [] then []
    else (if rs[0].disposition.Include? then [rs[0].identity] else []) + Included(rs[1..])
  }

  /** The first requested identity, in order, that cannot be selected. */
  function SelectionError(rs: seq<Resource>, selected: seq<Text>): (e: Option<Error>)
    ensures e.None? <==> forall i | 0 <= i < |selected| :: Selectable(rs, selected[i])
  {
    if selected == [] then None
    else
      var r := FindResource(rs, selected[0]);
      if r.None? then Some(NotFound)
      else if !r.value.disposition.Include? then Some(NotSelectable)
      else
        var rest := SelectionError(rs, selected[1..]);
        assert rest.Some? ==> exists i | 0 <= i < |selected| :: !Selectable(rs, selected[i]) by {
          if rest.Some? {
            var k :| 0 <= k < |selected[1..]| && !Selectable(rs, selected[1..][k]);
            assert selected[k + 1] == selected[1..][k];
          }
        }
        rest
  }

  predicate Selectable(rs: seq<Resource>, identity: Text) {
    var r := FindResource(rs, identity);
    r.Some? && r.value.disposition.Include?
  }

  /** A resource as the dependency graph sees it. */
  function SubjectOf(i: Input): D.Subject {
    match i
    case ApplicationInput(id, _, _, _, _, _, _) => D.ApplicationSubject(id)
    case DatabaseInput(name, _, _, _, _, _) => D.DatabaseSubject(name)
    case DockerInput(project, _, _, _) => D.StorageSubject(project)
    case MailInput(domain, scope, resource, _, _, _, _) => D.MailSubject(domain, scope.DomainScope?, resource)
  }

  function GraphResource(r: Resource): D.Resource { D.Resource(r.identity, r.serverId, SubjectOf(r.input)) }

  function Entries(rs: seq<Resource>): (es: seq<D.Entry>)
    ensures |es| == |rs| && forall i | 0 <= i < |rs| :: es[i] == D.EntryOf(GraphResource(rs[i]))
  {
    seq(|rs|, i requires 0 <= i < |rs| => D.EntryOf(GraphResource(rs[i])))
  }

  /** A graph is optional; one that is given must re-read for exactly these resources. */
  function ReadGraph(graph: Option<D.Graph>, rs: seq<Resource>, serverId: Text): Result<Option<D.Graph>, Error> {
    if graph.None? then Ok(None)
    else
      var read := D.NormalizeGraph(graph.value, Entries(rs), serverId);
      if read.None? then Err(DependenciesInvalid) else Ok(read)
  }

  /** The graph, the selection and the preview over normalised resources. */
  function BackupPreview(serverId: Text, all: seq<Resource>, graph: Option<D.Graph>,
                         requested: Option<seq<Text>>): Result<Preview, Error> {
    var resources := SortResources(all);
    if |resources| > MAX_STEPS then Err(TooLarge)
    else if !IdentitiesDistinct(resources) then Err(Duplicate)
    else
      var dependencies := ReadGraph(graph, resources, serverId);
      if dependencies.Err? then Err(dependencies.error)
          else Selected(serverId, resources, dependencies.value, requested)
  }

  function Selected(serverId: Text, resources: seq<Resource>, graph: Option<D.Graph>,
                    requested: Option<seq<Text>>): Result<Preview, Error> {
    if requested.Some? && (|requested.value| > MAX_STEPS || !NoDuplicates(requested.value)) then Err(Invalid)
    else
      var selected := if requested.Some? then Sort(requested.value) else Included(resources);
      var error := if requested.Some? then SelectionError(resources, selected) else None;
      if error.Some? then Err(error.value)
      else if selected == [] then Err(Empty)
      else
        var mode := if requested.Some? then Explicit else AllManaged;
        var digest := PreviewDigest(serverId, mode, Sort(selected), resources, graph);
        Ok(Preview(1, serverId, digest, (serverId, digest), mode, resources, Sort(selected), false))
  }

  /** createBackupPlan: every resource must pass its normaliser first. */
  function CreateBackupPlan(serverId: Text, raw: seq<Resource>, graph: Option<D.Graph>,
                            requested: Option<seq<Text>>): Result<Preview, Error> {
    if exists i | 0 <= i < |raw| :: ManifestResource(raw[i], serverId).None? then Err(Invalid)
    else BackupPreview(serverId, Normalized(raw, serverId), graph, requested)
  }

  function Normalized(raw: seq<Resource>, serverId: Text): (rs: seq<Resource>)
    requires forall i | 0 <= i < |raw| :: ManifestResource(raw[i], serverId).Some?
    ensures |rs| == |raw| && forall i | 0 <= i < |raw| :: ManifestResource(raw[i], serverId) == Some(rs[i])
  {
    seq(|raw|, i requires 0 <= i < |raw| => ManifestResource(raw[i], serverId).value)
  }
}
