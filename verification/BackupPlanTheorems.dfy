/** What holds between the preview, the execution plan built from it and the plan as it is read back. */
module BackupPlanTheorems {
  import opened Common
  import opened Texts
  import opened BackupPlan
  import D = DependencyGraph

  // ---- reading a plan back ---------------------------------------------------

  lemma InputIdempotent(k: Kind, i: Input)
    requires NormalizeInput(k, i).Some?
    ensures NormalizeInput(k, NormalizeInput(k, i).value) == NormalizeInput(k, i)
  {
    match i
    case ApplicationInput(id, _, _, _, release, commit, environment) =>
      LowerIdempotent(id);
      if release.Some? { LowerIdempotent(release.value); LowerIdempotent(commit.value); }
      if environment.appliedReleaseId.Some? { LowerIdempotent(environment.appliedReleaseId.value); }
    case DatabaseInput(_, _, _, _, job, _) => LowerIdempotent(job);
    case DockerInput(project, _, _, _) => LowerIdempotent(project);
    case MailInput(domain, _, resource, _, _, _, _) => LowerIdempotent(domain); LowerIdempotent(resource);
  }

  lemma {:induction false} StepsPointwise(steps: seq<Step>, serverId: Text, preview: Digest)
    requires NormalizeSteps(steps, serverId, preview).Some?
    ensures var r := NormalizeSteps(steps, serverId, preview).value;
      |r| == |steps| && forall i | 0 <= i < |steps| :: NormalizeStep(steps[i], serverId, preview) == Some(r[i])
  {
    if steps != [] { StepsPointwise(steps[1..], serverId, preview); }
  }

  lemma {:induction false} StepsFixed(steps: seq<Step>, serverId: Text, preview: Digest)
    requires forall i | 0 <= i < |steps| :: NormalizeStep(steps[i], serverId, preview) == Some(steps[i])
    ensures NormalizeSteps(steps, serverId, preview) == Some(steps)
  {
    if steps != [] {
      StepsFixed(steps[1..], serverId, preview);
      assert steps == [steps[0]] + steps[1..];
    }
  }

  /** Reading an accepted plan back once more changes nothing. */
  lemma PlanIdempotent(p: Plan)
    requires NormalizePlan(p).Some?
    ensures NormalizePlan(NormalizePlan(p).value) == NormalizePlan(p)
  {
    var q := NormalizePlan(p).value;
    LowerIdempotent(p.serverId);
    StepsPointwise(p.steps, q.serverId, q.previewDigest);
    forall i | 0 <= i < |q.steps| ensures NormalizeStep(q.steps[i], q.serverId, q.previewDigest) == Some(q.steps[i]) {
      assert NormalizeStep(p.steps[i], q.serverId, q.previewDigest) == Some(q.steps[i]);
      InputIdempotent(p.steps[i].core.kind, p.steps[i].core.input);
    }
    StepsFixed(q.steps, q.serverId, q.previewDigest);
  }

  /** An accepted plan is determined by its execution digest, and so is the key it is stored under. */
  lemma DigestDeterminesPlan(p: Plan, q: Plan)
    requires NormalizePlan(p).Some? && NormalizePlan(q).Some?
    ensures p.executionDigest == q.executionDigest <==> NormalizePlan(p) == NormalizePlan(q)
    ensures p.idempotencyKey == q.idempotencyKey <==> NormalizePlan(p) == NormalizePlan(q)
  {
  }

  // ---- sorting resources -----------------------------------------------------

  lemma {:induction false} InsertResourceElements(r: Resource, rs: seq<Resource>)
    ensures |InsertResource(r, rs)| == |rs| + 1
    ensures forall x :: x in InsertResource(r, rs) <==> x == r || x in rs
  {
    if rs != [] { InsertResourceElements(r, rs[1..]); }
  }

  lemma {:induction false} SortResourcesElements(rs: seq<Resource>)
    ensures |SortResources(rs)| == |rs|
    ensures forall x :: x in SortResources(rs) <==> x in rs
  {
    if rs != [] {
      SortResourcesElements(rs[1..]);
      InsertResourceElements(rs[0], SortResources(rs[1..]));
    }
  }

  // ---- the selection ---------------------------------------------------------

  lemma {:induction false} IncludedSelection(rs: seq<Resource>)
    requires IdentitiesDistinct(rs)
    ensures NoDuplicates(Included(rs)) && |Included(rs)| <= |rs|
    ensures forall x :: x in Included(rs) <==> exists r :: r in rs && r.disposition.Include? && r.identity == x
  {
    if rs != [] {
      IncludedSelection(rs[1..]);
      var rest := Included(rs[1..]);
      forall r | r in rs[1..] ensures r.identity != rs[0].identity {
        var k :| 0 <= k < |rs[1..]| && rs[1..][k] == r;
        assert rs[k + 1] == r;
      }
      assert rs[0].identity !in rest;
      forall x ensures x in Included(rs) <==> exists r :: r in rs && r.disposition.Include? && r.identity == x {
        if rs[0].disposition.Include? && x == rs[0].identity { assert rs[0] in rs; }
        if x in rest {
          var r :| r in rs[1..] && r.disposition.Include? && r.identity == x;
          assert r in rs;
        }
      }
    }
  }

  ghost predicate FromManifest(r: Resource, serverId: Text) { exists o :: ManifestResource(o, serverId) == Some(r) }

  /** What createBackupPlan guarantees of the preview it returns. */
  ghost predicate Ready(p: Preview) {
    && p.version == 1 && !p.sideEffects && p.confirmation == (p.serverId, p.previewDigest) && !p.mode.OtherMode?
    && 1 <= |p.selected| <= MAX_STEPS && Increasing(p.selected)
    && IdentitiesDistinct(p.resources) && |p.resources| <= MAX_STEPS
    && (forall x | x in p.selected :: Selectable(p.resources, x))
    && (forall r | r in p.resources :: FromManifest(r, p.serverId))
  }

  lemma SelectionSorted(rs: seq<Resource>, requested: Option<seq<Text>>, first: seq<Text>)
    requires IdentitiesDistinct(rs) && |rs| <= MAX_STEPS
    requires requested.Some? ==> NoDuplicates(requested.value) && |requested.value| <= MAX_STEPS
    requires first == if requested.Some? then Sort(requested.value) else Included(rs)
    ensures Increasing(Sort(first)) && |Sort(first)| == |first| <= MAX_STEPS
    ensures forall x :: x in Sort(first) <==> x in first
    ensures forall x ::
        x in first <==> if requested.Some? then x in requested.value else exists r ::
        r in rs && r.disposition.Include? && r.identity == x
  {
    IncludedSelection(rs);
    if requested.Some? {
      SortSorts(requested.value);
      IncreasingDistinct(first);
      forall x ensures x in first <==> x in requested.value {
        assert x in multiset(first) <==> x in multiset(requested.value);
      }
    }
    SortSorts(first);
    forall x ensures x in Sort(first) <==> x in first { assert x in multiset(Sort(first)) <==> x in multiset(first); }
  }

  lemma {:induction false} FindDistinct(rs: seq<Resource>, r: Resource)
    requires IdentitiesDistinct(rs) && r in rs
    ensures FindResource(rs, r.identity) == Some(r)
  {
    if rs[0] != r { FindDistinct(rs[1..], r); }
  }

  /** The identities a caller asks for, or by default those of every resource the policy includes. */
  ghost predicate Chosen(p: Preview, requested: Option<seq<Text>>) {
    forall x ::
        x in p.selected <==> if requested.Some? then x in requested.value else exists r ::
        r in p.resources && r.disposition.Include? && r.identity == x
  }

  lemma PreviewReady(serverId: Text, all: seq<Resource>, graph: Option<D.Graph>, requested: Option<seq<Text>>)
    requires BackupPreview(serverId, all, graph, requested).Ok?
    requires forall r | r in all :: FromManifest(r, serverId)
    ensures var p := BackupPreview(serverId, all, graph, requested).value;
        Ready(p) && p.serverId == serverId && Chosen(p, requested)
  {
    var p := BackupPreview(serverId, all, graph, requested).value;
    SortResourcesElements(all);
    var first := if requested.Some? then Sort(requested.value) else Included(p.resources);
    SelectionSorted(p.resources, requested, first);
    forall x | x in p.selected ensures Selectable(p.resources, x) {
      if requested.Some? {
        var i :| 0 <= i < |first| && first[i] == x;
      } else {
        var r :| r in p.resources && r.disposition.Include? && r.identity == x;
        FindDistinct(p.resources, r);
      }
    }
  }

  /** The selection of a preview: the requested identities, or by default every resource the policy includes. */
  lemma SelectionReady(serverId: Text, raw: seq<Resource>, graph: Option<D.Graph>, requested: Option<seq<Text>>)
    requires CreateBackupPlan(serverId, raw, graph, requested).Ok?
    ensures var p := CreateBackupPlan(serverId, raw, graph, requested).value;
        Ready(p) && p.serverId == serverId && Chosen(p, requested)
  {
    var normal := Normalized(raw, serverId);
    forall r | r in normal ensures FromManifest(r, serverId) {
      var k :| 0 <= k < |normal| && normal[k] == r;
      assert ManifestResource(raw[k], serverId) == Some(r);
    }
    PreviewReady(serverId, normal, graph, requested);
  }

  predicate LowerCase(t: Text) { Lower(t) == t }

  predicate LowerCaseOption(t: Option<Text>) { t.Some? ==> LowerCase(t.value) }

  /** Ids and hashes in lower case, times as toISOString spells them. */
  predicate Canonical(r: Resource) {
    LowerCase(r.serverId) && match r.input
      case ApplicationInput(id, _, _, _, release, commit, environment) =>
        LowerCase(id) && LowerCaseOption(release) && LowerCaseOption(commit)
        && LowerCaseOption(environment.appliedReleaseId)
      case DatabaseInput(_, _, _, _, job, refreshed) => LowerCase(job) && (refreshed.Stamp? ==> refreshed.iso)
      case DockerInput(_, _, _, _) => true
      case MailInput(domain, _, resource, _, _, _, _) => LowerCase(domain) && LowerCase(resource)
  }

  /** Normalising changes nothing but the spelling of ids and times, and settles it. */
  lemma ManifestSpells(o: Resource, serverId: Text)
    requires ManifestResource(o, serverId).Some?
    ensures Canonical(o) ==> ManifestResource(o, serverId) == Some(o)
    ensures ManifestResource(ManifestResource(o, serverId).value, serverId) == ManifestResource(o, serverId)
  {
    LowerIdempotent(serverId);
    match o.input
    case ApplicationInput(id, _, _, _, release, commit, environment) =>
      LowerIdempotent(id);
      if release.Some? { LowerIdempotent(release.value); LowerIdempotent(commit.value); }
      if environment.appliedReleaseId.Some? { LowerIdempotent(environment.appliedReleaseId.value); }
    case DatabaseInput(_, _, _, _, job, _) => LowerIdempotent(job);
    case DockerInput(_, _, _, _) =>
    case MailInput(domain, _, resource, _, _, _, _) => LowerIdempotent(domain); LowerIdempotent(resource);
  }

  /**
   The preview lists every resource it was given, normalised, and no other; explicit exactly when
   one was asked for.
   */
  lemma PreviewListsAll(serverId: Text, raw: seq<Resource>, graph: Option<D.Graph>, requested: Option<seq<Text>>)
    requires CreateBackupPlan(serverId, raw, graph, requested).Ok?
    ensures var p := CreateBackupPlan(serverId, raw, graph, requested).value;
      && |p.resources| == |raw| && (p.mode.Explicit? <==> requested.Some?)
      && (forall i | 0 <= i < |raw| :: ManifestResource(raw[i], serverId).Some?)
      && (forall i | 0 <= i < |raw| :: ManifestResource(raw[i], serverId).value in p.resources)
      && (forall r | r in p.resources :: exists i :: 0 <= i < |raw| && ManifestResource(raw[i], serverId) == Some(r))
  {
    var p := CreateBackupPlan(serverId, raw, graph, requested).value;
    var normal := Normalized(raw, serverId);
    SortResourcesElements(normal);
    forall r | r in p.resources ensures exists i :: 0 <= i < |raw| && ManifestResource(raw[i], serverId) == Some(r) {
      var k :| 0 <= k < |normal| && normal[k] == r;
      assert ManifestResource(raw[k], serverId) == Some(r);
    }
    forall i | 0 <= i < |raw| ensures ManifestResource(raw[i], serverId).value in p.resources {
      assert normal[i] in normal;
    }
  }

  // ---- one step --------------------------------------------------------------

  /** What an included resource needs beyond its own normaliser to become a step. */
  predicate Executable(r: Resource) {
    match r.input
    case DockerInput(project, revision, _, _) => IsUuid(project) && IsSafe(revision)
    case MailInput(domain, scope, resource, _, _, _, _) => scope.DomainScope? && resource == domain
    case _ => true
  }

  /** The step's input is accepted exactly when the resource is executable, and is already in its persisted form. */
  lemma InputReady(o: Resource, r: Resource, serverId: Text)
    requires ManifestResource(o, serverId) == Some(r) && r.disposition.Include?
    ensures ExecutionInput(r).Some? <==> Executable(r)
    ensures Executable(r) ==> NormalizeInput(r.kind, ExecutionInput(r).value) == ExecutionInput(r)
    ensures IsUuid(serverId) && Lower(serverId) == serverId ==> r.serverId == serverId
  {
    match o.input
    case ApplicationInput(id, _, _, _, release, commit, environment) =>
      LowerIdempotent(id);
      if release.Some? { LowerIdempotent(release.value); LowerIdempotent(commit.value); }
      if environment.appliedReleaseId.Some? { LowerIdempotent(environment.appliedReleaseId.value); }
    case DatabaseInput(_, _, _, _, job, _) => LowerIdempotent(job);
    case DockerInput(project, _, _, _) => LowerIdempotent(project);
    case MailInput(domain, _, resource, _, _, _, _) => LowerIdempotent(domain); LowerIdempotent(resource);
  }

  lemma StepReady(rs: seq<Resource>, serverId: Text, preview: Digest, identity: Text)
    requires BuildStep(rs, serverId, preview, identity).Ok?
    requires forall r | r in rs :: FromManifest(r, serverId)
    ensures var s := BuildStep(rs, serverId, preview, identity).value;
      && NormalizeStep(s, serverId, preview) == Some(s) && s.core.identity == identity
      && s.stepId == StepName(StepDigest(serverId, preview, s.core))
  {
    var r := FindResource(rs, identity).value;
    var o :| ManifestResource(o, serverId) == Some(r);
    InputReady(o, r, serverId);
  }

  // ---- the round trip --------------------------------------------------------

  /** When a preview can be executed: a canonical server id and executable selected resources. */
  predicate ExecutablePreview(p: Preview) {
    && IsUuid(p.serverId) && Lower(p.serverId) == p.serverId
    && forall x | x in p.selected ::
        FindResource(p.resources, x).Some? && Executable(FindResource(p.resources, x).value)
  }

  lemma Orderly(steps: seq<Step>, selected: seq<Text>, serverId: Text, preview: Digest)
    requires |steps| == |selected| && Increasing(selected)
    requires forall i | 0 <= i < |steps| :: steps[i].core.identity == selected[i]
    requires forall i | 0 <= i < |steps| :: steps[i].stepId == StepName(StepDigest(serverId, preview, steps[i].core))
    ensures Ordered(steps)
  {
    IncreasingDistinct(selected);
    forall i, j | 0 <= i < j < |steps| ensures steps[i].stepId != steps[j].stepId {
      assert selected[i] != selected[j];
    }
  }

  lemma StepsReady(p: Preview)
    requires Ready(p) && IsUuid(p.serverId) && Lower(p.serverId) == p.serverId
    ensures var steps := BuildSteps(p.resources, p.serverId, p.previewDigest, p.selected);
      && (steps.Ok? <==> ExecutablePreview(p))
      && (steps.Ok? ==>
          Ordered(steps.value) && NormalizeSteps(steps.value, p.serverId, p.previewDigest) == Some(steps.value))
      && (steps.Ok? ==> forall i | 0 <= i < |p.selected| :: steps.value[i].core.identity == p.selected[i])
  {
    forall x | x in p.selected
      ensures BuildStep(p.resources, p.serverId, p.previewDigest, x).Ok? <==>
          Executable(FindResource(p.resources, x).value)
    {
      var r := FindResource(p.resources, x).value;
      var o :| ManifestResource(o, p.serverId) == Some(r);
      InputReady(o, r, p.serverId);
    }
    var steps := BuildSteps(p.resources, p.serverId, p.previewDigest, p.selected);
    if steps.Ok? {
      forall i | 0 <= i < |p.selected|
        ensures Executable(FindResource(p.resources, p.selected[i]).value)
        ensures NormalizeStep(steps.value[i], p.serverId, p.previewDigest) == Some(steps.value[i])
        ensures steps.value[i].core.identity == p.selected[i]
        ensures steps.value[i].stepId == StepName(StepDigest(p.serverId, p.previewDigest, steps.value[i].core))
      {
        assert BuildStep(p.resources, p.serverId, p.previewDigest, p.selected[i]) == Ok(steps.value[i]);
        StepReady(p.resources, p.serverId, p.previewDigest, p.selected[i]);
      }
      StepsFixed(steps.value, p.serverId, p.previewDigest);
      Orderly(steps.value, p.selected, p.serverId, p.previewDigest);
    } else {
      var i :| 0 <= i < |p.selected| && BuildStep(p.resources, p.serverId, p.previewDigest, p.selected[i]).Err?;
      assert p.selected[i] in p.selected;
    }
  }

  lemma ReadyRoundTrip(p: Preview)
    requires Ready(p)
    ensures var plan := ExecutionPlan(p, p.previewDigest, p.confirmation);
      && (plan.Ok? <==> ExecutablePreview(p))
      && (plan.Ok? ==> NormalizePlan(plan.value) == Some(plan.value))
      && (plan.Ok? ==> |plan.value.steps| == |p.selected| && forall i | 0 <= i < |p.selected| ::
          plan.value.steps[i].core.identity == p.selected[i])
  {
    IncreasingDistinct(p.selected);
    SortKeepsSorted(p.selected);
    if IsUuid(p.serverId) && Lower(p.serverId) == p.serverId { StepsReady(p); }
  }

  /**
   Producer and consumer agree: a preview the current plan was built from turns into an
   execution plan exactly when it is executable, and reading that plan back leaves it unchanged.
   */
  lemma PipelineRoundTrip(serverId: Text, raw: seq<Resource>, graph: Option<D.Graph>, requested: Option<seq<Text>>)
    requires CreateBackupPlan(serverId, raw, graph, requested).Ok?
    ensures var p := CreateBackupPlan(serverId, raw, graph, requested).value;
      var plan := ExecutionPlan(p, p.previewDigest, p.confirmation);
      && (plan.Ok? <==> ExecutablePreview(p))
      && (plan.Ok? ==> NormalizePlan(plan.value) == Some(plan.value))
      && (plan.Ok? ==> |plan.value.steps| == |p.selected| && forall i | 0 <= i < |p.selected| ::
          plan.value.steps[i].core.identity == p.selected[i])
  {
    SelectionReady(serverId, raw, graph, requested);
    ReadyRoundTrip(CreateBackupPlan(serverId, raw, graph, requested).value);
  }

  // ---- what the steps hand over ----------------------------------------------

  /** The executor that takes a resource of each type. */
  predicate TakenBy(k: Kind, e: Executor) {
    && (e.ApplicationSnapshot? <==> k.ApplicationKind?) && (e.DatabaseBackup? <==> k.DatabaseKind?)
    && (e.DockerStorageBackup? <==> k.DockerKind?) && (e.MailDataBackup? <==> k.MailKind?)
  }

  /** The input is the resource's own, with a Docker project's id put in lower case. */
  predicate Carries(i: Input, own: Input) {
    if own.DockerInput? then
      && i.DockerInput? && i.projectId == Lower(own.projectId) && i.projectRevision == own.projectRevision
      && i.serviceName == own.serviceName && i.storage == own.storage
    else i == own
  }

  lemma InputCarries(o: Resource, r: Resource, serverId: Text)
    requires ManifestResource(o, serverId) == Some(r) && ExecutionInput(r).Some?
    ensures Carries(ExecutionInput(r).value, r.input)
  {
    match o.input
    case ApplicationInput(id, _, _, _, _, _, _) => LowerIdempotent(id);
    case DatabaseInput(_, _, _, _, job, _) => LowerIdempotent(job);
    case DockerInput(_, _, _, _) =>
    case MailInput(domain, _, _, _, _, _, _) => LowerIdempotent(domain);
  }

  /** The step is about this resource and no other. */
  predicate StepOf(c: Core, r: Resource) {
    c.identity == r.identity && c.kind == r.kind && TakenBy(r.kind, c.executor) && Carries(c.input, r.input)
  }

  lemma StepCarries(p: Preview, identity: Text)
    requires Ready(p) && BuildStep(p.resources, p.serverId, p.previewDigest, identity).Ok?
    ensures var s := BuildStep(p.resources, p.serverId, p.previewDigest, identity).value;
      exists r :: r in p.resources && r.identity == identity && StepOf(s.core, r)
  {
    var r := FindResource(p.resources, identity).value;
    var o :| ManifestResource(o, p.serverId) == Some(r);
    InputCarries(o, r, p.serverId);
    assert StepOf(BuildStep(p.resources, p.serverId, p.previewDigest, identity).value.core, r);
  }

  /** The plan has one step for each selected resource, in order, with that resource's own input for its executor. */
  lemma StepsCarryResources(p: Preview)
    requires Ready(p) && ExecutionPlan(p, p.previewDigest, p.confirmation).Ok?
    ensures var plan := ExecutionPlan(p, p.previewDigest, p.confirmation).value;
      && plan.serverId == p.serverId && plan.previewDigest == p.previewDigest && plan.mode == p.mode
      && |plan.steps| == |p.selected| && forall i | 0 <= i < |p.selected| ::
          exists r :: r in p.resources && r.identity == p.selected[i] && StepOf(plan.steps[i].core, r)
  {
    ReadyRoundTrip(p);
    SortKeepsSorted(p.selected);
    var plan := ExecutionPlan(p, p.previewDigest, p.confirmation).value;
    forall i | 0 <= i < |p.selected|
      ensures exists r :: r in p.resources && r.identity == p.selected[i] && StepOf(plan.steps[i].core, r)
    {
      assert BuildStep(p.resources, p.serverId, p.previewDigest, p.selected[i]) == Ok(plan.steps[i]);
      StepCarries(p, p.selected[i]);
    }
  }

  /** A preview whose digest is over its own content. */
  predicate Built(p: Preview) {
    && p.previewDigest.PreviewDigest?
    && p.previewDigest == PreviewDigest(p.serverId, p.mode, p.selected, p.resources, p.previewDigest.graph)
  }

  /** A preview that createBackupPlan returned. */
  ghost predicate FromPlan(p: Preview) {
    exists serverId, raw, graph, requested :: CreateBackupPlan(serverId, raw, graph, requested) == Ok(p)
  }

  lemma PreviewsAreBuilt(p: Preview)
    requires FromPlan(p)
    ensures Built(p)
  {
  }

  function Executed(p: Preview): Result<Plan, Error> { ExecutionPlan(p, p.previewDigest, p.confirmation) }

  /** Two plans that share one step are one plan: a step id, and the keys derived from it, name one execution. */
  lemma StepNamesOnePlan(p: Preview, q: Preview, i: nat, j: nat)
    requires FromPlan(p) && FromPlan(q) && Executed(p).Ok? && Executed(q).Ok?
    requires i < |Executed(p).value.steps| && j < |Executed(q).value.steps|
    requires Executed(p).value.steps[i].stepId == Executed(q).value.steps[j].stepId
    ensures Executed(p) == Executed(q) && i == j
  {
    PreviewsAreBuilt(p);
    PreviewsAreBuilt(q);
    var a, b := Executed(p).value, Executed(q).value;
    SortSorts(p.selected);
    SortSorts(q.selected);
    assert BuildStep(p.resources, Lower(p.serverId), p.previewDigest, Sort(p.selected)[i]) == Ok(a.steps[i]);
    assert BuildStep(q.resources, Lower(q.serverId), q.previewDigest, Sort(q.selected)[j]) == Ok(b.steps[j]);
    assert Sort(p.selected)[i] == Sort(q.selected)[j];
    IncreasingDistinct(Sort(p.selected));
  }

  /**
   A caller of createBackupPlan that brings no dependency graph can get a default preview that cannot
   be executed: a mailbox resource is included by policy, hence selected unless the caller names
   others, and the whole execution is then refused.  BackupPipeline.MailboxRefused says that the
   provider, which always builds the graph, never gets that far.
   */
  lemma MailboxBlocksDefault(serverId: Text, raw: seq<Resource>, graph: Option<D.Graph>, r: Resource)
    requires CreateBackupPlan(serverId, raw, graph, None).Ok?
    requires r in CreateBackupPlan(serverId, raw, graph, None).value.resources
    requires r.disposition.Include? && r.input.MailInput? && r.input.scope.MailboxScope?
    ensures var p := CreateBackupPlan(serverId, raw, graph, None).value;
      ExecutionPlan(p, p.previewDigest, p.confirmation).Err?
  {
    var p := CreateBackupPlan(serverId, raw, graph, None).value;
    SelectionReady(serverId, raw, graph, None);
    FindDistinct(p.resources, r);
    assert r.identity in p.selected;
    PipelineRoundTrip(serverId, raw, graph, None);
  }

  /** A well-formed id: ones, with the hyphens and the variant digit where they belong. */
  const ID: Text := seq(36, i requires 0 <= i < 36 =>
                        if i == 8 || i == 13 || i == 18 || i == 23 then '-' else if i == 19 then '8' else '1')
  const MAILBOX := Resource("a", MailKind, ID, Include, MailInput(ID, MailboxScope, ID, "a", 1, 0, 0), true)

  lemma OneResource(r: Resource, serverId: Text)
    requires ManifestResource(r, serverId) == Some(r) && r.disposition.Include?
    ensures CreateBackupPlan(serverId, [r], None, None).Ok?
    ensures CreateBackupPlan(serverId, [r], None, None).value.resources == [r]
  {
    var raw := [r];
    assert Normalized(raw, serverId) == raw;
    assert SortResources(raw) == raw by { assert raw[1..] == []; assert SortResources(raw[1..]) == []; }
    assert Included(raw) == [r.identity] by { assert raw[1..] == []; assert Included(raw[1..]) == []; }
  }

  lemma ExampleIsNormal()
    ensures ManifestResource(MAILBOX, ID) == Some(MAILBOX)
  {
    assert Lower(ID) == ID;
    assert IsUuid(ID);
  }

  /** Without a graph one mailbox with mail is enough. */
  lemma MailboxExample()
    ensures var p := CreateBackupPlan(ID, [MAILBOX], None, None);
      p.Ok? && ExecutionPlan(p.value, p.value.previewDigest, p.value.confirmation).Err?
  {
    ExampleIsNormal();
    OneResource(MAILBOX, ID);
    MailboxBlocksDefault(ID, [MAILBOX], None, MAILBOX);
  }
}
