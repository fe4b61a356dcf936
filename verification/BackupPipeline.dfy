/** The four stages as backup-resource-provider.js composes them: manifest, dependency graph, plan, execution plan. */
module BackupPipeline {
  import opened Common
  import opened Texts
  import opened Ordering
  import opened BackupPlan
  import opened BackupPlanTheorems
  import D = DependencyGraph
  import G = DependencyGraphTheorems

  datatype PipelineError = GraphRefused(cause: D.Error) | PlanRefused(error: Error)

  /** Applications and Docker storage come out of the base manifest already normalised. */
  predicate FromBase(r: Resource) { r.input.ApplicationInput? || r.input.DockerInput? }

  function Given(r: Resource, serverId: Text): Option<Resource> {
    if FromBase(r) then ManifestResource(r, serverId) else Some(r)
  }

  predicate BaseOk(raw: seq<Resource>, serverId: Text) { forall i | 0 <= i < |raw| :: Given(raw[i], serverId).Some? }

  function Base(raw: seq<Resource>, serverId: Text): (rs: seq<Resource>)
    requires BaseOk(raw, serverId)
    ensures |rs| == |raw| && forall i | 0 <= i < |raw| :: Given(raw[i], serverId) == Some(rs[i])
  {
    seq(|raw|, i requires 0 <= i < |raw| => Given(raw[i], serverId).value)
  }

  function GraphResources(rs: seq<Resource>): (g: seq<D.Resource>)
    ensures |g| == |rs| && forall i | 0 <= i < |rs| :: g[i] == GraphResource(rs[i])
  {
    seq(|rs|, i requires 0 <= i < |rs| => GraphResource(rs[i]))
  }

  /** `around` holds the websites, domains, bindings and mail domains that were listed. */
  function ProducedGraph(serverId: Text, rs: seq<Resource>, around: D.Inventory): Result<D.Graph, D.Error> {
    D.DependencyGraphOf(serverId, around.(resources := GraphResources(rs)))
  }

  /** The provider's preview. */
  function Preview(serverId: Text, raw: seq<Resource>, around: D.Inventory,
                   requested: Option<seq<Text>>): Result<BackupPlan.Preview, PipelineError> {
    if !BaseOk(raw, serverId) then Err(PlanRefused(Invalid))
    else
      var graph := ProducedGraph(serverId, Base(raw, serverId), around);
      if graph.Err? then Err(GraphRefused(graph.error))
      else
        var plan := CreateBackupPlan(serverId, Base(raw, serverId), Some(graph.value), requested);
        if plan.Err? then Err(PlanRefused(plan.error)) else Ok(plan.value)
  }

  // ---- the plan accepts the graph made for its resources ---------------------

  /** Normalising keeps identity and type, so the graph's resources are the plan's. */
  lemma NormalKeepsEntry(r: Resource, n: Resource, serverId: Text)
    requires ManifestResource(r, serverId) == Some(n)
    ensures D.EntryOf(GraphResource(n)) == D.EntryOf(GraphResource(r))
  {
  }

  lemma EntryCovered(rs: seq<Resource>, sorted: seq<Resource>, serverId: Text, i: nat)
    requires forall i | 0 <= i < |rs| :: ManifestResource(rs[i], serverId).Some?
    requires i < |rs| && forall x :: x in sorted <==> x in Normalized(rs, serverId)
    ensures D.EntryOf(GraphResource(rs[i])) in Entries(sorted)
  {
    var n := Normalized(rs, serverId)[i];
    NormalKeepsEntry(rs[i], n, serverId);
    assert n in sorted;
    var k :| 0 <= k < |sorted| && sorted[k] == n;
    assert Entries(sorted)[k] == D.EntryOf(GraphResource(n));
  }

  lemma EntriesDistinct(rs: seq<Resource>)
    requires IdentitiesDistinct(rs)
    ensures KeysDistinct(D.EntryIdentity, Entries(rs))
  {
    forall i, j | 0 <= i < j < |rs| ensures D.EntryIdentity(Entries(rs)[i]) != D.EntryIdentity(Entries(rs)[j]) {
      assert Entries(rs)[i].identity == rs[i].identity && Entries(rs)[j].identity == rs[j].identity;
    }
  }

  lemma EntriesCover(rs: seq<Resource>, sorted: seq<Resource>, serverId: Text)
    requires forall i | 0 <= i < |rs| :: ManifestResource(rs[i], serverId).Some?
    requires sorted == SortResources(Normalized(rs, serverId)) && IdentitiesDistinct(sorted)
    ensures G.Covers(Entries(sorted), GraphResources(rs))
  {
    SortResourcesElements(Normalized(rs, serverId));
    EntriesDistinct(sorted);
    forall r | r in GraphResources(rs) ensures D.EntryOf(r) in Entries(sorted) {
      var i :| 0 <= i < |rs| && GraphResources(rs)[i] == r;
      EntryCovered(rs, sorted, serverId, i);
    }
  }

  /**
   A graph produced for a server with a canonical id is never what createBackupPlan refuses; with
   any other id it always is.
   */
  lemma ProducedGraphAccepted(serverId: Text, rs: seq<Resource>, around: D.Inventory, sorted: seq<Resource>)
    requires forall i | 0 <= i < |rs| :: ManifestResource(rs[i], serverId).Some?
    requires sorted == SortResources(Normalized(rs, serverId)) && IdentitiesDistinct(sorted)
    requires ProducedGraph(serverId, rs, around).Ok?
    ensures var graph := ProducedGraph(serverId, rs, around).value;
      ReadGraph(Some(graph), sorted, serverId) == if Lower(serverId) == serverId then Ok(Some(graph))
      else Err(DependenciesInvalid)
  {
    EntriesCover(rs, sorted, serverId);
    if Lower(serverId) == serverId {
      G.GraphAccepted(serverId, around.(resources := GraphResources(rs)), Entries(sorted));
    }
  }

  // ---- what a produced graph has already checked -----------------------------

  lemma {:induction false} ImpactsOk(rs: seq<D.Resource>, v: D.Inventory, r: D.Resource)
    requires D.Impacts(rs, v).Ok? && r in rs
    ensures D.ImpactOf(r, v).Ok?
  {
    G.ImpactsPointwise(rs, v);
    var i :| 0 <= i < |rs| && rs[i] == r;
  }

  /** A graph comes with an impact for each of its resources. */
  lemma EachHasImpact(serverId: Text, raw: D.Inventory, r: D.Resource) returns (v: D.Inventory)
    requires D.DependencyGraphOf(serverId, raw).Ok? && r in raw.resources
    ensures IsUuid(serverId) && D.TouchedBy(r.subject, v).Some?
  {
    v := D.Prepare(Lower(serverId), raw).value;
    G.PreparedResources(Lower(serverId), raw);
    SortBySorts(D.Identity, raw.resources);
    assert r in multiset(raw.resources);
    assert r in multiset(v.resources);
    ImpactsOk(v.resources, v, r);
  }

  /** The graph is only produced when every mail resource covers its whole mail domain. */
  lemma GraphChecksMail(serverId: Text, rs: seq<Resource>, around: D.Inventory, r: Resource)
    requires ProducedGraph(serverId, rs, around).Ok? && r in rs && r.input.MailInput?
    ensures r.input.scope.DomainScope? && r.input.resourceId == r.input.mailDomainId && IsUuid(serverId)
  {
    var i :| 0 <= i < |rs| && rs[i] == r;
    assert GraphResources(rs)[i] == GraphResource(r);
    var v := EachHasImpact(serverId, around.(resources := GraphResources(rs)), GraphResource(r));
  }

  /** A mailbox on its own never gets through the provider, whether or not it is selected. */
  lemma MailboxRefused(serverId: Text, raw: seq<Resource>, around: D.Inventory, requested: Option<seq<Text>>,
                       r: Resource)
    requires r in raw && r.input.MailInput? && r.input.scope.MailboxScope?
    ensures Preview(serverId, raw, around, requested).Err?
  {
    if BaseOk(raw, serverId) && ProducedGraph(serverId, Base(raw, serverId), around).Ok? {
      var i :| 0 <= i < |raw| && raw[i] == r;
      assert Base(raw, serverId)[i] == r;
      GraphChecksMail(serverId, Base(raw, serverId), around, r);
    }
  }

  // ---- the four stages together ----------------------------------------------

  /** What is left for the execution plan to refuse: a Docker project without a UUID or with an unsafe revision. */
  predicate DockerReady(r: Resource) {
    r.input.DockerInput? ==> IsUuid(r.input.projectId) && IsSafe(r.input.projectRevision)
  }

  /** Every resource of a preview is the normal form of one the graph was made for. */
  lemma PreviewOrigin(serverId: Text, rs: seq<Resource>, graph: Option<D.Graph>, requested: Option<seq<Text>>,
                      n: Resource) returns (r: Resource)
    requires CreateBackupPlan(serverId, rs, graph, requested).Ok?
    requires n in CreateBackupPlan(serverId, rs, graph, requested).value.resources
    ensures r in rs && ManifestResource(r, serverId) == Some(n)
  {
    SortResourcesElements(Normalized(rs, serverId));
    var i :| 0 <= i < |rs| && Normalized(rs, serverId)[i] == n;
    r := rs[i];
  }

  lemma ResourceExecutable(serverId: Text, rs: seq<Resource>, around: D.Inventory, r: Resource, n: Resource)
    requires ProducedGraph(serverId, rs, around).Ok? && r in rs && ManifestResource(r, serverId) == Some(n)
    ensures Executable(n) <==> DockerReady(n)
  {
    if r.input.MailInput? { GraphChecksMail(serverId, rs, around, r); }
  }

  /** The provider's preview is createBackupPlan's, with the produced graph in its digest. */
  lemma PreviewCarriesGraph(serverId: Text, raw: seq<Resource>, around: D.Inventory, requested: Option<seq<Text>>)
    requires Preview(serverId, raw, around, requested).Ok?
    ensures var p, graph := Preview(serverId, raw, around, requested).value,
        ProducedGraph(serverId, Base(raw, serverId), around);
      && graph.Ok? && CreateBackupPlan(serverId, Base(raw, serverId), Some(graph.value), requested) == Ok(p)
      && IsUuid(serverId) && Lower(serverId) == serverId
      && p.previewDigest == PreviewDigest(serverId, p.mode, p.selected, p.resources, Some(graph.value))
  {
    var rs := Base(raw, serverId);
    ProducedGraphAccepted(serverId, rs, around, SortResources(Normalized(rs, serverId)));
  }

  /** Of a selected resource: the execution plan takes it exactly when it is ready. */
  lemma SelectedExecutable(serverId: Text, rs: seq<Resource>, around: D.Inventory, requested: Option<seq<Text>>,
                           x: Text)
    requires ProducedGraph(serverId, rs, around).Ok?
    requires CreateBackupPlan(serverId, rs, Some(ProducedGraph(serverId, rs, around).value), requested).Ok?
    requires x in CreateBackupPlan(serverId, rs, Some(ProducedGraph(serverId, rs, around).value),
                                   requested).value.selected
    ensures var n := FindResource(CreateBackupPlan(serverId, rs, Some(ProducedGraph(serverId, rs, around).value),
                                                   requested).value.resources, x);
      n.Some? && (Executable(n.value) <==> DockerReady(n.value))
  {
    var graph := Some(ProducedGraph(serverId, rs, around).value);
    SelectionReady(serverId, rs, graph, requested);
    var n := FindResource(CreateBackupPlan(serverId, rs, graph, requested).value.resources, x).value;
    var r := PreviewOrigin(serverId, rs, graph, requested, n);
    ResourceExecutable(serverId, rs, around, r, n);
  }

  /**
   The pipeline's round trip.  A preview of the provider turns into an execution plan exactly when its
   selected Docker projects have UUIDs and safe revisions, and reading that plan back leaves it
   unchanged, with one step for each selected identity in order.
   */
  lemma PreviewRoundTrip(serverId: Text, raw: seq<Resource>, around: D.Inventory, requested: Option<seq<Text>>)
    requires Preview(serverId, raw, around, requested).Ok?
    ensures var p := Preview(serverId, raw, around, requested).value;
      var plan := Executed(p);
      && (plan.Ok? <==> forall x | x in p.selected ::
          FindResource(p.resources, x).Some? && DockerReady(FindResource(p.resources, x).value))
      && (plan.Ok? ==> NormalizePlan(plan.value) == Some(plan.value))
      && (plan.Ok? ==> |plan.value.steps| == |p.selected| && forall i | 0 <= i < |p.selected| ::
          plan.value.steps[i].core.identity == p.selected[i])
  {
    PreviewCarriesGraph(serverId, raw, around, requested);
    var rs := Base(raw, serverId);
    var graph := ProducedGraph(serverId, rs, around).value;
    var p := Preview(serverId, raw, around, requested).value;
    SelectionReady(serverId, rs, Some(graph), requested);
    PipelineRoundTrip(serverId, rs, Some(graph), requested);
    forall x | x in p.selected
      ensures FindResource(p.resources, x).Some?
      ensures Executable(FindResource(p.resources, x).value) <==> DockerReady(FindResource(p.resources, x).value)
    {
      SelectedExecutable(serverId, rs, around, requested, x);
    }
  }
}
