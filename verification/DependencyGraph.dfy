/** createBackupDependencyGraph: which websites and domains each backup resource affects. */
module DependencyGraph {
  import opened Common
  import opened Texts
  import opened Ordering

  const MAX_ITEMS := 8192

  // ---- inventories -----------------------------------------------------------

  datatype Website = Website(id: Text, serverId: Text, revision: int, applicationId: Option<Text>,
                             projectId: Option<Text>)
  datatype Domain = Domain(id: Text, serverId: Text, websiteId: Option<Text>, desiredRevision: int,
                           appliedRevision: int)
  datatype Binding = Binding(id: Text, serverId: Text, revision: int, databaseName: Text, websiteId: Text,
                             applicationId: Text)
  datatype MailDomain = MailDomain(id: Text, local: bool, revision: int, webDomainId: Option<Text>)

  datatype Subject =
    | ApplicationSubject(applicationId: Text)
    | DatabaseSubject(databaseName: Text)
    | StorageSubject(projectId: Text)
    | MailSubject(mailDomainId: Text, domainScope: bool, resourceId: Text)

  datatype Resource = Resource(identity: Text, serverId: Text, subject: Subject)

  datatype Inventory = Inventory(resources: seq<Resource>, websites: seq<Website>, domains: seq<Domain>,
                                 bindings: seq<Binding>, mailDomains: seq<MailDomain>)

  // ---- the graph -------------------------------------------------------------

  datatype RefKind = BindingRef | DomainRef | MailDomainRef | WebsiteRef
  datatype Reference = Reference(kind: RefKind, id: Text, revision: int, applied: Option<int>)

  datatype Kind = ApplicationKind | DatabaseKind | StorageKind | MailKind
  datatype Impact = Impact(resourceIdentity: Text, kind: Kind, websiteIds: seq<Text>, domainIds: seq<Text>,
                           references: seq<Reference>)
  datatype Counts = Counts(resources: nat, associated: nat, websites: nat, domains: nat)
  datatype Graph = Graph(serverId: Text, impacts: seq<Impact>, counts: Counts)

  datatype Error =
    | StateInvalid | ResourceDuplicate | WebsiteDuplicate | ApplicationMissing | DomainDuplicate | WebsiteMissing
    | BindingDuplicate | BindingStale | DatabaseMissing | MailDomainDuplicate | MailDomainStale | MailResourceMissing
    | MailResourceStale | ReferenceDuplicate

  function WebsiteId(w: Website): Text { w.id }
  function DomainId(d: Domain): Text { d.id }
  function BindingId(b: Binding): Text { b.id }
  function MailDomainId(m: MailDomain): Text { m.id }
  function Identity(r: Resource): Text { r.identity }
  function ImpactIdentity(i: Impact): Text { i.resourceIdentity }

  function KindName(k: RefKind): Text {
    match k
    case BindingRef => "database_binding"
    case DomainRef => "domain"
    case MailDomainRef => "mail_domain"
    case WebsiteRef => "website"
  }

  /** `type:id`, by which references are sorted and must be distinct. */
  function RefKey(r: Reference): Text { KindName(r.kind) + ":" + r.id }

  function KindOf(s: Subject): Kind {
    match s
    case ApplicationSubject(_) => ApplicationKind
    case DatabaseSubject(_) => DatabaseKind
    case StorageSubject(_) => StorageKind
    case MailSubject(_, _, _) => MailKind
  }

  // ---- reading the inventories -----------------------------------------------

  predicate RevisionOk(n: int, least: int) { IsSafe(n) && n >= least }

  function LowerId(id: Option<Text>): Option<Text> { if id.Some? then Some(Lower(id.value)) else None }

  predicate IdOk(id: Option<Text>) { id.Some? ==> IsUuid(id.value) }

  function ReadWebsite(w: Website): Option<Website> {
    if IsUuid(w.id) && RevisionOk(w.revision, 1) && IdOk(w.applicationId) && IdOk(w.projectId)
    then Some(w.(id := Lower(w.id), applicationId := LowerId(w.applicationId), projectId := LowerId(w.projectId)))
        else None
  }

  function ReadDomain(d: Domain): Option<Domain> {
    if IsUuid(d.id) && IdOk(d.websiteId) && RevisionOk(d.desiredRevision, 1) && RevisionOk(d.appliedRevision, 0)
    then Some(d.(id := Lower(d.id), websiteId := LowerId(d.websiteId))) else None
  }

  function ReadBinding(b: Binding): Option<Binding> {
    if 1 <= |b.databaseName| <= 64 && IsUuid(b.id) && RevisionOk(b.revision, 1) && IsUuid(b.websiteId)
        && IsUuid(b.applicationId)
    then Some(b.(id := Lower(b.id), websiteId := Lower(b.websiteId), applicationId := Lower(b.applicationId))) else None
  }

  function ReadMailDomain(m: MailDomain): Option<MailDomain> {
    if IsUuid(m.id) && RevisionOk(m.revision, 1) && m.webDomainId.Some? && IsUuid(m.webDomainId.value)
    then Some(m.(id := Lower(m.id), webDomainId := LowerId(m.webDomainId))) else None
  }

  /** Keep what is in scope, read each, refuse the whole list when one is malformed. */
  function ReadAll<T>(keep: T -> bool, read: T -> Option<T>, s: seq<T>): Option<seq<T>> {
    if s == [] then Some([])
    else
      var rest := ReadAll(keep, read, s[1..]);
      if !keep(s[0]) then rest
      else
        var first := read(s[0]);
        if first.None? || rest.None? then None else Some([first.value] + rest.value)
  }

  // ---- impacts ---------------------------------------------------------------

  function DomainsOf(domains: seq<Domain>, websiteId: Text): seq<Domain> {
    if domains == [] then []
    else
      var init := DomainsOf(domains[..|domains| - 1], websiteId);
      var last := domains[|domains| - 1];
      if last.websiteId == Some(websiteId) then init + [last] else init
  }

  function RefOfWebsite(w: Website): Reference { Reference(WebsiteRef, w.id, w.revision, None) }
  function RefOfDomain(d: Domain): Reference { Reference(DomainRef, d.id, d.desiredRevision, Some(d.appliedRevision)) }
  function RefOfBinding(b: Binding): Reference { Reference(BindingRef, b.id, b.revision, None) }
  function RefOfMailDomain(m: MailDomain): Reference { Reference(MailDomainRef, m.id, m.revision, None) }

  function DomainIds(ds: seq<Domain>): (r: seq<Text>)
    ensures |r| == |ds| && forall i | 0 <= i < |ds| :: r[i] == ds[i].id
  {
    seq(|ds|, i requires 0 <= i < |ds| => ds[i].id)
  }

  function DomainRefs(ds: seq<Domain>): (r: seq<Reference>)
    ensures |r| == |ds| && forall i | 0 <= i < |ds| :: r[i] == RefOfDomain(ds[i])
  {
    seq(|ds|, i requires 0 <= i < |ds| => RefOfDomain(ds[i]))
  }

  /** What a resource touches, before sorting: websites, domains and references in the order they are met. */
  datatype Touched = Touched(websiteIds: seq<Text>, domainIds: seq<Text>, references: seq<Reference>)

  function Touch(t: Touched, w: Website, ds: seq<Domain>): Touched {
    Touched(t.websiteIds + [w.id], t.domainIds + DomainIds(ds), t.references + [RefOfWebsite(w)] + DomainRefs(ds))
  }

  function Runs(applicationId: Text): Website -> bool { (w: Website) => w.applicationId == Some(applicationId) }
  function Mounts(projectId: Text): Website -> bool { (w: Website) => w.projectId == Some(projectId) }

  /** The websites that satisfy `owned`, each with its domains. */
  function TouchSites(websites: seq<Website>, domains: seq<Domain>, owned: Website -> bool): Touched {
    if websites == [] then Touched([], [], [])
    else
      var init := TouchSites(websites[..|websites| - 1], domains, owned);
      var last := websites[|websites| - 1];
      if owned(last) then Touch(init, last, DomainsOf(domains, last.id)) else init
  }

  function FindBinding(bindings: seq<Binding>, name: Text): Option<Binding> {
    if bindings == [] then None
    else if Lower(bindings[0].databaseName) == Lower(name) then Some(bindings[0])
    else FindBinding(bindings[1..], name)
  }

  function FindWebsite(websites: seq<Website>, id: Text): (r: Option<Website>)
    ensures r.Some? ==> r.value in websites && r.value.id == id
  {
    if websites == [] then None else if websites[0].id == id then Some(websites[0]) else FindWebsite(websites[1..], id)
  }

  function FindDomain(domains: seq<Domain>, id: Text): (r: Option<Domain>)
    ensures r.Some? ==> r.value in domains && r.value.id == id
  {
    if domains == [] then None else if domains[0].id == id then Some(domains[0]) else FindDomain(domains[1..], id)
  }

  function FindMailDomain(ms: seq<MailDomain>, id: Text): (r: Option<MailDomain>)
    ensures r.Some? ==> r.value in ms && r.value.id == id
  {
    if ms == [] then None else if ms[0].id == id then Some(ms[0]) else FindMailDomain(ms[1..], id)
  }

  /** The body of the loop over resources; None where a mail resource no longer matches its domain. */
  function TouchedBy(s: Subject, v: Inventory): Option<Touched> {
    match s
    case ApplicationSubject(id) => Some(TouchSites(v.websites, v.domains, Runs(id)))
    case StorageSubject(id) => Some(TouchSites(v.websites, v.domains, Mounts(id)))
    case DatabaseSubject(name) =>
      var binding := FindBinding(v.bindings, name);
      if binding.None? then Some(Touched([], [], []))
      else
        var website := FindWebsite(v.websites, binding.value.websiteId);
        if website.None? then None
        else Some(Touch(Touched([], [], [RefOfBinding(binding.value)]), website.value,
                        DomainsOf(v.domains, website.value.id)))
    case MailSubject(id, domainScope, resourceId) =>
      var mail := FindMailDomain(v.mailDomains, id);
      if mail.None? || !domainScope || resourceId != id || mail.value.webDomainId.None? then None
      else
        var domain := FindDomain(v.domains, mail.value.webDomainId.value);
        if domain.None? then None
        else
          var refs := [RefOfMailDomain(mail.value), RefOfDomain(domain.value)];
          if domain.value.websiteId.None? then Some(Touched([], [domain.value.id], refs))
          else
            var website := FindWebsite(v.websites, domain.value.websiteId.value);
            if website.None? then None
            else Some(Touched([website.value.id], [domain.value.id], refs + [RefOfWebsite(website.value)]))
  }

  function UniqueSorted(values: seq<Text>): seq<Text> { Sort(Distinct(values)) }

  function ImpactOf(r: Resource, v: Inventory): Result<Impact, Error> {
    var t := TouchedBy(r.subject, v);
    if t.None? then Err(MailResourceStale)
    else if !KeysDistinct(RefKey, t.value.references) then Err(ReferenceDuplicate)
    else Ok(Impact(r.identity, KindOf(r.subject), UniqueSorted(t.value.websiteIds), UniqueSorted(t.value.domainIds),
                   SortBy(RefKey, t.value.references)))
  }

  /** The impacts of resources in order; the first that fails decides the error. */
  function Impacts(rs: seq<Resource>, v: Inventory): Result<seq<Impact>, Error> {
    if rs == [] then Ok([])
    else
      var init := Impacts(rs[..|rs| - 1], v);
      if init.Err? then init
      else
        var last := ImpactOf(rs[|rs| - 1], v);
        if last.Err? then Err(last.error) else Ok(init.value + [last.value])
  }

  // ---- the whole construction ------------------------------------------------

  predicate SiteOwned(w: Website, rs: seq<Resource>) {
    w.applicationId.Some? ==> exists r | r in rs :: r.subject == ApplicationSubject(w.applicationId.value)
  }

  predicate DomainPlaced(d: Domain, ws: seq<Website>) { d.websiteId.Some? ==> FindWebsite(ws, d.websiteId.value).Some? }

  predicate BindingCurrent(b: Binding, ws: seq<Website>) {
    var w := FindWebsite(ws, b.websiteId);
    w.Some? && w.value.applicationId == Some(b.applicationId)
  }

  predicate BindingBackedUp(b: Binding, rs: seq<Resource>) {
    exists r | r in rs :: r.subject.DatabaseSubject? && Lower(r.subject.databaseName) == Lower(b.databaseName)
  }

  predicate MailPlaced(m: MailDomain, ds: seq<Domain>) {
    m.webDomainId.Some? && FindDomain(ds, m.webDomainId.value).Some?
  }

  predicate MailBackedUp(m: MailDomain, rs: seq<Resource>) {
    exists r | r in rs :: r.subject.MailSubject? && r.subject.domainScope && r.subject.mailDomainId == m.id
  }

  function BindingError(bs: seq<Binding>, v: Inventory): Option<Error> {
    if bs == [] then None
    else if !BindingCurrent(bs[0], v.websites) then Some(BindingStale)
    else if !BindingBackedUp(bs[0], v.resources) then Some(DatabaseMissing)
    else BindingError(bs[1..], v)
  }

  function MailError(ms: seq<MailDomain>, v: Inventory): Option<Error> {
    if ms == [] then None
    else if !MailPlaced(ms[0], v.domains) then Some(MailDomainStale)
    else if !MailBackedUp(ms[0], v.resources) then Some(MailResourceMissing)
    else MailError(ms[1..], v)
  }

  predicate ResourceOk(r: Resource, serverId: Text) { IsResourceId(r.identity) && r.serverId == serverId }

  /** Everything up to the loop over resources: scoped, read, sorted and checked inventories. */
  function Prepare(serverId: Text, raw: Inventory): Result<Inventory, Error> {
    if |raw.resources| > MAX_ITEMS || (exists r | r in raw.resources :: !ResourceOk(r, serverId)) then Err(StateInvalid)
    else if !KeysDistinct(Identity, raw.resources) then Err(ResourceDuplicate)
    else
      var websites := ReadAll((w: Website) => w.serverId == serverId, ReadWebsite, raw.websites);
      if |raw.websites| > MAX_ITEMS || websites.None? then Err(StateInvalid)
      else if !KeysDistinct(WebsiteId, websites.value) then Err(WebsiteDuplicate)
      else if exists w | w in websites.value :: !SiteOwned(w, raw.resources) then Err(ApplicationMissing)
      else PrepareDomains(serverId, raw, raw.(websites := SortBy(WebsiteId, websites.value)))
  }

  function PrepareDomains(serverId: Text, raw: Inventory, v: Inventory): Result<Inventory, Error> {
    var domains := ReadAll((d: Domain) => d.serverId == serverId, ReadDomain, raw.domains);
    if |raw.domains| > MAX_ITEMS || domains.None? then Err(StateInvalid)
    else if !KeysDistinct(DomainId, domains.value) then Err(DomainDuplicate)
    else if exists d | d in domains.value :: !DomainPlaced(d, v.websites) then Err(WebsiteMissing)
    else PrepareBindings(serverId, raw, v.(domains := SortBy(DomainId, domains.value)))
  }

  function PrepareBindings(serverId: Text, raw: Inventory, v: Inventory): Result<Inventory, Error> {
    var bindings := ReadAll((b: Binding) => b.serverId == serverId, ReadBinding, raw.bindings);
    if |raw.bindings| > MAX_ITEMS || bindings.None? then Err(StateInvalid)
    else if !KeysDistinct(BindingId, bindings.value) then Err(BindingDuplicate)
    else
      var sorted := SortBy(BindingId, bindings.value);
      var error := BindingError(sorted, v);
      if error.Some? then Err(error.value) else PrepareMail(raw, v.(bindings := sorted))
  }

  function PrepareMail(raw: Inventory, v: Inventory): Result<Inventory, Error> {
    var mail := ReadAll((m: MailDomain) => m.local && m.webDomainId.Some?, ReadMailDomain, raw.mailDomains);
    if |raw.mailDomains| > MAX_ITEMS || mail.None? then Err(StateInvalid)
    else if !KeysDistinct(MailDomainId, mail.value) then Err(MailDomainDuplicate)
    else
      var sorted := SortBy(MailDomainId, mail.value);
      var error := MailError(sorted, v);
      if error.Some? then Err(error.value)
      else Ok(v.(mailDomains := sorted, resources := SortBy(Identity, raw.resources)))
  }

  predicate Associated(i: Impact) { i.websiteIds != [] || i.domainIds != [] }

  function AssociatedCount(impacts: seq<Impact>): nat {
    if impacts == [] then 0
    else AssociatedCount(impacts[..|impacts| - 1]) + if Associated(impacts[|impacts| - 1]) then 1 else 0
  }

  function WebsiteSet(impacts: seq<Impact>): set<Text> {
    set i, x | 0 <= i < |impacts| && x in impacts[i].websiteIds :: x
  }
  function DomainSet(impacts: seq<Impact>): set<Text> {
    set i, x | 0 <= i < |impacts| && x in impacts[i].domainIds :: x
  }

  function CountsOf(impacts: seq<Impact>): Counts {
    Counts(|impacts|, AssociatedCount(impacts), |WebsiteSet(impacts)|, |DomainSet(impacts)|)
  }

  /** createBackupDependencyGraph. */
  function DependencyGraphOf(serverId: Text, raw: Inventory): Result<Graph, Error> {
    if !IsUuid(serverId) then Err(StateInvalid)
    else
      var v := Prepare(Lower(serverId), raw);
      if v.Err? then Err(v.error)
      else
        var impacts := Impacts(v.value.resources, v.value);
        if impacts.Err? then Err(impacts.error)
        else Ok(Graph(Lower(serverId), impacts.value, CountsOf(impacts.value)))
  }

  // ---- reading a graph back (backup-plan.js, normalizeDependencyGraph) --------

  /** What the reader knows of a resource: its identity and type. */
  datatype Entry = Entry(identity: Text, kind: Kind)

  function EntryIdentity(e: Entry): Text { e.identity }

  function EntryOf(r: Resource): Entry { Entry(r.identity, KindOf(r.subject)) }

  predicate ReferenceOk(r: Reference) {
    1 <= |r.id| <= 160 && RevisionOk(r.revision, 0) && (r.applied.Some? ==> RevisionOk(r.applied.value, 0))
  }

  predicate IdsOk(ids: seq<Text>) { NoDuplicates(ids) && forall x | x in ids :: 1 <= |x| <= 160 }

  function KindIn(es: seq<Entry>, identity: Text): Option<Kind> {
    if es == [] then None
    else if es[0].identity == identity then Some(es[0].kind)
    else KindIn(es[1..], identity)
  }

  function NormalizeImpact(i: Impact, es: seq<Entry>): Option<Impact> {
    if KindIn(es, i.resourceIdentity) != Some(i.kind) || !IdsOk(i.websiteIds) || !IdsOk(i.domainIds)
      || (exists r | r in i.references :: !ReferenceOk(r)) || !KeysDistinct(RefKey, i.references) then None
    else Some(i.(websiteIds := Sort(i.websiteIds), domainIds := Sort(i.domainIds),
                 references := SortBy(RefKey, i.references)))
  }

  function NormalizeImpacts(impacts: seq<Impact>, es: seq<Entry>): Option<seq<Impact>> {
    if impacts == [] then Some([])
    else
      var head, tail := NormalizeImpact(impacts[0], es), NormalizeImpacts(impacts[1..], es);
      if head.Some? && tail.Some? then Some([head.value] + tail.value) else None
  }

  /** The graph as the plan takes it; None is a refusal. */
  function NormalizeGraph(g: Graph, es: seq<Entry>, serverId: Text): Option<Graph> {
    if g.serverId != serverId || |g.impacts| != |es| then None
    else
      var read := NormalizeImpacts(g.impacts, es);
      if read.None? then None
      else
        var impacts := SortBy(ImpactIdentity, read.value);
        if !KeysDistinct(ImpactIdentity, impacts) || g.counts != CountsOf(impacts) then None
        else Some(Graph(serverId, impacts, CountsOf(impacts)))
  }
}
