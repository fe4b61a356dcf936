/** What the references of an impact say about the inventories the graph was made from. */
module DependencyReferences {
  import opened Common
  import opened Texts
  import opened Ordering
  import opened DependencyGraph
  import opened DependencyGraphTheorems

  // ---- references against a prepared inventory -------------------------------

  /** The revisions of a reference are those of the listed item it names. */
  ghost predicate Current(r: Reference, v: Inventory) {
    match r.kind
    case WebsiteRef => exists w :: w in v.websites && w.id == r.id && r.revision == w.revision && r.applied.None?
    case DomainRef =>
      exists d ::
        d in v.domains && d.id == r.id && r.revision == d.desiredRevision
        && r.applied == Some(d.appliedRevision)
    case BindingRef => exists b :: b in v.bindings && b.id == r.id && r.revision == b.revision && r.applied.None?
    case MailDomainRef =>
      exists m :: m in v.mailDomains && m.id == r.id && r.revision == m.revision && r.applied.None?
  }

  ghost predicate Named(references: seq<Reference>, kind: RefKind, x: Text) {
    exists r :: r in references && r.kind == kind && r.id == x
  }

  /** Current references, and every affected website and domain among them. */
  ghost predicate WellReferenced(t: Touched, v: Inventory) {
    && (forall r | r in t.references :: Current(r, v))
    && (forall x :: x in t.websiteIds <==> Named(t.references, WebsiteRef, x))
    && (forall x :: x in t.domainIds <==> Named(t.references, DomainRef, x))
  }

  lemma TouchReferenced(t: Touched, w: Website, ds: seq<Domain>, v: Inventory)
    requires WellReferenced(t, v) && w in v.websites && forall d | d in ds :: d in v.domains
    ensures WellReferenced(Touch(t, w, ds), v)
  {
    var n, site := Touch(t, w, ds), RefOfWebsite(w);
    forall r | r in n.references ensures Current(r, v) {
      if r in DomainRefs(ds) {
        var i :| 0 <= i < |ds| && DomainRefs(ds)[i] == r;
        assert ds[i] in ds;
      }
    }
    assert site in n.references;
    forall r | r in t.references || r in DomainRefs(ds) ensures r in n.references {}
    forall i | 0 <= i < |ds| ensures DomainIds(ds)[i] == DomainRefs(ds)[i].id && DomainRefs(ds)[i].kind.DomainRef? {}
    forall x ensures x in n.websiteIds <==> Named(n.references, WebsiteRef, x) {
      if Named(n.references, WebsiteRef, x) && x != w.id { assert Named(t.references, WebsiteRef, x); }
    }
    forall x ensures x in n.domainIds <==> Named(n.references, DomainRef, x) {
      if x in DomainIds(ds) {
        var i :| 0 <= i < |ds| && DomainIds(ds)[i] == x;
        assert DomainRefs(ds)[i] in n.references;
      }
      if Named(n.references, DomainRef, x) {
        var r :| r in n.references && r.kind.DomainRef? && r.id == x;
        if r in DomainRefs(ds) {
          var i :| 0 <= i < |ds| && DomainRefs(ds)[i] == r;
          assert DomainIds(ds)[i] == x;
        } else {
          assert r in t.references;
        }
      }
    }
  }

  lemma {:induction false} SitesReferenced(websites: seq<Website>, owned: Website -> bool, v: Inventory)
    requires forall w | w in websites :: w in v.websites
    ensures WellReferenced(TouchSites(websites, v.domains, owned), v)
  {
    if websites != [] {
      var init, last := websites[..|websites| - 1], websites[|websites| - 1];
      SitesReferenced(init, owned, v);
      DomainsOfMembers(v.domains, last.id);
      if owned(last) {
        TouchReferenced(TouchSites(init, v.domains, owned), last, DomainsOf(v.domains, last.id), v);
      }
    }
  }

  lemma DatabaseReferenced(name: Text, v: Inventory)
    requires Ready(v) && TouchedBy(DatabaseSubject(name), v).Some?
    ensures WellReferenced(TouchedBy(DatabaseSubject(name), v).value, v)
  {
    FindsBinding(v.bindings, name);
    var b := FindBinding(v.bindings, name);
    if b.Some? {
      var w := FindWebsite(v.websites, b.value.websiteId).value;
      DomainsOfMembers(v.domains, w.id);
      var start := Touched([], [], [RefOfBinding(b.value)]);
      assert Current(RefOfBinding(b.value), v);
      assert WellReferenced(start, v);
      TouchReferenced(start, w, DomainsOf(v.domains, w.id), v);
    }
  }

  lemma MailReferenced(s: Subject, v: Inventory)
    requires s.MailSubject? && TouchedBy(s, v).Some?
    ensures WellReferenced(TouchedBy(s, v).value, v)
  {
    var t := TouchedBy(s, v).value;
    var refs := t.references;
    assert refs[0].kind.MailDomainRef? && refs[1].kind.DomainRef? && refs[1] in refs;
    if |refs| == 3 { assert refs[2].kind.WebsiteRef? && refs[2] in refs; }
    forall r | r in refs ensures r == refs[0] || r == refs[1] || (|refs| == 3 && r == refs[2]) {}
  }

  lemma TouchedReferenced(s: Subject, v: Inventory)
    requires Ready(v) && TouchedBy(s, v).Some?
    ensures WellReferenced(TouchedBy(s, v).value, v)
  {
    match s
    case ApplicationSubject(id) => SitesReferenced(v.websites, Runs(id), v);
    case StorageSubject(id) => SitesReferenced(v.websites, Mounts(id), v);
    case DatabaseSubject(name) => DatabaseReferenced(name, v);
    case MailSubject(_, _, _) => MailReferenced(s, v);
  }

  // ---- and against what was listed -------------------------------------------

  lemma SortedFrom<T>(key: T -> Text, s: seq<T>)
    ensures forall x | x in SortBy(key, s) :: x in s
  {
    SortBySorts(key, s);
    forall x | x in SortBy(key, s) ensures x in s { assert x in multiset(SortBy(key, s)); }
  }

  /** The same against the lists the caller passed: the item of this server, its id in lower case. */
  ghost predicate Listed(r: Reference, raw: Inventory, serverId: Text) {
    match r.kind
    case WebsiteRef =>
      exists w ::
        w in raw.websites && w.serverId == serverId && Lower(w.id) == r.id
        && r.revision == w.revision && r.applied.None?
    case DomainRef =>
      exists d ::
        d in raw.domains && d.serverId == serverId && Lower(d.id) == r.id
        && r.revision == d.desiredRevision && r.applied == Some(d.appliedRevision)
    case BindingRef =>
      exists b ::
        b in raw.bindings && b.serverId == serverId && Lower(b.id) == r.id
        && r.revision == b.revision && r.applied.None?
    case MailDomainRef =>
      exists m ::
        m in raw.mailDomains && m.local && Lower(m.id) == r.id
        && r.revision == m.revision && r.applied.None?
  }

  lemma CurrentIsListed(r: Reference, raw: Inventory, serverId: Text)
    requires Prepare(serverId, raw).Ok? && Current(r, Prepare(serverId, raw).value)
    ensures Listed(r, raw, serverId)
  {
    var v := Prepare(serverId, raw).value;
    match r.kind
    case WebsiteRef =>
      var keep := (w: Website) => w.serverId == serverId;
      ReadAllFrom(keep, ReadWebsite, raw.websites);
      SortedFrom(WebsiteId, ReadAll(keep, ReadWebsite, raw.websites).value);
    case DomainRef =>
      var keep := (d: Domain) => d.serverId == serverId;
      ReadAllFrom(keep, ReadDomain, raw.domains);
      SortedFrom(DomainId, ReadAll(keep, ReadDomain, raw.domains).value);
    case BindingRef =>
      var keep := (b: Binding) => b.serverId == serverId;
      ReadAllFrom(keep, ReadBinding, raw.bindings);
      SortedFrom(BindingId, ReadAll(keep, ReadBinding, raw.bindings).value);
    case MailDomainRef =>
      var keep := (m: MailDomain) => m.local && m.webDomainId.Some?;
      ReadAllFrom(keep, ReadMailDomain, raw.mailDomains);
      SortedFrom(MailDomainId, ReadAll(keep, ReadMailDomain, raw.mailDomains).value);
  }

  /**
   Each reference of a graph carries the revisions of the item it names, as it was listed, and the affected
   websites and domains are exactly the referenced ones.
   */
  lemma ReferencesCurrent(serverId: Text, raw: Inventory, i: Impact)
    requires DependencyGraphOf(serverId, raw).Ok? && i in DependencyGraphOf(serverId, raw).value.impacts
    ensures forall r | r in i.references :: Listed(r, raw, Lower(serverId))
    ensures forall x :: x in i.websiteIds <==> Named(i.references, WebsiteRef, x)
    ensures forall x :: x in i.domainIds <==> Named(i.references, DomainRef, x)
  {
    var v := Prepare(Lower(serverId), raw).value;
    PrepareReady(Lower(serverId), raw);
    ImpactsPointwise(v.resources, v);
    var k :| 0 <= k < |v.resources| && ImpactOf(v.resources[k], v) == Ok(i);
    ImpactReferenced(v.resources[k], v);
    forall r | r in i.references ensures Listed(r, raw, Lower(serverId)) {
      CurrentIsListed(r, raw, Lower(serverId));
    }
  }

  lemma ImpactReferenced(r: Resource, v: Inventory)
    requires Ready(v) && ImpactOf(r, v).Ok?
    ensures var i := ImpactOf(r, v).value;
      && (forall x | x in i.references :: Current(x, v))
      && (forall x :: x in i.websiteIds <==> Named(i.references, WebsiteRef, x))
      && (forall x :: x in i.domainIds <==> Named(i.references, DomainRef, x))
  {
    var t := TouchedBy(r.subject, v).value;
    TouchedReferenced(r.subject, v);
    UniqueSortedOk(t.websiteIds);
    UniqueSortedOk(t.domainIds);
    SortBySorts(RefKey, t.references);
    var sorted := SortBy(RefKey, t.references);
    forall x ensures x in sorted <==> x in t.references {
      assert x in multiset(sorted) <==> x in multiset(t.references);
    }
  }

  // ---- counts ----------------------------------------------------------------

  ghost predicate Affected(i: Impact) {
    exists x :: Named(i.references, WebsiteRef, x) || Named(i.references, DomainRef, x)
  }

  lemma {:induction false} AssociatedCounted(impacts: seq<Impact>)
    ensures AssociatedCount(impacts) == |set i | 0 <= i < |impacts| && Associated(impacts[i])|
  {
    if impacts != [] {
      var last := |impacts| - 1;
      var init := impacts[..last];
      AssociatedCounted(init);
      var before := set i | 0 <= i < last && Associated(init[i]);
      var after := set i | 0 <= i < |impacts| && Associated(impacts[i]);
      assert after == if Associated(impacts[last]) then before + {last} else before;
    }
  }

  /** The distinct items of one kind that the references of a graph name. */
  ghost function NamedBy(impacts: seq<Impact>, kind: RefKind): set<Text> {
    set i, r | 0 <= i < |impacts| && r in impacts[i].references && r.kind == kind :: r.id
  }

  /**
   The counts say how many resources there are, how many affect anything, and how many websites and
   domains they affect.
   */
  lemma CountsMean(serverId: Text, raw: Inventory)
    requires DependencyGraphOf(serverId, raw).Ok?
    ensures var g := DependencyGraphOf(serverId, raw).value;
      && g.counts.resources == |raw.resources| == |g.impacts|
      && g.counts.associated == |set i | 0 <= i < |g.impacts| && Affected(g.impacts[i])|
      && g.counts.websites == |NamedBy(g.impacts, WebsiteRef)| && g.counts.domains == |NamedBy(g.impacts, DomainRef)|
  {
    var g, v := DependencyGraphOf(serverId, raw).value, Prepare(Lower(serverId), raw).value;
    PreparedResources(Lower(serverId), raw);
    SortBySorts(Identity, raw.resources);
    assert |multiset(v.resources)| == |multiset(raw.resources)|;
    ImpactsPointwise(v.resources, v);
    forall i | 0 <= i < |g.impacts|
      ensures forall x :: x in g.impacts[i].websiteIds <==> Named(g.impacts[i].references, WebsiteRef, x)
      ensures forall x :: x in g.impacts[i].domainIds <==> Named(g.impacts[i].references, DomainRef, x)
    {
      ReferencesCurrent(serverId, raw, g.impacts[i]);
    }
    AssociatedMeans(g.impacts);
    NamesAreIds(g.impacts);
  }

  lemma AssociatedMeans(impacts: seq<Impact>)
    requires forall i, x | 0 <= i < |impacts| ::
        x in impacts[i].websiteIds <==> Named(impacts[i].references, WebsiteRef, x)
    requires forall i, x | 0 <= i < |impacts| ::
        x in impacts[i].domainIds <==> Named(impacts[i].references, DomainRef, x)
    ensures AssociatedCount(impacts) == |set i | 0 <= i < |impacts| && Affected(impacts[i])|
  {
    AssociatedCounted(impacts);
    forall i | 0 <= i < |impacts| ensures Affected(impacts[i]) <==> Associated(impacts[i]) {
      AffectedIff(impacts[i]);
    }
    assert (set i | 0 <= i < |impacts| && Affected(impacts[i]))
        == (set i | 0 <= i < |impacts| && Associated(impacts[i]));
  }

  lemma AffectedIff(i: Impact)
    requires forall x :: x in i.websiteIds <==> Named(i.references, WebsiteRef, x)
    requires forall x :: x in i.domainIds <==> Named(i.references, DomainRef, x)
    ensures Affected(i) <==> Associated(i)
  {
    if i.websiteIds != [] { assert i.websiteIds[0] in i.websiteIds; }
    if i.domainIds != [] { assert i.domainIds[0] in i.domainIds; }
  }

  lemma NamesAreIds(impacts: seq<Impact>)
    requires forall i, x | 0 <= i < |impacts| ::
        x in impacts[i].websiteIds <==> Named(impacts[i].references, WebsiteRef, x)
    requires forall i, x | 0 <= i < |impacts| ::
        x in impacts[i].domainIds <==> Named(impacts[i].references, DomainRef, x)
    ensures WebsiteSet(impacts) == NamedBy(impacts, WebsiteRef) && DomainSet(impacts) == NamedBy(impacts, DomainRef)
  {
    forall x ensures x in WebsiteSet(impacts) <==> x in NamedBy(impacts, WebsiteRef) {
      if i :| 0 <= i < |impacts| && x in impacts[i].websiteIds { NamedIn(impacts, i, WebsiteRef, x); }
      if i, r :| 0 <= i < |impacts| && r in impacts[i].references && r.kind.WebsiteRef? && r.id == x {
        assert Named(impacts[i].references, WebsiteRef, x);
      }
    }
    forall x ensures x in DomainSet(impacts) <==> x in NamedBy(impacts, DomainRef) {
      if i :| 0 <= i < |impacts| && x in impacts[i].domainIds { NamedIn(impacts, i, DomainRef, x); }
      if i, r :| 0 <= i < |impacts| && r in impacts[i].references && r.kind.DomainRef? && r.id == x {
        assert Named(impacts[i].references, DomainRef, x);
      }
    }
  }

  lemma NamedIn(impacts: seq<Impact>, i: nat, kind: RefKind, x: Text)
    requires i < |impacts| && Named(impacts[i].references, kind, x)
    ensures x in NamedBy(impacts, kind)
  {
    var r :| r in impacts[i].references && r.kind == kind && r.id == x;
  }
}
