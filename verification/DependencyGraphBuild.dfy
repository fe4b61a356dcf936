/**
 The nested loops that fill the domain buckets and the impacts, proved against the functions that
 describe the graph.
 */
module DependencyGraphBuild {
  import opened Common
  import opened Texts
  import opened Ordering
  import opened DependencyGraph

  function Bucket(buckets: map<Text, seq<Domain>>, id: Text): seq<Domain> { if id in buckets then buckets[id] else [] }

  /** domainsByWebsite: each website's domains, in the order of the list. */
  method BucketDomains(domains: seq<Domain>) returns (buckets: map<Text, seq<Domain>>)
    ensures forall id :: Bucket(buckets, id) == DomainsOf(domains, id)
  {
    buckets := map[];
    for i := 0 to |domains|
      invariant forall id :: Bucket(buckets, id) == DomainsOf(domains[..i], id)
    {
      var domain := domains[i];
      assert domains[..i + 1][..i] == domains[..i];
      if domain.websiteId.Some? {
        var id := domain.websiteId.value;
        buckets := buckets[id := Bucket(buckets, id) + [domain]];
      }
    }
    assert domains[..|domains|] == domains;
  }

  method TouchDomains(t: Touched, ds: seq<Domain>) returns (r: Touched)
    ensures r == Touched(t.websiteIds, t.domainIds + DomainIds(ds), t.references + DomainRefs(ds))
  {
    r := t;
    for i := 0 to |ds|
      invariant r == Touched(t.websiteIds, t.domainIds + DomainIds(ds[..i]), t.references + DomainRefs(ds[..i]))
    {
      assert DomainIds(ds[..i + 1]) == DomainIds(ds[..i]) + [ds[i].id];
      assert DomainRefs(ds[..i + 1]) == DomainRefs(ds[..i]) + [RefOfDomain(ds[i])];
      r := Touched(r.websiteIds, r.domainIds + [ds[i].id], r.references + [RefOfDomain(ds[i])]);
    }
    assert ds[..|ds|] == ds;
  }

  method TouchOwned(websites: seq<Website>, domains: seq<Domain>, buckets: map<Text, seq<Domain>>,
                    owned: Website -> bool) returns (t: Touched)
    requires forall id :: Bucket(buckets, id) == DomainsOf(domains, id)
    ensures t == TouchSites(websites, domains, owned)
  {
    t := Touched([], [], []);
    for i := 0 to |websites|
      invariant t == TouchSites(websites[..i], domains, owned)
    {
      var w := websites[i];
      assert websites[..i + 1][..i] == websites[..i];
      if owned(w) {
        t := TouchDomains(Touched(t.websiteIds + [w.id], t.domainIds, t.references + [RefOfWebsite(w)]),
                          Bucket(buckets, w.id));
      }
    }
    assert websites[..|websites|] == websites;
  }

  method TouchSubject(s: Subject, v: Inventory, buckets: map<Text, seq<Domain>>) returns (t: Option<Touched>)
    requires forall id :: Bucket(buckets, id) == DomainsOf(v.domains, id)
    ensures t == TouchedBy(s, v)
  {
    match s
    case ApplicationSubject(id) =>
      var sites := TouchOwned(v.websites, v.domains, buckets, Runs(id));
      t := Some(sites);
    case StorageSubject(id) =>
      var sites := TouchOwned(v.websites, v.domains, buckets, Mounts(id));
      t := Some(sites);
    case DatabaseSubject(name) =>
      var binding := FindBinding(v.bindings, name);
      if binding.None? { return Some(Touched([], [], [])); }
      var website := FindWebsite(v.websites, binding.value.websiteId);
      if website.None? { return None; }
      var head := Touched([website.value.id], [], [RefOfBinding(binding.value)] + [RefOfWebsite(website.value)]);
      var all := TouchDomains(head, Bucket(buckets, website.value.id));
      assert all.websiteIds == [] + [website.value.id];
      t := Some(all);
    case MailSubject(id, domainScope, resourceId) =>
      var mail := FindMailDomain(v.mailDomains, id);
      if mail.None? || !domainScope || resourceId != id || mail.value.webDomainId.None? { return None; }
      var domain := FindDomain(v.domains, mail.value.webDomainId.value);
      if domain.None? { return None; }
      var websiteIds: seq<Text> := [];
      var references := [RefOfMailDomain(mail.value)];
      references := references + [RefOfDomain(domain.value)];
      assert references == [RefOfMailDomain(mail.value), RefOfDomain(domain.value)];
      if domain.value.websiteId.Some? {
        var website := FindWebsite(v.websites, domain.value.websiteId.value);
        if website.None? { return None; }
        websiteIds := websiteIds + [website.value.id];
        assert websiteIds == [website.value.id];
        references := references + [RefOfWebsite(website.value)];
      }
      t := Some(Touched(websiteIds, [domain.value.id], references));
  }

  lemma {:induction false} FirstImpactError(rs: seq<Resource>, v: Inventory, k: nat, error: Error)
    requires k <= |rs| && Impacts(rs[..k], v) == Err(error)
    ensures Impacts(rs, v) == Err(error)
    decreases |rs| - k
  {
    if k < |rs| {
      assert rs[..k + 1][..k] == rs[..k];
      FirstImpactError(rs, v, k + 1, error);
    } else {
      assert rs[..k] == rs;
    }
  }

  method CreateBackupDependencyGraph(serverId: Text, raw: Inventory) returns (graph: Result<Graph, Error>)
    ensures graph == DependencyGraphOf(serverId, raw)
  {
    if !IsUuid(serverId) { return Err(StateInvalid); }
    var prepared := Prepare(Lower(serverId), raw);
    if prepared.Err? { return Err(prepared.error); }
    var v := prepared.value;
    var buckets := BucketDomains(v.domains);
    var impacts: seq<Impact> := [];
    for i := 0 to |v.resources|
      invariant Impacts(v.resources[..i], v) == Ok(impacts)
    {
      var r := v.resources[i];
      assert v.resources[..i + 1][..i] == v.resources[..i];
      var t := TouchSubject(r.subject, v, buckets);
      if t.None? || !KeysDistinct(RefKey, t.value.references) {
        var error := if t.None? then MailResourceStale else ReferenceDuplicate;
        FirstImpactError(v.resources, v, i + 1, error);
        return Err(error);
      }
      impacts := impacts + [Impact(r.identity, KindOf(r.subject), UniqueSorted(t.value.websiteIds),
                                   UniqueSorted(t.value.domainIds),
                                   SortBy(RefKey, t.value.references))];
    }
    assert v.resources[..|v.resources|] == v.resources;
    graph := Ok(Graph(Lower(serverId), impacts, CountsOf(impacts)));
  }
}
