/**
 What a dependency graph says: its impacts are exactly what is reachable, and createBackupPlan
 re-reads it unchanged.
 */
module DependencyGraphTheorems {
  import opened Common
  import opened Texts
  import opened Ordering
  import opened DependencyGraph

  // ---- a prepared inventory --------------------------------------------------

  predicate WebsiteOk(w: Website) { |w.id| == 36 && RevisionOk(w.revision, 1) }
  predicate DomainOk(d: Domain) { |d.id| == 36 && RevisionOk(d.desiredRevision, 1) && RevisionOk(d.appliedRevision, 0) }
  predicate BindingOk(b: Binding) { |b.id| == 36 && RevisionOk(b.revision, 1) }
  predicate MailOk(m: MailDomain) { |m.id| == 36 && RevisionOk(m.revision, 1) }

  ghost predicate WellRead(v: Inventory) {
    && (forall w | w in v.websites :: WebsiteOk(w)) && (forall d | d in v.domains :: DomainOk(d))
    && (forall b | b in v.bindings :: BindingOk(b)) && (forall m | m in v.mailDomains :: MailOk(m))
  }

  /** What the checks before the loop over resources establish. */
  ghost predicate Ready(v: Inventory) {
    && KeysIncrease(WebsiteId, v.websites) && KeysIncrease(DomainId, v.domains) && KeysIncrease(BindingId, v.bindings)
    && KeysIncrease(MailDomainId, v.mailDomains) && KeysIncrease(Identity, v.resources)
    && (forall d | d in v.domains :: DomainPlaced(d, v.websites))
    && (forall b | b in v.bindings :: BindingCurrent(b, v.websites))
    && (forall m | m in v.mailDomains :: MailPlaced(m, v.domains))
    && WellRead(v)
  }

  lemma {:induction false} ReadAllHolds<T(!new)>(keep: T -> bool, read: T -> Option<T>, s: seq<T>, ok: T -> bool)
    requires forall x: T :: read(x).Some? ==> ok(read(x).value)
    requires ReadAll(keep, read, s).Some?
    ensures forall i | 0 <= i < |ReadAll(keep, read, s).value| :: ok(ReadAll(keep, read, s).value[i])
  {
    if s != [] { ReadAllHolds(keep, read, s[1..], ok); }
  }

  lemma {:induction false} ReadAllFrom<T(!new)>(keep: T -> bool, read: T -> Option<T>, s: seq<T>)
    requires ReadAll(keep, read, s).Some?
    ensures forall y | y in ReadAll(keep, read, s).value :: exists x :: x in s && keep(x) && read(x) == Some(y)
  {
    if s != [] {
      ReadAllFrom(keep, read, s[1..]);
      forall y | y in ReadAll(keep, read, s).value ensures exists x :: x in s && keep(x) && read(x) == Some(y) {
        if y in ReadAll(keep, read, s[1..]).value {
          var x :| x in s[1..] && keep(x) && read(x) == Some(y);
          assert x in s;
        } else {
          assert s[0] in s && keep(s[0]) && read(s[0]) == Some(y);
        }
      }
    }
  }

  lemma SortByIndexed<T>(key: T -> Text, s: seq<T>, i: nat) returns (j: nat)
    requires i < |SortBy(key, s)|
    ensures j < |s| && s[j] == SortBy(key, s)[i]
  {
    SortBySorts(key, s);
    assert SortBy(key, s)[i] in multiset(SortBy(key, s));
    assert SortBy(key, s)[i] in s;
    j :| 0 <= j < |s| && s[j] == SortBy(key, s)[i];
  }

  lemma {:induction false} BindingsCurrent(bs: seq<Binding>, v: Inventory)
    requires BindingError(bs, v).None?
    ensures forall b | b in bs :: BindingCurrent(b, v.websites)
  {
    if bs != [] { BindingsCurrent(bs[1..], v); }
  }

  lemma {:induction false} MailsPlaced(ms: seq<MailDomain>, v: Inventory)
    requires MailError(ms, v).None?
    ensures forall m | m in ms :: MailPlaced(m, v.domains)
  {
    if ms != [] { MailsPlaced(ms[1..], v); }
  }

  lemma PrepareMailReady(raw: Inventory, v: Inventory)
    requires PrepareMail(raw, v).Ok? && KeysDistinct(Identity, raw.resources)
    requires KeysIncrease(WebsiteId, v.websites) && KeysIncrease(DomainId, v.domains)
    requires KeysIncrease(BindingId, v.bindings)
    requires (forall d | d in v.domains :: DomainPlaced(d, v.websites))
    requires (forall b | b in v.bindings :: BindingCurrent(b, v.websites))
    requires (forall w | w in v.websites :: WebsiteOk(w)) && (forall d | d in v.domains :: DomainOk(d))
    requires (forall b | b in v.bindings :: BindingOk(b))
    ensures Ready(PrepareMail(raw, v).value)
  {
    var mail := ReadAll((m: MailDomain) => m.local && m.webDomainId.Some?, ReadMailDomain, raw.mailDomains).value;
    SortBySorts(MailDomainId, mail);
    SortBySorts(Identity, raw.resources);
    MailsPlaced(SortBy(MailDomainId, mail), v);
    ReadAllHolds((m: MailDomain) => m.local && m.webDomainId.Some?, ReadMailDomain, raw.mailDomains, MailOk);
    forall m | m in SortBy(MailDomainId, mail) ensures MailOk(m) {
      var i :| 0 <= i < |SortBy(MailDomainId, mail)| && SortBy(MailDomainId, mail)[i] == m;
      var j := SortByIndexed(MailDomainId, mail, i);
    }
  }

  lemma PrepareBindingsReady(serverId: Text, raw: Inventory, v: Inventory)
    requires PrepareBindings(serverId, raw, v).Ok? && KeysDistinct(Identity, raw.resources)
    requires KeysIncrease(WebsiteId, v.websites) && KeysIncrease(DomainId, v.domains)
    requires (forall d | d in v.domains :: DomainPlaced(d, v.websites))
    requires (forall w | w in v.websites :: WebsiteOk(w)) && (forall d | d in v.domains :: DomainOk(d))
    ensures Ready(PrepareBindings(serverId, raw, v).value)
  {
    var bindings := ReadAll((b: Binding) => b.serverId == serverId, ReadBinding, raw.bindings).value;
    var sorted := SortBy(BindingId, bindings);
    SortBySorts(BindingId, bindings);
    BindingsCurrent(sorted, v);
    ReadAllHolds((b: Binding) => b.serverId == serverId, ReadBinding, raw.bindings, BindingOk);
    forall b | b in sorted ensures BindingOk(b) {
      var i :| 0 <= i < |sorted| && sorted[i] == b;
      var j := SortByIndexed(BindingId, bindings, i);
    }
    PrepareMailReady(raw, v.(bindings := sorted));
  }

  lemma PrepareDomainsReady(serverId: Text, raw: Inventory, v: Inventory)
    requires PrepareDomains(serverId, raw, v).Ok? && KeysDistinct(Identity, raw.resources)
    requires KeysIncrease(WebsiteId, v.websites) && (forall w | w in v.websites :: WebsiteOk(w))
    ensures Ready(PrepareDomains(serverId, raw, v).value)
  {
    var domains := ReadAll((d: Domain) => d.serverId == serverId, ReadDomain, raw.domains).value;
    var sorted := SortBy(DomainId, domains);
    SortBySorts(DomainId, domains);
    ReadAllHolds((d: Domain) => d.serverId == serverId, ReadDomain, raw.domains, DomainOk);
    forall d | d in sorted ensures DomainOk(d) && DomainPlaced(d, v.websites) {
      var i :| 0 <= i < |sorted| && sorted[i] == d;
      var j := SortByIndexed(DomainId, domains, i);
      assert domains[j] in domains;
    }
    PrepareBindingsReady(serverId, raw, v.(domains := sorted));
  }

  lemma PrepareReady(serverId: Text, raw: Inventory)
    requires Prepare(serverId, raw).Ok?
    ensures Ready(Prepare(serverId, raw).value)
  {
    var websites := ReadAll((w: Website) => w.serverId == serverId, ReadWebsite, raw.websites).value;
    var sorted := SortBy(WebsiteId, websites);
    SortBySorts(WebsiteId, websites);
    ReadAllHolds((w: Website) => w.serverId == serverId, ReadWebsite, raw.websites, WebsiteOk);
    forall w | w in sorted ensures WebsiteOk(w) {
      var i :| 0 <= i < |sorted| && sorted[i] == w;
      var j := SortByIndexed(WebsiteId, websites, i);
    }
    PrepareDomainsReady(serverId, raw, raw.(websites := sorted));
  }

  // ---- which domains and websites a list of sites touches --------------------

  lemma {:induction false} DomainsOfMembers(domains: seq<Domain>, id: Text)
    ensures forall d :: d in DomainsOf(domains, id) <==> d in domains && d.websiteId == Some(id)
    ensures KeysDistinct(DomainId, domains) ==> KeysDistinct(DomainId, DomainsOf(domains, id))
  {
    if domains != [] {
      var init, last := domains[..|domains| - 1], domains[|domains| - 1];
      DomainsOfMembers(init, id);
      assert domains == init + [last];
      if KeysDistinct(DomainId, domains) {
        assert KeysDistinct(DomainId, init);
        forall i | 0 <= i < |DomainsOf(init, id)| ensures DomainsOf(init, id)[i].id != last.id {
          assert DomainsOf(init, id)[i] in init;
          var k :| 0 <= k < |init| && init[k] == DomainsOf(init, id)[i];
          assert domains[k].id != domains[|domains| - 1].id by {
            assert DomainId(domains[k]) != DomainId(domains[|domains| - 1]);
          }
        }
      }
    }
  }

  lemma KeyInjective(a: Reference, b: Reference)
    requires RefKey(a) == RefKey(b)
    ensures a.kind == b.kind && a.id == b.id
  {
    var p, q := KindName(a.kind), KindName(b.kind);
    assert RefKey(a)[0] == p[0] && RefKey(b)[0] == q[0] && RefKey(a)[1] == p[1] && RefKey(b)[1] == q[1];
    assert a.kind == b.kind;
    assert a.id == RefKey(a)[|p| + 1..] && b.id == RefKey(b)[|q| + 1..];
  }

  lemma KeysDiffer(a: Reference, b: Reference)
    requires a.kind != b.kind || a.id != b.id
    ensures RefKey(a) != RefKey(b)
  {
    if RefKey(a) == RefKey(b) { KeyInjective(a, b); }
  }

  ghost predicate OwnedId(x: Text, websites: seq<Website>, owned: Website -> bool) {
    exists w :: w in websites && owned(w) && w.id == x
  }

  ghost predicate OwnedDomain(d: Domain, websites: seq<Website>, owned: Website -> bool) {
    d.websiteId.Some? && OwnedId(d.websiteId.value, websites, owned)
  }

  ghost predicate OwnedDomainId(x: Text, websites: seq<Website>, domains: seq<Domain>, owned: Website -> bool) {
    exists d :: d in domains && OwnedDomain(d, websites, owned) && d.id == x
  }

  /** What the references of the touched sites are. */
  ghost predicate RefersTo(r: Reference, websites: seq<Website>, domains: seq<Domain>, owned: Website -> bool) {
    || (r.kind.WebsiteRef? && OwnedId(r.id, websites, owned))
    || (r.kind.DomainRef? && OwnedDomainId(r.id, websites, domains, owned))
  }

  /** Touching sites collects exactly the owned websites and the domains on them. */
  lemma {:induction false} TouchSitesMembers(websites: seq<Website>, domains: seq<Domain>, owned: Website -> bool)
    ensures var t := TouchSites(websites, domains, owned);
      && (forall x :: x in t.websiteIds <==> OwnedId(x, websites, owned))
      && (forall x :: x in t.domainIds <==> OwnedDomainId(x, websites, domains, owned))
      && (forall r | r in t.references :: RefersTo(r, websites, domains, owned) && ReferenceOf(r, websites, domains))
  {
    if websites != [] {
      var init, last := websites[..|websites| - 1], websites[|websites| - 1];
      TouchSitesMembers(init, domains, owned);
      DomainsOfMembers(domains, last.id);
      assert websites == init + [last];
      OwnedGrows(init, last, domains, owned);
      var t, ds := TouchSites(websites, domains, owned), DomainsOf(domains, last.id);
      if owned(last) {
        forall x ensures x in DomainIds(ds) <==> exists d :: d in domains && d.websiteId == Some(last.id) && d.id == x {
          if x in DomainIds(ds) {
            var i :| 0 <= i < |ds| && ds[i].id == x;
            assert ds[i] in ds;
          }
          if d: Domain :| d in domains && d.websiteId == Some(last.id) && d.id == x {
            assert d in ds;
            var i :| 0 <= i < |ds| && ds[i] == d;
            assert DomainIds(ds)[i] == x;
          }
        }
        forall r | r in t.references
            ensures RefersTo(r, websites, domains, owned) && ReferenceOf(r, websites, domains) {
          var before := TouchSites(init, domains, owned).references;
          if r in before {
            GrowsReference(r, init, last, domains);
          } else if r != RefOfWebsite(last) {
            assert r in DomainRefs(ds);
            var i :| 0 <= i < |ds| && RefOfDomain(ds[i]) == r;
            assert ds[i] in ds;
          }
        }
      } else {
        forall r | r in t.references ensures ReferenceOf(r, websites, domains) {
          GrowsReference(r, init, last, domains);
        }
      }
    }
  }

  /** A reference carries the id and revisions of an actual website or domain. */
  ghost predicate ReferenceOf(r: Reference, websites: seq<Website>, domains: seq<Domain>) {
    (exists w :: w in websites && r == RefOfWebsite(w)) || (exists d :: d in domains && r == RefOfDomain(d))
  }

  lemma GrowsReference(r: Reference, init: seq<Website>, last: Website, domains: seq<Domain>)
    requires ReferenceOf(r, init, domains)
    ensures ReferenceOf(r, init + [last], domains)
  {
  }

  ghost predicate HostedBy(x: Text, w: Website, domains: seq<Domain>) {
    exists d :: d in domains && d.websiteId == Some(w.id) && d.id == x
  }

  lemma OwnedGrows(init: seq<Website>, last: Website, domains: seq<Domain>, owned: Website -> bool)
    ensures forall x :: OwnedId(x, init + [last], owned) <==> OwnedId(x, init, owned) || (owned(last) && last.id == x)
    ensures forall x :: OwnedDomainId(x, init + [last], domains, owned) <==>
      OwnedDomainId(x, init, domains, owned) || (owned(last) && HostedBy(x, last, domains))
  {
    forall x ensures OwnedId(x, init + [last], owned) <==> OwnedId(x, init, owned) || (owned(last) && last.id == x) {
      if w :| w in init && owned(w) && w.id == x { assert w in init + [last]; }
      assert last in init + [last];
    }
    forall d: Domain ensures OwnedDomain(d, init + [last], owned) <==>
        OwnedDomain(d, init, owned) || (owned(last) && d.websiteId == Some(last.id)) {}
    forall x
      ensures OwnedDomainId(x, init + [last], domains, owned) <==>
        OwnedDomainId(x, init, domains, owned) || (owned(last) && HostedBy(x, last, domains))
    {
      if OwnedDomainId(x, init + [last], domains, owned) {
        var d :| d in domains && OwnedDomain(d, init + [last], owned) && d.id == x;
        assert OwnedDomain(d, init, owned) || (owned(last) && d.websiteId == Some(last.id));
      }
      if OwnedDomainId(x, init, domains, owned) {
        var d :| d in domains && OwnedDomain(d, init, owned) && d.id == x;
        assert OwnedDomain(d, init + [last], owned);
      }
      if owned(last) && HostedBy(x, last, domains) {
        var d :| d in domains && d.websiteId == Some(last.id) && d.id == x;
        assert OwnedDomain(d, init + [last], owned);
      }
    }
  }

  lemma ConcatDistinct(a: seq<Reference>, b: seq<Reference>)
    requires KeysDistinct(RefKey, a) && KeysDistinct(RefKey, b)
    requires forall x, y | x in a && y in b :: RefKey(x) != RefKey(y)
    ensures KeysDistinct(RefKey, a + b)
  {
    var s := a + b;
    forall i, j | 0 <= i < j < |s| ensures RefKey(s[i]) != RefKey(s[j]) {
      if i < |a| && |a| <= j { assert s[i] == a[i] && s[j] == b[j - |a|]; }
    }
  }

  lemma DomainRefsDistinct(ds: seq<Domain>)
    requires KeysDistinct(DomainId, ds)
    ensures KeysDistinct(RefKey, DomainRefs(ds))
  {
    var r := DomainRefs(ds);
    forall i, j | 0 <= i < j < |r| ensures RefKey(r[i]) != RefKey(r[j]) {
      assert DomainId(ds[i]) != DomainId(ds[j]);
      KeysDiffer(r[i], r[j]);
    }
  }

  /** No reference is met twice: ids are distinct and a domain belongs to one website. */
  lemma {:induction false} TouchSitesDistinct(websites: seq<Website>, domains: seq<Domain>, owned: Website -> bool)
    requires KeysDistinct(WebsiteId, websites) && KeysDistinct(DomainId, domains)
    ensures KeysDistinct(RefKey, TouchSites(websites, domains, owned).references)
  {
    if websites != [] {
      var init, last := websites[..|websites| - 1], websites[|websites| - 1];
      assert forall i | 0 <= i < |init| :: init[i] == websites[i];
      assert KeysDistinct(WebsiteId, init);
      TouchSitesDistinct(init, domains, owned);
      if owned(last) {
        TouchSitesMembers(init, domains, owned);
        DomainsOfMembers(domains, last.id);
        var before, ds := TouchSites(init, domains, owned).references, DomainsOf(domains, last.id);
        DomainRefsDistinct(ds);
        forall x, y | x in before && y in [RefOfWebsite(last)] ensures RefKey(x) != RefKey(y) {
          NotTouchedYet(x, init, last, domains, owned);
        }
        ConcatDistinct(before, [RefOfWebsite(last)]);
        forall x, y | x in before + [RefOfWebsite(last)] && y in DomainRefs(ds) ensures RefKey(x) != RefKey(y) {
          var i :| 0 <= i < |ds| && RefOfDomain(ds[i]) == y;
          assert ds[i] in ds;
          if x in before { NewDomain(x, ds[i], init, last, domains, owned); } else { KeysDiffer(x, y); }
        }
        ConcatDistinct(before + [RefOfWebsite(last)], DomainRefs(ds));
      }
    }
  }

  lemma LastIsNew(init: seq<Website>, last: Website)
    requires KeysDistinct(WebsiteId, init + [last])
    ensures forall w | w in init :: w.id != last.id
  {
    forall w | w in init ensures w.id != last.id {
      var s := init + [last];
      var i :| 0 <= i < |init| && init[i] == w;
      assert WebsiteId(s[i]) != WebsiteId(s[|init|]);
    }
  }

  lemma NotTouchedYet(r: Reference, init: seq<Website>, last: Website, domains: seq<Domain>, owned: Website -> bool)
    requires KeysDistinct(WebsiteId, init + [last]) && RefersTo(r, init, domains, owned)
    ensures RefKey(r) != RefKey(RefOfWebsite(last))
  {
    LastIsNew(init, last);
    KeysDiffer(r, RefOfWebsite(last));
  }

  lemma NewDomain(r: Reference, d: Domain, init: seq<Website>, last: Website, domains: seq<Domain>,
                  owned: Website -> bool)
    requires KeysDistinct(WebsiteId, init + [last]) && KeysDistinct(DomainId, domains)
    requires d in domains && d.websiteId == Some(last.id) && RefersTo(r, init, domains, owned)
    ensures RefKey(r) != RefKey(RefOfDomain(d))
  {
    LastIsNew(init, last);
    if r.kind.DomainRef? {
      var e :| e in domains && OwnedDomain(e, init, owned) && e.id == r.id;
      DifferentDomains(domains, d, e);
    }
    KeysDiffer(r, RefOfDomain(d));
  }

  lemma DifferentDomains(domains: seq<Domain>, d: Domain, e: Domain)
    requires KeysDistinct(DomainId, domains) && d in domains && e in domains && d != e
    ensures d.id != e.id
  {
    var i :| 0 <= i < |domains| && domains[i] == d;
    var j :| 0 <= j < |domains| && domains[j] == e;
    var low, high := if i < j then i else j, if i < j then j else i;
    assert DomainId(domains[low]) != DomainId(domains[high]);
  }

  // ---- impacts are what is reachable -----------------------------------------

  /**
   The website owns the resource: it runs the application, mounts the project, is bound to the
   database, or serves the mail's domain.
   */
  ghost predicate Owns(w: Website, s: Subject, v: Inventory) {
    match s
    case ApplicationSubject(id) => w.applicationId == Some(id)
    case StorageSubject(id) => w.projectId == Some(id)
    case DatabaseSubject(name) => exists b ::
        b in v.bindings && Lower(b.databaseName) == Lower(name) && b.websiteId == w.id
    case MailSubject(id, _, _) => exists d :: d in v.domains && Serves(d, id, v) && d.websiteId == Some(w.id)
  }

  ghost predicate Serves(d: Domain, mailDomainId: Text, v: Inventory) {
    exists m :: m in v.mailDomains && m.id == mailDomainId && m.webDomainId == Some(d.id)
  }

  /** The domain is affected: it is the mail's own domain, or sits on a website that owns the resource. */
  ghost predicate Affects(d: Domain, s: Subject, v: Inventory) {
    if s.MailSubject? then Serves(d, s.mailDomainId, v)
    else exists w :: w in v.websites && Owns(w, s, v) && d.websiteId == Some(w.id)
  }

  ghost predicate ExactSites(t: Touched, s: Subject, v: Inventory) {
    forall x :: x in t.websiteIds <==> exists w :: w in v.websites && Owns(w, s, v) && w.id == x
  }

  ghost predicate ExactDomains(t: Touched, s: Subject, v: Inventory) {
    forall x :: x in t.domainIds <==> exists d :: d in v.domains && Affects(d, s, v) && d.id == x
  }

  /** All bindings of the database name one website. */
  ghost predicate OneSite(name: Text, v: Inventory) {
    forall a, b | a in v.bindings && b in v.bindings && Lower(a.databaseName) == Lower(name)
        && Lower(b.databaseName) == Lower(name) ::
      a.websiteId == b.websiteId
  }

  lemma SitesExact(s: Subject, v: Inventory, owned: Website -> bool)
    requires s.ApplicationSubject? || s.StorageSubject?
    requires forall w: Website :: owned(w) <==> Owns(w, s, v)
    ensures var t := TouchSites(v.websites, v.domains, owned); ExactSites(t, s, v) && ExactDomains(t, s, v)
  {
    TouchSitesMembers(v.websites, v.domains, owned);
    var t := TouchSites(v.websites, v.domains, owned);
    forall x ensures x in t.domainIds <==> exists d :: d in v.domains && Affects(d, s, v) && d.id == x {
      if OwnedDomainId(x, v.websites, v.domains, owned) {
        var d :| d in v.domains && OwnedDomain(d, v.websites, owned) && d.id == x;
        assert Affects(d, s, v);
      }
      if d: Domain :| d in v.domains && Affects(d, s, v) && d.id == x {
        assert OwnedDomain(d, v.websites, owned);
      }
    }
  }

  lemma {:induction false} FindsBinding(bindings: seq<Binding>, name: Text)
    ensures FindBinding(bindings, name).Some? ==>
        FindBinding(bindings, name).value in bindings
        && Lower(FindBinding(bindings, name).value.databaseName) == Lower(name)
    ensures FindBinding(bindings, name).None? ==> forall b | b in bindings :: Lower(b.databaseName) != Lower(name)
  {
    if bindings != [] { FindsBinding(bindings[1..], name); }
  }

  lemma {:induction false} FindsWebsite(websites: seq<Website>, w: Website)
    requires KeysDistinct(WebsiteId, websites) && w in websites
    ensures FindWebsite(websites, w.id) == Some(w)
  {
    if websites[0] != w {
      var i :| 0 <= i < |websites| && websites[i] == w;
      assert WebsiteId(websites[0]) != WebsiteId(websites[i]);
      assert websites[1..][i - 1] == w;
      assert forall i, j | 0 <= i < j < |websites[1..]| ::
          websites[1..][i] == websites[i + 1] && websites[1..][j] == websites[j + 1];
      FindsWebsite(websites[1..], w);
    }
  }

  lemma {:induction false} FindsMail(ms: seq<MailDomain>, m: MailDomain)
    requires KeysDistinct(MailDomainId, ms) && m in ms
    ensures FindMailDomain(ms, m.id) == Some(m)
  {
    if ms[0] != m {
      var i :| 0 <= i < |ms| && ms[i] == m;
      assert MailDomainId(ms[0]) != MailDomainId(ms[i]);
      assert ms[1..][i - 1] == m;
      assert forall i, j | 0 <= i < j < |ms[1..]| :: ms[1..][i] == ms[i + 1] && ms[1..][j] == ms[j + 1];
      FindsMail(ms[1..], m);
    }
  }

  lemma {:induction false} FindsDomain(ds: seq<Domain>, d: Domain)
    requires KeysDistinct(DomainId, ds) && d in ds
    ensures FindDomain(ds, d.id) == Some(d)
  {
    if ds[0] != d {
      var i :| 0 <= i < |ds| && ds[i] == d;
      assert DomainId(ds[0]) != DomainId(ds[i]);
      assert ds[1..][i - 1] == d;
      assert forall i, j | 0 <= i < j < |ds[1..]| :: ds[1..][i] == ds[i + 1] && ds[1..][j] == ds[j + 1];
      FindsDomain(ds[1..], d);
    }
  }

  /**
   A database's impact is exact if and only if all its bindings agree on the website: only the first
   one is looked at.
   */
  lemma DatabaseExact(name: Text, v: Inventory)
    requires Ready(v)
    ensures TouchedBy(DatabaseSubject(name), v).Some?
    ensures var t := TouchedBy(DatabaseSubject(name), v).value;
        ExactSites(t, DatabaseSubject(name), v) <==> OneSite(name, v)
    ensures var t := TouchedBy(DatabaseSubject(name), v).value;
        OneSite(name, v) ==> ExactDomains(t, DatabaseSubject(name), v)
  {
    FindsBinding(v.bindings, name);
    IncreasingKeysDistinct(WebsiteId, v.websites);
    var s, t := DatabaseSubject(name), TouchedBy(DatabaseSubject(name), v);
    var first := FindBinding(v.bindings, name);
    if first.Some? {
      var site := FindWebsite(v.websites, first.value.websiteId).value;
      assert t.value.websiteIds == [site.id] by { assert BindingCurrent(first.value, v.websites); }
      assert Owns(site, s, v);
      if OneSite(name, v) {
        forall w | w in v.websites && Owns(w, s, v) ensures w == site { FindsWebsite(v.websites, w); }
        DomainsOfMembers(v.domains, site.id);
        DatabaseDomains(v, s, site, t.value);
      } else {
        var a, b :| a in v.bindings && b in v.bindings && Lower(a.databaseName) == Lower(name)
            && Lower(b.databaseName) == Lower(name) && a.websiteId != b.websiteId;
        var other := if a.websiteId != site.id then a else b;
        assert BindingCurrent(other, v.websites);
        var w := FindWebsite(v.websites, other.websiteId).value;
        assert Owns(w, s, v) && w.id !in t.value.websiteIds;
      }
    }
  }

  lemma DatabaseDomains(v: Inventory, s: Subject, site: Website, t: Touched)
    requires s.DatabaseSubject? && site in v.websites && Owns(site, s, v) && forall w | w in v.websites
        && Owns(w, s, v) :: w == site
    requires t.domainIds == [] + DomainIds(DomainsOf(v.domains, site.id))
    ensures ExactDomains(t, s, v)
  {
    var ds := DomainsOf(v.domains, site.id);
    DomainsOfMembers(v.domains, site.id);
    forall x ensures x in t.domainIds <==> exists d :: d in v.domains && Affects(d, s, v) && d.id == x {
      if x in t.domainIds {
        var i :| 0 <= i < |ds| && ds[i].id == x;
        assert ds[i] in ds && Affects(ds[i], s, v);
      }
      if d: Domain :| d in v.domains && Affects(d, s, v) && d.id == x {
        assert d in ds;
        var i :| 0 <= i < |ds| && ds[i] == d;
        assert DomainIds(ds)[i] == x;
      }
    }
  }

  lemma MailExact(s: Subject, v: Inventory)
    requires Ready(v) && s.MailSubject? && TouchedBy(s, v).Some?
    ensures ExactSites(TouchedBy(s, v).value, s, v) && ExactDomains(TouchedBy(s, v).value, s, v)
  {
    IncreasingKeysDistinct(WebsiteId, v.websites);
    IncreasingKeysDistinct(DomainId, v.domains);
    IncreasingKeysDistinct(MailDomainId, v.mailDomains);
    var t := TouchedBy(s, v).value;
    var mail := FindMailDomain(v.mailDomains, s.mailDomainId).value;
    var domain := FindDomain(v.domains, mail.webDomainId.value).value;
    forall m | m in v.mailDomains && m.id == s.mailDomainId ensures m == mail { FindsMail(v.mailDomains, m); }
    forall d | d in v.domains && Serves(d, s.mailDomainId, v) ensures d == domain { FindsDomain(v.domains, d); }
    assert Serves(domain, s.mailDomainId, v);
    assert Affects(domain, s, v);
    if domain.websiteId.Some? {
      var site := FindWebsite(v.websites, domain.websiteId.value).value;
      assert Owns(site, s, v);
    }
  }

  /**
   The impact of every resource is exactly what it can reach through the ownership relations;
   for a database, if and only if all its bindings name one website.
   */
  lemma ImpactsAreReachability(s: Subject, v: Inventory)
    requires Ready(v) && TouchedBy(s, v).Some?
    ensures var t := TouchedBy(s, v).value; ExactSites(t, s, v) <==> (s.DatabaseSubject? ==> OneSite(s.databaseName, v))
    ensures var t := TouchedBy(s, v).value;
        (s.DatabaseSubject? ==> OneSite(s.databaseName, v)) ==> ExactDomains(t, s, v)
  {
    match s
    case ApplicationSubject(id) => SitesExact(s, v, Runs(id));
    case StorageSubject(id) => SitesExact(s, v, Mounts(id));
    case DatabaseSubject(name) => DatabaseExact(name, v);
    case MailSubject(_, _, _) => MailExact(s, v);
  }

  /** A database bound to two websites: the second one is missing from its impact. */
  lemma SecondBindingIsMissed(v: Inventory, name: Text, a: Binding, b: Binding)
    requires Ready(v) && a in v.bindings && b in v.bindings && a.websiteId != b.websiteId
    requires Lower(a.databaseName) == Lower(name) && Lower(b.databaseName) == Lower(name)
    ensures TouchedBy(DatabaseSubject(name), v).Some?
    ensures exists w ::
        w in v.websites && Owns(w, DatabaseSubject(name), v)
        && w.id !in TouchedBy(DatabaseSubject(name), v).value.websiteIds
  {
    FindsBinding(v.bindings, name);
    var first := FindBinding(v.bindings, name).value;
    assert BindingCurrent(first, v.websites) && BindingCurrent(a, v.websites) && BindingCurrent(b, v.websites);
    var other := if a.websiteId != first.websiteId then a else b;
    assert Owns(FindWebsite(v.websites, other.websiteId).value, DatabaseSubject(name), v);
  }

  // ---- no duplicate references -----------------------------------------------

  lemma DatabaseRefsDistinct(b: Binding, w: Website, ds: seq<Domain>)
    requires KeysDistinct(DomainId, ds)
    ensures KeysDistinct(RefKey, [RefOfBinding(b)] + [RefOfWebsite(w)] + DomainRefs(ds))
  {
    var head := [RefOfBinding(b)] + [RefOfWebsite(w)];
    KeysDiffer(RefOfBinding(b), RefOfWebsite(w));
    DomainRefsDistinct(ds);
    forall x, y | x in head && y in DomainRefs(ds) ensures RefKey(x) != RefKey(y) { KeysDiffer(x, y); }
    ConcatDistinct(head, DomainRefs(ds));
  }

  /** The error for duplicated references cannot be reached. */
  lemma ReferencesDistinct(s: Subject, v: Inventory)
    requires Ready(v) && TouchedBy(s, v).Some?
    ensures KeysDistinct(RefKey, TouchedBy(s, v).value.references)
  {
    IncreasingKeysDistinct(WebsiteId, v.websites);
    IncreasingKeysDistinct(DomainId, v.domains);
    match s
    case ApplicationSubject(id) => TouchSitesDistinct(v.websites, v.domains, Runs(id));
    case StorageSubject(id) => TouchSitesDistinct(v.websites, v.domains, Mounts(id));
    case DatabaseSubject(name) =>
      var b := FindBinding(v.bindings, name);
      if b.Some? {
        var w := FindWebsite(v.websites, b.value.websiteId).value;
        DomainsOfMembers(v.domains, w.id);
        DatabaseRefsDistinct(b.value, w, DomainsOf(v.domains, w.id));
      }
    case MailSubject(id, _, _) =>
      var refs := TouchedBy(s, v).value.references;
      KeysDiffer(refs[0], refs[1]);
      if |refs| == 3 { KeysDiffer(refs[0], refs[2]); KeysDiffer(refs[1], refs[2]); }
  }

  // ---- createBackupPlan re-reads the graph -----------------------------------

  lemma UniqueSortedOk(values: seq<Text>)
    ensures var u := UniqueSorted(values);
        Increasing(u) && NoDuplicates(u) && Sort(u) == u && forall x :: x in u <==> x in values
  {
    var d := Distinct(values);
    SortSorts(d);
    IncreasingDistinct(UniqueSorted(values));
    SortKeepsSorted(UniqueSorted(values));
    forall x ensures x in UniqueSorted(values) <==> x in values { assert x in multiset(Sort(d)) <==> x in multiset(d); }
  }

  lemma SiteRefsOk(v: Inventory, owned: Website -> bool)
    requires WellRead(v)
    ensures forall r | r in TouchSites(v.websites, v.domains, owned).references :: ReferenceOk(r)
  {
    TouchSitesMembers(v.websites, v.domains, owned);
  }

  lemma ReferencesOk(s: Subject, v: Inventory)
    requires Ready(v) && TouchedBy(s, v).Some?
    ensures forall r | r in TouchedBy(s, v).value.references :: ReferenceOk(r)
  {
    match s
    case ApplicationSubject(id) => SiteRefsOk(v, Runs(id));
    case StorageSubject(id) => SiteRefsOk(v, Mounts(id));
    case DatabaseSubject(name) =>
      FindsBinding(v.bindings, name);
      var b := FindBinding(v.bindings, name);
      if b.Some? {
        var w := FindWebsite(v.websites, b.value.websiteId).value;
        var ds := DomainsOf(v.domains, w.id);
        DomainsOfMembers(v.domains, w.id);
        forall r | r in DomainRefs(ds) ensures ReferenceOk(r) {
          var i :| 0 <= i < |ds| && RefOfDomain(ds[i]) == r;
          assert ds[i] in ds;
        }
      }
    case MailSubject(_, _, _) =>
  }

  lemma SiteIdsOk(v: Inventory, owned: Website -> bool)
    requires WellRead(v)
    ensures forall x | x in TouchSites(v.websites, v.domains, owned).websiteIds :: |x| == 36
    ensures forall x | x in TouchSites(v.websites, v.domains, owned).domainIds :: |x| == 36
  {
    TouchSitesMembers(v.websites, v.domains, owned);
  }

  lemma TouchedIdsOk(s: Subject, v: Inventory)
    requires Ready(v) && TouchedBy(s, v).Some?
    ensures forall x | x in TouchedBy(s, v).value.websiteIds :: |x| == 36
    ensures forall x | x in TouchedBy(s, v).value.domainIds :: |x| == 36
  {
    match s
    case ApplicationSubject(id) => SiteIdsOk(v, Runs(id));
    case StorageSubject(id) => SiteIdsOk(v, Mounts(id));
    case DatabaseSubject(name) =>
      var b := FindBinding(v.bindings, name);
      if b.Some? {
        var w := FindWebsite(v.websites, b.value.websiteId).value;
        DomainsOfMembers(v.domains, w.id);
        var ds := DomainsOf(v.domains, w.id);
        forall x | x in DomainIds(ds) ensures |x| == 36 {
          var i :| 0 <= i < |ds| && ds[i].id == x;
          assert ds[i] in ds;
        }
      }
    case MailSubject(_, _, _) =>
  }

  lemma {:induction false} KindFound(es: seq<Entry>, e: Entry)
    requires KeysDistinct(EntryIdentity, es) && e in es
    ensures KindIn(es, e.identity) == Some(e.kind)
  {
    if es[0] != e {
      var i :| 0 <= i < |es| && es[i] == e;
      assert EntryIdentity(es[0]) != EntryIdentity(es[i]);
      assert es[1..][i - 1] == e;
      assert forall i, j | 0 <= i < j < |es[1..]| :: es[1..][i] == es[i + 1] && es[1..][j] == es[j + 1];
      KindFound(es[1..], e);
    }
  }

  /**
   An impact is built exactly when its mail domain, if it is about mail, is still there; and it
   re-reads unchanged.
   */
  lemma ImpactAccepted(r: Resource, v: Inventory, es: seq<Entry>)
    requires Ready(v) && KeysDistinct(EntryIdentity, es) && EntryOf(r) in es
    ensures ImpactOf(r, v) != Err(ReferenceDuplicate)
    ensures ImpactOf(r, v).Ok? ==> NormalizeImpact(ImpactOf(r, v).value, es) == Some(ImpactOf(r, v).value)
  {
    if TouchedBy(r.subject, v).Some? {
      var t := TouchedBy(r.subject, v).value;
      ReferencesDistinct(r.subject, v);
      ReferencesOk(r.subject, v);
      TouchedIdsOk(r.subject, v);
      UniqueSortedOk(t.websiteIds);
      UniqueSortedOk(t.domainIds);
      KindFound(es, EntryOf(r));
      SortBySorts(RefKey, t.references);
      SortByKeepsSorted(RefKey, SortBy(RefKey, t.references));
      IncreasingKeysDistinct(RefKey, SortBy(RefKey, t.references));
      forall x | x in SortBy(RefKey, t.references) ensures ReferenceOk(x) {
        assert x in multiset(SortBy(RefKey, t.references));
      }
    }
  }

  lemma {:induction false} ImpactsPointwise(rs: seq<Resource>, v: Inventory)
    requires Impacts(rs, v).Ok?
    ensures |Impacts(rs, v).value| == |rs|
    ensures forall i | 0 <= i < |rs| :: ImpactOf(rs[i], v) == Ok(Impacts(rs, v).value[i])
  {
    if rs != [] { ImpactsPointwise(rs[..|rs| - 1], v); }
  }

  lemma {:induction false} ImpactsFixed(impacts: seq<Impact>, es: seq<Entry>)
    requires forall i | 0 <= i < |impacts| :: NormalizeImpact(impacts[i], es) == Some(impacts[i])
    ensures NormalizeImpacts(impacts, es) == Some(impacts)
  {
    if impacts != [] {
      var rest := impacts[1..];
      assert forall i | 0 <= i < |rest| :: rest[i] == impacts[i + 1];
      ImpactsFixed(rest, es);
      assert NormalizeImpact(impacts[0], es) == Some(impacts[0]);
      assert impacts == [impacts[0]] + rest;
    }
  }

  /** The plan's resources, as far as the reader looks at them, are those the graph was made for, in any order. */
  ghost predicate Covers(es: seq<Entry>, rs: seq<Resource>) {
    KeysDistinct(EntryIdentity, es) && |es| == |rs| && forall r | r in rs :: EntryOf(r) in es
  }

  /** Producer and consumer agree: the graph is accepted unchanged, counts included. */
  lemma GraphAccepted(serverId: Text, raw: Inventory, es: seq<Entry>)
    requires DependencyGraphOf(serverId, raw).Ok? && Covers(es, raw.resources)
    ensures NormalizeGraph(DependencyGraphOf(serverId, raw).value, es, Lower(serverId))
        == Some(DependencyGraphOf(serverId, raw).value)
  {
    PrepareReady(Lower(serverId), raw);
    var v := Prepare(Lower(serverId), raw).value;
    PreparedResources(Lower(serverId), raw);
    SortBySorts(Identity, raw.resources);
    forall r | r in v.resources ensures EntryOf(r) in es { assert r in multiset(v.resources); }
    ImpactsAccepted(v, es);
    ImpactsPointwise(v.resources, v);
  }

  lemma ImpactsAccepted(v: Inventory, es: seq<Entry>)
    requires Ready(v) && Covers(es, v.resources) && Impacts(v.resources, v).Ok?
    ensures var impacts := Impacts(v.resources, v).value;
      && NormalizeImpacts(impacts, es) == Some(impacts)
      && SortBy(ImpactIdentity, impacts) == impacts && KeysDistinct(ImpactIdentity, impacts)
  {
    var impacts := Impacts(v.resources, v).value;
    ImpactsPointwise(v.resources, v);
    forall i | 0 <= i < |impacts|
        ensures NormalizeImpact(impacts[i], es) == Some(impacts[i])
            && ImpactIdentity(impacts[i]) == Identity(v.resources[i]) {
      ImpactAccepted(v.resources[i], v, es);
    }
    ImpactsFixed(impacts, es);
    forall i, j | 0 <= i < j < |impacts| ensures Before(ImpactIdentity(impacts[i]), ImpactIdentity(impacts[j])) {
      assert Before(Identity(v.resources[i]), Identity(v.resources[j]));
    }
    SortByKeepsSorted(ImpactIdentity, impacts);
    IncreasingKeysDistinct(ImpactIdentity, impacts);
  }

  lemma PreparedResources(serverId: Text, raw: Inventory)
    requires Prepare(serverId, raw).Ok?
    ensures Prepare(serverId, raw).value.resources == SortBy(Identity, raw.resources)
  {
  }
}
