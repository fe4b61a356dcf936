/**
 The database binding registry, which binds each database of a server once, and what that means for
 the dependency graph.
 */
module DatabaseBindings {
  import opened Common
  import opened Texts
  import opened Ordering
  import opened DependencyGraph
  import opened DependencyGraphTheorems

  datatype Refusal = NameInvalid | OwnershipRefused | NotConfirmed | AlreadyBound | NotFound | RevisionChanged

  /** What resolveOwnership finds of the website and its application; a site user is not part of this model. */
  datatype Ownership = Ownership(serverId: Text, websiteId: Text, applicationId: Text)

  predicate SameDatabase(a: Binding, b: Binding) {
    a.serverId == b.serverId && Lower(a.databaseName) == Lower(b.databaseName)
  }

  ghost predicate BoundOnce(bs: seq<Binding>) { forall i, j | 0 <= i < j < |bs| :: !SameDatabase(bs[i], bs[j]) }

  predicate Binds(b: Binding, name: Text, o: Ownership) {
    b.databaseName == name && o == Ownership(b.serverId, b.websiteId, b.applicationId)
  }

  /**
   The database, whatever the case of its name, is bound on this server to another owner or under
   another spelling.
   */
  predicate TakenByOther(bs: seq<Binding>, name: Text, o: Ownership) {
    exists i | 0 <= i < |bs| ::
        bs[i].serverId == o.serverId && Lower(bs[i].databaseName) == Lower(name) && !Binds(bs[i], name, o)
  }

  class Registry {
    var bindings: seq<Binding>

    constructor ()
      ensures bindings == [] && Valid()
    {
      bindings := [];
    }

    ghost predicate Valid()
      reads this
    {
      BoundOnce(bindings)
    }

    method FindDatabase(serverId: Text, name: Text) returns (k: Option<nat>)
      ensures k.Some? ==>
          k.value < |bindings| && bindings[k.value].serverId == serverId
          && Lower(bindings[k.value].databaseName) == Lower(name)
      ensures k.None? ==> forall i | 0 <= i < |bindings| ::
          bindings[i].serverId != serverId || Lower(bindings[i].databaseName) != Lower(name)
    {
      for i := 0 to |bindings|
        invariant forall j | 0 <= j < i ::
            bindings[j].serverId != serverId || Lower(bindings[j].databaseName) != Lower(name)
      {
        if bindings[i].serverId == serverId && Lower(bindings[i].databaseName) == Lower(name) { return Some(i); }
      }
      return None;
    }

    /** A database is bound if it was free, returned if it is bound to the same owner already, and refused otherwise. */
    method BindDatabase(name: Text, owner: Option<Ownership>, confirmed: bool, id: Text)
        returns (result: Result<Binding, Refusal>)
      requires Valid()
      modifies this
      ensures Valid()
      ensures result.Ok? <==>
          IsDatabaseName(name) && owner.Some? && confirmed && !TakenByOther(old(bindings), name, owner.value)
      ensures result.Ok? ==> Binds(result.value, name, owner.value) && result.value in bindings
      ensures result.Ok? && result.value !in old(bindings) ==>
        bindings == old(bindings) + [result.value] && result.value.id == id && result.value.revision == 1
      ensures result.Err? || result.value in old(bindings) ==> bindings == old(bindings)
      ensures result == Err(AlreadyBound) <==>
        IsDatabaseName(name) && owner.Some? && confirmed && TakenByOther(old(bindings), name, owner.value)
    {
      if !IsDatabaseName(name) { return Err(NameInvalid); }
      if owner.None? { return Err(OwnershipRefused); }
      if !confirmed { return Err(NotConfirmed); }
      var o := owner.value;
      var k := FindDatabase(o.serverId, name);
      if k.Some? {
        var existing := bindings[k.value];
        if existing.websiteId == o.websiteId && existing.applicationId == o.applicationId
            && existing.databaseName == name {
          return Ok(existing);
        }
        assert !Binds(existing, name, o);
        return Err(AlreadyBound);
      }
      var added := Binding(id, o.serverId, 1, name, o.websiteId, o.applicationId);
      bindings := bindings + [added];
      return Ok(added);
    }

    method UnbindDatabase(id: Text, expectedRevision: int, confirmed: bool) returns (error: Option<Refusal>)
      requires Valid()
      modifies this
      ensures Valid()
      ensures error.Some? ==> bindings == old(bindings)
      ensures error.None? ==> exists k ::
          0 <= k < |old(bindings)| && Removed(old(bindings), k, id, expectedRevision, bindings)
      ensures error.None? <==> confirmed && exists k ::
          0 <= k < |old(bindings)| && FirstOf(old(bindings), k, id) && old(bindings)[k].revision == expectedRevision
      ensures error == Some(NotFound) <==> forall k | 0 <= k < |old(bindings)| :: old(bindings)[k].id != id
    {
      var k := 0;
      while k < |bindings| && bindings[k].id != id
        invariant k <= |bindings| && forall j | 0 <= j < k :: bindings[j].id != id
      {
        k := k + 1;
      }
      if k == |bindings| { return Some(NotFound); }
      assert FirstOf(bindings, k, id);
      if bindings[k].revision != expectedRevision { return Some(RevisionChanged); }
      if !confirmed { return Some(NotConfirmed); }
      bindings := bindings[..k] + bindings[k + 1..];
      assert Removed(old(bindings), k, id, expectedRevision, bindings);
      return None;
    }

    /** init: what a restart accepts. `usable` says that a record is well formed and its references are not stale. */
    method Reload(file: seq<Binding>, usable: Binding -> bool) returns (ok: bool)
      modifies this
      ensures ok <==> Loadable(file, usable)
      ensures bindings == if ok then file else old(bindings)
    {
      var ids: set<Text>, databases: set<(Text, Text)> := {}, {};
      for i := 0 to |file|
        invariant bindings == old(bindings)
        invariant forall x :: x in ids <==> exists j :: 0 <= j < i && file[j].id == x
        invariant forall d ::
            d in databases <==> exists j :: 0 <= j < i && (file[j].serverId, Lower(file[j].databaseName)) == d
        invariant forall j, k | 0 <= j < k < i :: file[j].id != file[k].id && !SameDatabase(file[j], file[k])
        invariant forall j | 0 <= j < i :: usable(file[j])
      {
        var database := (file[i].serverId, Lower(file[i].databaseName));
        if file[i].id in ids || database in databases || !usable(file[i]) {
          return false;
        }
        ids, databases := ids + {file[i].id}, databases + {database};
      }
      bindings := file;
      return true;
    }
  }

  ghost predicate Loadable(file: seq<Binding>, usable: Binding -> bool) {
    && BoundOnce(file) && (forall i, j | 0 <= i < j < |file| :: file[i].id != file[j].id)
    && (forall i | 0 <= i < |file| :: usable(file[i]))
  }

  predicate FirstOf(bs: seq<Binding>, k: nat, id: Text)
    requires k < |bs|
  {
    bs[k].id == id && forall j | 0 <= j < k :: bs[j].id != id
  }

  predicate Removed(bs: seq<Binding>, k: nat, id: Text, revision: int, rest: seq<Binding>)
    requires k < |bs|
  {
    FirstOf(bs, k, id) && bs[k].revision == revision && rest == bs[..k] + bs[k + 1..]
  }

  // ---- a registry's bindings in an inventory ---------------------------------

  lemma PreparedBinding(serverId: Text, raw: Inventory, b: Binding) returns (o: Binding)
    requires Prepare(serverId, raw).Ok? && b in Prepare(serverId, raw).value.bindings
    ensures o in raw.bindings && o.serverId == serverId && ReadBinding(o) == Some(b)
  {
    var keep := (x: Binding) => x.serverId == serverId;
    var bindings := PreparedBindings(serverId, raw);
    SortBySorts(BindingId, bindings);
    assert b in multiset(SortBy(BindingId, bindings));
    assert b in multiset(bindings);
    assert ReadAll(keep, ReadBinding, raw.bindings) == Some(bindings);
    assert b in bindings;
    ReadAllFrom(keep, ReadBinding, raw.bindings);
    o :| o in raw.bindings && keep(o) && ReadBinding(o) == Some(b);
  }

  lemma PreparedBindings(serverId: Text, raw: Inventory) returns (bindings: seq<Binding>)
    requires Prepare(serverId, raw).Ok?
    ensures ReadAll((x: Binding) => x.serverId == serverId, ReadBinding, raw.bindings) == Some(bindings)
    ensures Prepare(serverId, raw).value.bindings == SortBy(BindingId, bindings)
  {
    bindings := ReadAll((b: Binding) => b.serverId == serverId, ReadBinding, raw.bindings).value;
  }

  /** The registry's bindings name one website for each database. */
  lemma BoundOnceIsOneSite(serverId: Text, raw: Inventory, name: Text)
    requires Prepare(serverId, raw).Ok? && BoundOnce(raw.bindings)
    ensures OneSite(name, Prepare(serverId, raw).value)
  {
    var v := Prepare(serverId, raw).value;
    forall a, b | a in v.bindings && b in v.bindings && Lower(a.databaseName) == Lower(name)
        && Lower(b.databaseName) == Lower(name)
      ensures a.websiteId == b.websiteId
    {
      var x := PreparedBinding(serverId, raw, a);
      var y := PreparedBinding(serverId, raw, b);
      var i :| 0 <= i < |raw.bindings| && raw.bindings[i] == x;
      var j :| 0 <= j < |raw.bindings| && raw.bindings[j] == y;
      assert SameDatabase(x, y);
      assert i == j;
    }
  }

  // ---- what a produced graph says --------------------------------------------

  /** The impact lists exactly the websites that own the resource and the domains it affects. */
  ghost predicate Complete(i: Impact, s: Subject, v: Inventory) {
    && (forall x :: x in i.websiteIds <==> exists w :: w in v.websites && Owns(w, s, v) && w.id == x)
    && (forall x :: x in i.domainIds <==> exists d :: d in v.domains && Affects(d, s, v) && d.id == x)
  }

  lemma CompleteIff(r: Resource, v: Inventory)
    requires Ready(v) && ImpactOf(r, v).Ok?
    ensures Complete(ImpactOf(r, v).value, r.subject, v) <==>
        (r.subject.DatabaseSubject? ==> OneSite(r.subject.databaseName, v))
  {
    var t := TouchedBy(r.subject, v).value;
    UniqueSortedOk(t.websiteIds);
    UniqueSortedOk(t.domainIds);
    ImpactsAreReachability(r.subject, v);
  }

  /** The impact of each resource in a produced graph is complete, except for a database bound on two websites. */
  lemma GraphIsReachability(serverId: Text, raw: Inventory)
    requires DependencyGraphOf(serverId, raw).Ok?
    ensures Prepare(Lower(serverId), raw).Ok?
    ensures var v, g := Prepare(Lower(serverId), raw).value, DependencyGraphOf(serverId, raw).value;
      |g.impacts| == |v.resources|
      && forall i | 0 <= i < |v.resources| ::
           (Complete(g.impacts[i], v.resources[i].subject, v)
            <==> (v.resources[i].subject.DatabaseSubject? ==> OneSite(v.resources[i].subject.databaseName, v)))
  {
    PrepareReady(Lower(serverId), raw);
    var v, g := Prepare(Lower(serverId), raw).value, DependencyGraphOf(serverId, raw).value;
    ImpactsPointwise(v.resources, v);
    forall i | 0 <= i < |v.resources|
      ensures Complete(g.impacts[i], v.resources[i].subject, v)
              <==> (v.resources[i].subject.DatabaseSubject? ==> OneSite(v.resources[i].subject.databaseName, v))
    {
      CompleteIff(v.resources[i], v);
    }
  }

  /** With bindings from the registry every impact of every resource is complete. */
  lemma RegistryGraphIsComplete(serverId: Text, raw: Inventory)
    requires DependencyGraphOf(serverId, raw).Ok? && BoundOnce(raw.bindings)
    ensures Prepare(Lower(serverId), raw).Ok?
    ensures var v, g := Prepare(Lower(serverId), raw).value, DependencyGraphOf(serverId, raw).value;
      |g.impacts| == |v.resources| && forall i | 0 <= i < |v.resources| ::
      Complete(g.impacts[i], v.resources[i].subject, v)
  {
    GraphIsReachability(serverId, raw);
    var v := Prepare(Lower(serverId), raw).value;
    forall i | 0 <= i < |v.resources| && v.resources[i].subject.DatabaseSubject?
      ensures OneSite(v.resources[i].subject.databaseName, v)
    {
      BoundOnceIsOneSite(Lower(serverId), raw, v.resources[i].subject.databaseName);
    }
  }

  // ---- bindings from elsewhere -----------------------------------------------

  lemma {:induction false} ReadAllKeeps<T(!new)>(keep: T -> bool, read: T -> Option<T>, s: seq<T>)
    requires forall x | x in s :: keep(x) && read(x) == Some(x)
    ensures ReadAll(keep, read, s) == Some(s)
  {
    if s != [] {
      ReadAllKeeps(keep, read, s[1..]);
      assert s == [s[0]] + s[1..];
    }
  }

  /** Inventories without mail, already read and sorted. */
  ghost predicate Tidy(serverId: Text, v: Inventory) {
    && v.domains == [] && v.mailDomains == [] && |v.resources| <= MAX_ITEMS && |v.websites| <= MAX_ITEMS
        && |v.bindings| <= MAX_ITEMS
    && (forall r | r in v.resources :: ResourceOk(r, serverId) && !r.subject.MailSubject?)
        && KeysIncrease(Identity, v.resources)
    && (forall w | w in v.websites :: w.serverId == serverId && ReadWebsite(w) == Some(w) && SiteOwned(w, v.resources))
    && KeysIncrease(WebsiteId, v.websites)
    && (forall b | b in v.bindings :: b.serverId == serverId && ReadBinding(b) == Some(b))
        && KeysIncrease(BindingId, v.bindings)
    && BindingError(v.bindings, v).None?
  }

  lemma TidyStays(serverId: Text, v: Inventory)
    requires Tidy(serverId, v)
    ensures Prepare(serverId, v) == Ok(v)
  {
    ReadAllKeeps((w: Website) => w.serverId == serverId, ReadWebsite, v.websites);
    ReadAllKeeps((b: Binding) => b.serverId == serverId, ReadBinding, v.bindings);
    SortByKeepsSorted(Identity, v.resources);
    SortByKeepsSorted(WebsiteId, v.websites);
    SortByKeepsSorted(BindingId, v.bindings);
    IncreasingKeysDistinct(Identity, v.resources);
    IncreasingKeysDistinct(WebsiteId, v.websites);
    IncreasingKeysDistinct(BindingId, v.bindings);
    TidyBindings(serverId, v);
  }

  lemma TidyBindings(serverId: Text, v: Inventory)
    requires Tidy(serverId, v)
    requires ReadAll((b: Binding) => b.serverId == serverId, ReadBinding, v.bindings) == Some(v.bindings)
    requires SortBy(BindingId, v.bindings) == v.bindings && KeysDistinct(BindingId, v.bindings)
    requires SortBy(Identity, v.resources) == v.resources
    ensures PrepareDomains(serverId, v, v) == Ok(v)
  {
    assert PrepareMail(v, v) == Ok(v);
    assert PrepareBindings(serverId, v, v) == Ok(v);
  }

  /** Without mail every resource has its impact, so the graph is produced. */
  lemma {:induction false} ImpactsProduced(rs: seq<Resource>, v: Inventory)
    requires Ready(v) && forall r | r in rs :: !r.subject.MailSubject?
    ensures Impacts(rs, v).Ok?
  {
    if rs != [] {
      var last := rs[|rs| - 1];
      ImpactsProduced(rs[..|rs| - 1], v);
      if last.subject.DatabaseSubject? { DatabaseExact(last.subject.databaseName, v); }
      ReferencesDistinct(last.subject, v);
    }
  }

  lemma TidyGraph(serverId: Text, v: Inventory)
    requires IsUuid(serverId) && Lower(serverId) == serverId && Tidy(serverId, v)
    ensures DependencyGraphOf(serverId, v).Ok?
  {
    TidyStays(serverId, v);
    PrepareReady(serverId, v);
    ImpactsProduced(v.resources, v);
  }

  function Id(c: char): (id: Text)
    ensures |id| == 36 && id[0] == c
  {
    seq(36, i requires 0 <= i < 36 =>
        if i == 8 || i == 13 || i == 18 || i == 23 then '-' else if i == 14 then '1' else if i == 19 then '8' else c)
  }

  lemma IdIsUuid(c: char)
    requires '0' <= c <= '9' || 'a' <= c <= 'f'
    ensures IsUuid(Id(c)) && Lower(Id(c)) == Id(c)
  {
  }

  function Site(c: char): Website { Website(Id(c), Id('0'), 1, Some(Id(c)), None) }
  function Shop(c: char): Binding { Binding(Id(c), Id('0'), 1, "shop", Id(c), Id(c)) }

  /** Two applications with a website each, and a binding of the same database to either. */
  function TwoSites(): Inventory {
    Inventory([Resource("a", Id('0'), ApplicationSubject(Id('a'))), Resource("b", Id('0'), ApplicationSubject(Id('b'))),
               Resource("c", Id('0'), DatabaseSubject("shop"))],
              [Site('a'), Site('b')], [], [Shop('a'), Shop('b')], [])
  }

  lemma TwoShopsCurrent()
    ensures BindingError(TwoSites().bindings, TwoSites()).None?
  {
    var v := TwoSites();
    assert v.resources[2] in v.resources;
    assert FindWebsite(v.websites, Id('a')) == Some(Site('a'));
    assert FindWebsite(v.websites, Id('b')) == Some(Site('b')) by { assert v.websites[1..][0] == Site('b'); }
    assert v.bindings[1..] == [Shop('b')] && v.bindings[1..][1..] == [];
  }

  lemma TwoSitesOwned()
    ensures forall w | w in TwoSites().websites :: SiteOwned(w, TwoSites().resources)
  {
    var v := TwoSites();
    assert v.resources[0] in v.resources && v.resources[1] in v.resources;
  }

  lemma TwoSitesResources()
    ensures var v := TwoSites();
      KeysIncrease(Identity, v.resources)
      && forall r | r in v.resources :: ResourceOk(r, Id('0')) && !r.subject.MailSubject?
  {
    assert Before("a", "b") && Before("b", "c") && Before("a", "c");
  }

  lemma TwoSitesListed()
    ensures var v := TwoSites();
      && KeysIncrease(WebsiteId, v.websites) && KeysIncrease(BindingId, v.bindings)
      && (forall w | w in v.websites :: w.serverId == Id('0') && ReadWebsite(w) == Some(w))
      && (forall b | b in v.bindings :: b.serverId == Id('0') && ReadBinding(b) == Some(b))
  {
    IdIsUuid('0');
    IdIsUuid('a');
    IdIsUuid('b');
    assert Before(Id('a'), Id('b'));
  }

  lemma TwoSitesTidy()
    ensures Tidy(Id('0'), TwoSites())
  {
    TwoSitesResources();
    TwoSitesListed();
    TwoSitesOwned();
    TwoShopsCurrent();
  }

  lemma TwoSitesShare()
    ensures !OneSite("shop", TwoSites())
  {
    var v := TwoSites();
    assert v.bindings[0] in v.bindings && v.bindings[1] in v.bindings;
    assert Id('a')[0] != Id('b')[0];
  }

  lemma GraphIdentities(serverId: Text, raw: Inventory)
    requires DependencyGraphOf(serverId, raw).Ok?
    ensures Prepare(Lower(serverId), raw).Ok?
    ensures var v, g := Prepare(Lower(serverId), raw).value, DependencyGraphOf(serverId, raw).value;
      |g.impacts| == |v.resources|
      && forall i | 0 <= i < |v.resources| :: g.impacts[i].resourceIdentity == v.resources[i].identity
  {
    ImpactsPointwise(Prepare(Lower(serverId), raw).value.resources, Prepare(Lower(serverId), raw).value);
  }

  /** A tidy inventory's graph: the impact of a database is complete unless it is bound on two websites. */
  lemma TidyImpact(serverId: Text, v: Inventory, i: nat)
    requires IsUuid(serverId) && Lower(serverId) == serverId && Tidy(serverId, v)
    requires i < |v.resources| && v.resources[i].subject.DatabaseSubject?
    ensures var g := DependencyGraphOf(serverId, v);
      && g.Ok? && |g.value.impacts| == |v.resources|
      && g.value.impacts[i].resourceIdentity == v.resources[i].identity
      && (Complete(g.value.impacts[i], v.resources[i].subject, v) <==> OneSite(v.resources[i].subject.databaseName, v))
  {
    TidyStays(serverId, v);
    TidyGraph(serverId, v);
    GraphIdentities(serverId, v);
    GraphIsReachability(serverId, v);
  }

  /**
   Called directly with such bindings, createBackupDependencyGraph returns a graph in which the
   database's impact is incomplete.
   */
  lemma DirectCallMissesSite()
    ensures var g := DependencyGraphOf(Id('0'), TwoSites());
      && Prepare(Id('0'), TwoSites()) == Ok(TwoSites())
      && g.Ok? && |g.value.impacts| == 3 && g.value.impacts[2].resourceIdentity == "c"
      && !Complete(g.value.impacts[2], DatabaseSubject("shop"), TwoSites())
  {
    TwoSitesTidy();
    IdIsUuid('0');
    TidyStays(Id('0'), TwoSites());
    assert TwoSites().resources[2].subject == DatabaseSubject("shop");
    TidyImpact(Id('0'), TwoSites(), 2);
    TwoSitesShare();
  }
}
