/** The certificate registry and the material collector as objects that update their records in place. */
module CertificateRegistry {
  import opened Common
  import opened Texts
  import opened CertificateModel
  import opened CertificateGc

  /** The lists an inspection returns; live certificates are reported by count only. */
  datatype Inspection = Inspection(eligible: seq<Certificate>, retained: seq<Certificate>,
                                   sharedActive: seq<Certificate>,
                                   sharedRetained: seq<Certificate>, alreadyPurged: seq<Certificate>,
                                   notRetired: seq<Certificate>)

  /** The lookup sets built from the live certificates. */
  datatype LiveSets = LiveSets(names: set<Text>, digests: set<nat>, paths: set<Path>)

  predicate InSets(l: LiveSets, c: Certificate) {
    || (AcmeName(c).Some? && AcmeName(c).value in l.names)
    || (c.digest.Some? && c.digest.value in l.digests)
    || (c.certificatePath.Some? && c.certificatePath.value in l.paths)
    || (c.fullchainPath.Some? && c.fullchainPath.value in l.paths)
    || (c.privateKeyPath.Some? && c.privateKeyPath.value in l.paths)
  }

  function Added(l: LiveSets, c: Certificate): LiveSets {
    LiveSets(l.names + (if AcmeName(c).Some? then {AcmeName(c).value} else {}),
             l.digests + (if c.digest.Some? then {c.digest.value} else {}), l.paths + Paths(c))
  }

  lemma AddedMeansShared(l: LiveSets, a: Certificate, c: Certificate)
    ensures InSets(Added(l, a), c) <==> InSets(l, c) || Shares(c, a)
  {
    var held := (c.certificatePath.Some? && c.certificatePath.value in Paths(a))
      || (c.fullchainPath.Some? && c.fullchainPath.value in Paths(a))
          || (c.privateKeyPath.Some? && c.privateKeyPath.value in Paths(a));
    assert SharesPath(c, a) <==> held;
  }

  predicate SharesWithLiveIn(part: seq<Certificate>, c: Certificate) {
    exists i | 0 <= i < |part| :: Live(part[i]) && Shares(c, part[i])
  }

  /** The sets of the live certificates answer exactly whether a certificate shares material with one. */
  method BuildLiveSets(s: Store) returns (l: LiveSets)
    ensures forall c :: InSets(l, c) <==> SharesWithLive(s, c)
  {
    l := LiveSets({}, {}, {});
    for i := 0 to |s|
      invariant forall c :: InSets(l, c) <==> SharesWithLiveIn(s[..i], c)
    {
      ghost var before := l;
      if Live(s[i]) { l := Added(l, s[i]); }
      forall c: Certificate ensures InSets(l, c) <==> SharesWithLiveIn(s[..i + 1], c) {
        AddedMeansShared(before, s[i], c);
        assert s[..i + 1] == s[..i] + [s[i]];
        GrowsLive(s[..i], s[i], c);
      }
    }
    assert s[..|s|] == s;
  }

  lemma GrowsLive(part: seq<Certificate>, a: Certificate, c: Certificate)
    ensures SharesWithLiveIn(part + [a], c) <==> SharesWithLiveIn(part, c) || (Live(a) && Shares(c, a))
  {
    var all := part + [a];
    if SharesWithLiveIn(part, c) {
      var i :| 0 <= i < |part| && Live(part[i]) && Shares(c, part[i]);
      assert all[i] == part[i];
    }
    assert all[|part|] == a;
  }

  function Second(s: Store, w: Window, part: seq<Certificate>): seq<Certificate> {
    if part == [] then []
    else
      var init, last := Second(s, w, part[..|part| - 1]), part[|part| - 1];
      if Reaches(s, w, last) then init + [last] else init
  }

  lemma {:induction false} SecondMembers(s: Store, w: Window, part: seq<Certificate>)
    ensures forall c :: c in Second(s, w, part) <==> c in part && Reaches(s, w, c)
  {
    if part != [] {
      SecondMembers(s, w, part[..|part| - 1]);
      assert part == part[..|part| - 1] + [part[|part| - 1]];
    }
  }

  lemma {:induction false} MembersOfSecond(s: Store, w: Window, k: Class, part: seq<Certificate>)
    requires k.Retained? || k.SharedRetained? || k.Eligible?
    ensures Members(s, w, k, Second(s, w, part)) == Members(s, w, k, part)
  {
    if part != [] {
      var init, last := part[..|part| - 1], part[|part| - 1];
      MembersOfSecond(s, w, k, init);
      var before := Second(s, w, init);
      if Reaches(s, w, last) {
        assert (before + [last])[..|before|] == before;
      } else {
        assert ClassOf(s, w, last) != k;
      }
    }
  }

  /** The inner loop of the second pass: does an expired certificate share with one still in its window? */
  method MeetsRetained(s: Store, w: Window, second: seq<Certificate>, c: Certificate) returns (shared: bool)
    requires second == Second(s, w, s)
    ensures shared == SharesWithRetained(s, w, c)
  {
    SecondMembers(s, w, s);
    for i := 0 to |second|
      invariant forall j | 0 <= j < i :: !(second[j].id != c.id && !Expired(w, second[j]) && SharesFields(c, second[j]))
    {
      var other := second[i];
      if other.id != c.id && !Expired(w, other) && SharesFields(c, other) {
        assert other in second && other in s;
        var k :| 0 <= k < |s| && s[k] == other;
        return true;
      }
    }
    shared := false;
    forall i | 0 <= i < |s| && Reaches(s, w, s[i]) && s[i].id != c.id && !Expired(w, s[i])
        ensures !SharesFields(c, s[i]) {
      assert s[i] in second;
    }
  }

  /** The first pass: what is not retired, purged or set aside goes on to the second. */
  method FirstPass(s: Store, w: Window)
      returns (second: seq<Certificate>, notRetired: seq<Certificate>, purged: seq<Certificate>,
               shared: seq<Certificate>)
    ensures second == Second(s, w, s)
    ensures notRetired == Members(s, w, NotRetiredYet, s) && purged == Members(s, w, AlreadyPurged, s)
    ensures shared == Members(s, w, SharedActive, s)
  {
    var live := BuildLiveSets(s);
    second, notRetired, purged, shared := [], [], [], [];
    for i := 0 to |s|
      invariant second == Second(s, w, s[..i]) && notRetired == Members(s, w, NotRetiredYet, s[..i])
      invariant purged == Members(s, w, AlreadyPurged, s[..i]) && shared == Members(s, w, SharedActive, s[..i])
    {
      var c := s[i];
      assert s[..i + 1][..i] == s[..i];
      if Live(c) {
        notRetired := notRetired + [c];
      } else if c.purgedAt.Some? {
        purged := purged + [c];
      } else if c.id in w.bound || InSets(live, c) {
        shared := shared + [c];
      } else {
        second := second + [c];
      }
    }
    assert s[..|s|] == s;
  }

  /** inspectGcCandidates. */
  method InspectGcCandidates(s: Store, w: Window) returns (r: Inspection)
    ensures r.eligible == Members(s, w, Eligible, s) && r.retained == Members(s, w, Retained, s)
    ensures r.sharedActive == Members(s, w, SharedActive, s) && r.sharedRetained == Members(s, w, SharedRetained, s)
    ensures r.alreadyPurged == Members(s, w, AlreadyPurged, s) && r.notRetired == Members(s, w, NotRetiredYet, s)
    ensures |s| == |r.eligible| + |r.retained| + |r.sharedActive| + |r.sharedRetained| + |r.alreadyPurged|
        + |r.notRetired|
  {
    var second, notRetired, purged, shared := FirstPass(s, w);
    var eligible, retained, sharedRetained: seq<Certificate> := [], [], [];
    SecondMembers(s, w, s);
    for i := 0 to |second|
      invariant eligible == Members(s, w, Eligible, second[..i]) && retained == Members(s, w, Retained, second[..i])
      invariant sharedRetained == Members(s, w, SharedRetained, second[..i])
    {
      var c := second[i];
      assert second[..i + 1][..i] == second[..i] && c in second;
      if !Expired(w, c) {
        retained := retained + [c];
      } else {
        var meets := MeetsRetained(s, w, second, c);
        if meets { sharedRetained := sharedRetained + [c]; } else { eligible := eligible + [c]; }
      }
    }
    assert second[..|second|] == second;
    MembersOfSecond(s, w, Eligible, s);
    MembersOfSecond(s, w, Retained, s);
    MembersOfSecond(s, w, SharedRetained, s);
    CountsAddUp(s, w, s);
    r := Inspection(eligible, retained, shared, sharedRetained, purged, notRetired);
  }

  lemma PurgeNext(s: Store, w: Window, all: seq<Certificate>, k: nat)
    requires IdsDistinct(s) && all == Members(s, w, Eligible, s) && k < |all|
    requires all[k].id !in Ids(all[..k])
    ensures var r := Apply(Purged(s, Ids(all[..k]), w.now), MarkPurged(all[k].id, w.now), w.now);
      r.0 == Purged(s, Ids(all[..k + 1]), w.now) && r.1.Ok?
  {
    var before := Purged(s, Ids(all[..k]), w.now);
    MembersIn(s, w, Eligible, s);
    assert all[k] in all;
    var i :| 0 <= i < |s| && s[i] == all[k];
    FoundAt(s, before, i);
    ApplyPurge(before, i, w.now);
    IdsNext(all, k);
    OneMorePurged(s, Ids(all[..k]), i, w.now);
  }

  lemma ApplyPurge(n: Store, i: nat, at: int)
    requires i < |n| && Find(n, n[i].id) == Some(i) && n[i].state.Retired? && n[i].purgedAt.None?
    ensures var c := n[i].(purgedAt := Some(at), updatedAt := at);
        Apply(n, MarkPurged(n[i].id, at), at) == (n[i := c], Ok(c))
  {
  }

  lemma FoundAt(s: Store, n: Store, i: nat)
    requires IdsDistinct(s) && i < |s| && |n| == |s| && forall j | 0 <= j < |s| :: n[j].id == s[j].id
    ensures Find(n, s[i].id) == Some(i)
  {
    assert n[i].id == s[i].id;
    if Find(n, s[i].id).None? {
      NoneFound(n, s[i].id);
    } else {
      assert s[Find(n, s[i].id).value].id == s[i].id;
    }
  }

  lemma OneMorePurged(s: Store, ids: set<Text>, i: nat, at: int)
    requires IdsDistinct(s) && i < |s| && s[i].id !in ids && s[i].state.Retired? && s[i].purgedAt.None?
    ensures Purged(s, ids + {s[i].id}, at) == Purged(s, ids, at)[i := s[i].(purgedAt := Some(at), updatedAt := at)]
  {
    forall m | 0 <= m < |s| && m != i ensures s[m].id != s[i].id {}
  }

  lemma IdsNext(all: seq<Certificate>, k: nat)
    requires k < |all|
    ensures Ids(all[..k + 1]) == Ids(all[..k]) + {all[k].id}
  {
    assert all[..k + 1] == all[..k] + [all[k]];
    forall x ensures x in Ids(all[..k + 1]) <==> x in Ids(all[..k]) + {all[k].id} {
      if x in Ids(all[..k + 1]) { var c :| c in all[..k + 1] && c.id == x; }
      if x in Ids(all[..k]) { var c :| c in all[..k] && c.id == x; assert c in all[..k + 1]; }
      assert all[k] in all[..k + 1];
    }
  }

  lemma {:induction false} MembersIdsDistinct(s: Store, w: Window, k: Class, part: seq<Certificate>)
    requires IdsDistinct(part)
    ensures IdsDistinct(Members(s, w, k, part))
  {
    if part != [] {
      var init, last := part[..|part| - 1], part[|part| - 1];
      assert forall i, j | 0 <= i < j < |init| :: init[i] == part[i] && init[j] == part[j];
      MembersIdsDistinct(s, w, k, init);
      MembersIn(s, w, k, init);
      forall c | c in Members(s, w, k, init) ensures c.id != last.id {
        var i :| 0 <= i < |init| && init[i] == c;
        assert part[i] == c;
      }
    }
  }

  lemma NotBefore(all: seq<Certificate>, k: nat)
    requires IdsDistinct(all) && k < |all|
    ensures all[k].id !in Ids(all[..k])
  {
    forall c | c in all[..k] ensures c.id != all[k].id {
      var i :| 0 <= i < k && all[..k][i] == c;
      assert all[i] == c;
    }
  }

  /** Records stay, keep their identity, and never come back from retirement or lose a purge mark. */
  ghost predicate Follows(s: Store, n: Store) { |s| <= |n| && forall i | 0 <= i < |s| :: Later(s[i], n[i]) }

  lemma EffectKeeps(s: Store, op: Op, now: int)
    requires IdsDistinct(s) && AllFiled(s) && Fresh(s, op)
    ensures var n := Apply(s, op, now).0; IdsDistinct(n) && AllFiled(n) && Follows(s, n)
  {
    ApplyKeeps(s, op, now);
    ApplyFiled(s, op, now);
  }

  class Registry {
    var certificates: Store

    constructor ()
      ensures Valid() && certificates == []
    {
      certificates := [];
    }

    /** Distinct ids, and every stored path in its own field. */
    ghost predicate Valid()
      reads this
    {
      IdsDistinct(certificates) && AllFiled(certificates)
    }

    method Locate(id: Text) returns (k: Option<nat>)
      ensures k == Find(certificates, id)
    {
      k := Find(certificates, id);
    }

    method CreateForDomain(id: Text, domainId: Text, serverId: Text, name: Name, web: bool, staging: bool,
                           replaceExisting: bool, now: int)
      returns (result: Result<Certificate, Error>)
      requires Valid() && Fresh(certificates, Create(id, domainId, serverId, name, web, staging, replaceExisting))
      modifies this
      ensures Valid() && Follows(old(certificates), certificates)
      ensures (certificates, result)
          == Apply(old(certificates), Create(id, domainId, serverId, name, web, staging, replaceExisting), now)
    {
      EffectKeeps(certificates, Create(id, domainId, serverId, name, web, staging, replaceExisting), now);
      for i := 0 to |certificates|
        invariant forall j | 0 <= j < i :: !Blocks(certificates[j], domainId, web, staging, replaceExisting)
        invariant certificates == old(certificates)
      {
        if Blocks(certificates[i], domainId, web, staging, replaceExisting) { return Err(AlreadyExists); }
      }
      var c := NewAcme(id, domainId, serverId, name, web, staging, now);
      certificates := certificates + [c];
      result := Ok(c);
    }

    method RegisterCustom(id: Text, domainId: Text, serverId: Text, name: Name, web: bool, digest: nat, report: Report,
                          now: int)
      returns (result: Result<Certificate, Error>)
      requires Valid()
      modifies this
      ensures Valid() && Follows(old(certificates), certificates)
      ensures (certificates, result)
          == Apply(old(certificates),
                   CertificateModel.RegisterCustom(id, domainId, serverId, name, web, digest, report), now)
    {
      EffectKeeps(certificates, CertificateModel.RegisterCustom(id, domainId, serverId, name, web, digest, report),
                  now);
      var k := Locate(id);
      if k.Some? { return Err(IdentityConflict); }
      var c := NewCustom(CertificateModel.RegisterCustom(id, domainId, serverId, name, web, digest, report), now);
      if !report.matches || !ReportPlaced(c, report) { return Err(InvalidResult); }
      certificates := certificates + [c];
      result := Ok(c);
    }

    method SetState(id: Text, next: State, now: int) returns (result: Result<Certificate, Error>)
      requires Valid()
      modifies this
      ensures Valid() && Follows(old(certificates), certificates)
      ensures (certificates, result) == Apply(old(certificates), CertificateModel.SetState(id, next), now)
    {
      EffectKeeps(certificates, CertificateModel.SetState(id, next), now);
      var k := Locate(id);
      if k.None? { return Err(NotFound); }
      var c := certificates[k.value];
      if c.state.Retired? { return Err(IsRetired); }
      var state := if c.staging && next.Issuing? then Validating else next;
      if state.Retired? { return Err(InvalidState); }
      c := c.(state := state);
      c := c.(updatedAt := now);
      certificates := certificates[k.value := c];
      result := Ok(c);
    }

    method MarkValidated(id: Text, matches: bool, now: int) returns (result: Result<Certificate, Error>)
      requires Valid()
      modifies this
      ensures Valid() && Follows(old(certificates), certificates)
      ensures (certificates, result) == Apply(old(certificates), CertificateModel.MarkValidated(id, matches), now)
    {
      EffectKeeps(certificates, CertificateModel.MarkValidated(id, matches), now);
      var k := Locate(id);
      if k.None? { return Err(NotFound); }
      var c := certificates[k.value];
      if c.state.Retired? { return Err(IsRetired); }
      if !c.staging { return Err(ValidationRequired); }
      if !matches { return Err(InvalidResult); }
      c := c.(state := Validated);
      c := c.(updatedAt := now);
      certificates := certificates[k.value := c];
      result := Ok(c);
    }

    method MarkActive(id: Text, report: Report, now: int) returns (result: Result<Certificate, Error>)
      requires Valid()
      modifies this
      ensures Valid() && Follows(old(certificates), certificates)
      ensures (certificates, result) == Apply(old(certificates), CertificateModel.MarkActive(id, report), now)
    {
      EffectKeeps(certificates, CertificateModel.MarkActive(id, report), now);
      var k := Locate(id);
      if k.None? { return Err(NotFound); }
      var c := certificates[k.value];
      if c.state.Retired? { return Err(IsRetired); }
      if c.staging {
        result := MarkValidated(id, report.matches, now);
        return;
      }
      if !c.source.Acme? { return Err(ManagedRequired); }
      if !report.matches || !ReportPlaced(c, report) { return Err(InvalidResult); }
      c := c.(state := Active);
      c := c.(certificatePath := Some(report.certificatePath));
      c := c.(fullchainPath := Some(report.fullchainPath));
      c := c.(privateKeyPath := Some(report.privateKeyPath));
      c := c.(validTo := Some(report.validTo));
      c := c.(updatedAt := now);
      certificates := certificates[k.value := c];
      result := Ok(c);
    }

    method PrepareSelection(id: Text, now: int) returns (result: Result<Certificate, Error>)
      requires Valid()
      modifies this
      ensures Valid() && Follows(old(certificates), certificates)
      ensures (certificates, result) == Apply(old(certificates), CertificateModel.PrepareSelection(id), now)
    {
      EffectKeeps(certificates, CertificateModel.PrepareSelection(id), now);
      var k := Locate(id);
      if k.None? { return Err(NotFound); }
      var c := certificates[k.value];
      if !c.web || c.staging || !(c.state.Active? || c.state.Superseded?) || c.validTo.None? || c.validTo.value <= now {
        return Err(NotSelectable);
      }
      if !Placed(c) { return Err(InvalidResult); }
      if c.state.Superseded? {
        c := c.(state := Active);
        c := c.(updatedAt := now);
        certificates := certificates[k.value := c];
      }
      assert certificates == old(certificates)[k.value := c];
      result := Ok(c);
    }

    /** The loop that turns the other active web certificates of the domain to superseded. */
    method CommitSelection(id: Text, now: int) returns (result: Result<Certificate, Error>)
      requires Valid()
      modifies this
      ensures Valid() && Follows(old(certificates), certificates)
      ensures (certificates, result) == Apply(old(certificates), CertificateModel.CommitSelection(id), now)
    {
      EffectKeeps(certificates, CertificateModel.CommitSelection(id), now);
      var k := Locate(id);
      if k.None? { return Err(NotFound); }
      var selected := certificates[k.value];
      if !selected.web || selected.staging || !selected.state.Active? { return Err(NotSelectable); }
      DisplaceOthers(selected, now);
      result := Ok(selected);
    }

    method DisplaceOthers(selected: Certificate, now: int)
      modifies this
      ensures certificates == Displace(old(certificates), selected, now)
    {
      for i := 0 to |certificates|
        invariant |certificates| == |old(certificates)|
        invariant forall j | 0 <= j < i :: certificates[j] == Displace(old(certificates), selected, now)[j]
        invariant forall j | i <= j < |certificates| :: certificates[j] == old(certificates)[j]
      {
        var c := certificates[i];
        if Displaced(c, selected) { certificates := certificates[i := c.(state := Superseded, updatedAt := now)]; }
      }
    }

    method MarkFailed(id: Text, now: int) returns (result: Result<Certificate, Error>)
      requires Valid()
      modifies this
      ensures Valid() && Follows(old(certificates), certificates)
      ensures (certificates, result) == Apply(old(certificates), CertificateModel.MarkFailed(id), now)
    {
      EffectKeeps(certificates, CertificateModel.MarkFailed(id), now);
      var k := Locate(id);
      if k.None? { return Err(NotFound); }
      var c := certificates[k.value];
      if c.state.Retired? { return Err(IsRetired); }
      c := c.(state := Errored);
      c := c.(updatedAt := now);
      certificates := certificates[k.value := c];
      result := Ok(c);
    }

    method RetireForDomainRemoval(id: Text, intent: Intent, now: int) returns (result: Result<Certificate, Error>)
      requires Valid()
      modifies this
      ensures Valid() && Follows(old(certificates), certificates)
      ensures (certificates, result) == Apply(old(certificates), CertificateModel.Retire(id, intent), now)
    {
      EffectKeeps(certificates, CertificateModel.Retire(id, intent), now);
      var k := Locate(id);
      if k.None? { return Err(NotFound); }
      var c := certificates[k.value];
      var owned := c.domainId == intent.domainId && c.serverId == intent.serverId && c.source == intent.source
        && c.staging == intent.staging && c.validTo == intent.validTo;
      if c.state.Retired? {
        assert certificates[k.value := c] == certificates;
        if !owned || c.retirement.None? || c.retirement.value.operation != intent.operation
          || c.retirement.value.fromState != intent.state
              || c.retirement.value.fromUpdatedAt != intent.updatedAt { return Err(OwnershipDrift); }
        return Ok(c);
      }
      if !owned || c.state != intent.state || c.updatedAt != intent.updatedAt { return Err(IntentDrift); }
      c := c.(retirement := Some(Retirement(intent.operation, now, c.state, c.updatedAt)));
      c := c.(state := Retired);
      c := c.(updatedAt := now);
      certificates := certificates[k.value := c];
      result := Ok(c);
    }

    method MarkMaterialPurged(id: Text, at: int, now: int) returns (result: Result<Certificate, Error>)
      requires Valid()
      modifies this
      ensures Valid() && Follows(old(certificates), certificates)
      ensures (certificates, result) == Apply(old(certificates), CertificateModel.MarkPurged(id, at), now)
    {
      EffectKeeps(certificates, CertificateModel.MarkPurged(id, at), now);
      var k := Locate(id);
      if k.None? { return Err(NotFound); }
      var c := certificates[k.value];
      if !c.state.Retired? { return Err(NotRetired); }
      if c.purgedAt.Some? {
        assert certificates[k.value := c] == certificates;
        return Ok(c);
      }
      c := c.(purgedAt := Some(at));
      c := c.(updatedAt := at);
      certificates := certificates[k.value := c];
      result := Ok(c);
    }

    /**
     A sweep at one clock. `removes(k)` says whether removing the material of candidate k succeeds; the
     first failure ends the sweep with the error, leaving what was purged before it purged.
     Each ACME name is deleted at most once, and never one a live certificate uses.
     */
    method Sweep(w: Window, dryRun: bool, removes: nat -> bool)
        returns (swept: seq<Certificate>, deleted: seq<Text>, complete: bool)
      requires Valid()
      modifies this
      ensures Valid() && Follows(old(certificates), certificates)
      ensures swept <= Members(old(certificates), w, Eligible, old(certificates))
      ensures certificates == if dryRun then old(certificates) else Purged(old(certificates), Ids(swept), w.now)
      ensures complete ==> swept == Members(old(certificates), w, Eligible, old(certificates))
      ensures !complete ==> exists k :: !removes(k)
      ensures NoDuplicates(deleted)
      ensures forall c | c in swept && AcmeName(c).Some? && !dryRun :: AcmeName(c).value in deleted
      ensures forall i, x | 0 <= i < |old(certificates)| && Live(old(certificates)[i]) && x in deleted ::
          AcmeName(old(certificates)[i]) != Some(x)
    {
      ghost var s := certificates;
      var inspection := InspectGcCandidates(certificates, w);
      var candidates := inspection.eligible;
      MembersIdsDistinct(s, w, Eligible, s);
      swept, deleted := [], [];
      assert Purged(s, Ids(swept), w.now) == s;
      if dryRun || candidates == [] { return candidates, [], true; }
      for k := 0 to |candidates|
        invariant swept == candidates[..k] && certificates == Purged(s, Ids(swept), w.now)
        invariant Valid() && Follows(s, certificates) && Cleaned(s, swept, deleted)
      {
        var candidate := candidates[k];
        var ok;
        CleanedNext(s, w, candidates, k, deleted);
        deleted, ok := RemoveMaterial(candidate, deleted, removes(k));
        if !ok { return swept, deleted, false; }
        NotBefore(candidates, k);
        PurgeNext(s, w, candidates, k);
        ghost var before := certificates;
        var _ := MarkMaterialPurged(candidate.id, w.now, w.now);
        FollowsOn(s, before, certificates);
        swept := swept + [candidate];
        assert swept == candidates[..k + 1];
      }
      complete := true;
    }
  }

  /** Removes one candidate's material: a custom certificate's own, an ACME name's once. */
  method RemoveMaterial(candidate: Certificate, deleted: seq<Text>, removes: bool) returns (more: seq<Text>, ok: bool)
    ensures !ok ==> more == deleted && !removes
    ensures ok ==> more == WithName(deleted, candidate)
  {
    var name := AcmeName(candidate);
    if candidate.source.Custom? { return deleted, removes; }
    if name.None? || name.value in deleted { return deleted, true; }
    if !removes { return deleted, false; }
    return deleted + [name.value], true;
  }

  function WithName(deleted: seq<Text>, c: Certificate): seq<Text> {
    if AcmeName(c).Some? && AcmeName(c).value !in deleted then deleted + [AcmeName(c).value] else deleted
  }

  /** Each name of a swept certificate was deleted, once, and no name a live certificate uses. */
  ghost predicate Cleaned(s: Store, swept: seq<Certificate>, deleted: seq<Text>) {
    && NoDuplicates(deleted)
    && (forall c | c in swept && AcmeName(c).Some? :: AcmeName(c).value in deleted)
    && (forall i, x | 0 <= i < |s| && Live(s[i]) && x in deleted :: AcmeName(s[i]) != Some(x))
  }

  lemma CleanedNext(s: Store, w: Window, candidates: seq<Certificate>, k: nat, deleted: seq<Text>)
    requires IdsDistinct(s) && AllFiled(s) && candidates == Members(s, w, Eligible, s) && k < |candidates|
    requires Cleaned(s, candidates[..k], deleted)
    ensures Cleaned(s, candidates[..k + 1], WithName(deleted, candidates[k]))
  {
    var more := WithName(deleted, candidates[k]);
    assert candidates[..k + 1] == candidates[..k] + [candidates[k]];
    forall i, x | 0 <= i < |s| && Live(s[i]) && x in more ensures AcmeName(s[i]) != Some(x) {
      if x !in deleted { NameIsFree(s, w, candidates[k], i); }
    }
  }

  lemma FollowsOn(s: Store, n: Store, m: Store)
    requires Follows(s, n) && Follows(n, m)
    ensures Follows(s, m)
  {
    forall i | 0 <= i < |s| ensures Later(s[i], m[i]) { LaterTransitive(s[i], n[i], m[i]); }
  }

  /** The name of an eligible certificate is used by no live one. */
  lemma NameIsFree(s: Store, w: Window, c: Certificate, i: nat)
    requires IdsDistinct(s) && AllFiled(s) && c in Members(s, w, Eligible, s) && i < |s| && Live(s[i])
    ensures AcmeName(c).Some? ==> AcmeName(s[i]) != AcmeName(c)
  {
    MembersIn(s, w, Eligible, s);
    var k :| 0 <= k < |s| && s[k] == c;
    EligibleExactly(s, w, k);
  }
}
