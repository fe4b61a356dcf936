/**
 What every application operation keeps, over every run: the release history, the
 configuration revisions, the in-flight operation, and acceptance by the reload.
 */
module ApplicationInvariants {
  import opened Common
  import opened ApplicationModel

  ghost predicate Distinct(rs: seq<Release>) {
    forall i, j | 0 <= i < j < |rs| :: rs[i].releaseId != rs[j].releaseId
  }

  ghost predicate Managed(a: App) { a.kind.Node? || a.kind.Python? }

  /** Release history and the in-flight markers. */
  ghost predicate HistoryInv(a: App) {
    && 2 <= a.retention
    && Distinct(a.releases)
    && |a.releases| <= a.retention
    && (a.currentReleaseId.Some? ==> Has(a.releases, a.currentReleaseId.value))
    && (a.previousReleaseId.Some? ==> Has(a.releases, a.previousReleaseId.value))
    && (a.previousReleaseId.None? ==> forall r | r in a.releases :: Some(r.releaseId) == a.currentReleaseId)
    && (a.currentReleaseId.None? ==> a.previousReleaseId.None?)
    && (a.activeDeploymentId.Some? <==> a.phase.Deploying? || a.phase.RollingBack?)
    && (a.pendingRollbackReleaseId.Some? <==> a.phase.RollingBack?)
    && (a.pendingRollbackReleaseId.Some? ==>
          && a.currentReleaseId.Some?
          && a.pendingRollbackReleaseId != a.currentReleaseId
          && Has(a.releases, a.pendingRollbackReleaseId.value))
  }

  /** One recorded release against the configuration of its application. */
  ghost predicate ReleaseOk(a: App, r: Release) {
    && r.runtime.Some?
    && r.configurationRevision.Some?
    && 1 <= r.configurationRevision.value <= a.desiredRevision
    && (r.configurationRevision.value == a.desiredRevision ==> r.runtime == a.runtime)
    && (Some(r.releaseId) == a.currentReleaseId ==>
          r.runtime == a.activeRuntime && r.configurationRevision.value == a.appliedRevision)
  }

  /** Desired against applied configuration. */
  ghost predicate ConfigInv(a: App) {
    && 1 <= a.desiredRevision
    && (Managed(a) ==>
          && a.runtime.Some?
          && a.appliedRevision <= a.desiredRevision
          && HydrateRevisionsOk(a)
          && (a.currentReleaseId.None? ==> a.activeRuntime.None?)
          && (forall r | r in a.releases :: ReleaseOk(a, r))
          && (forall r, s | r in a.releases && s in a.releases && r.configurationRevision == s.configurationRevision ::
                r.runtime == s.runtime))
    && (!Managed(a) ==>
          && a.runtime.None? && a.activeRuntime.None? && a.appliedRevision == 0
          && forall r | r in a.releases :: r.runtime.None? && r.configurationRevision.None?)
  }

  /** A runtime a record of this adapter may hold. */
  ghost predicate RuntimeFits(a: App, r: Option<Runtime>) {
    && r.Some? && a.runtime.Some?
    && (a.kind.Node? ==> NodeRuntimeOk(r.value, Direct(a)) && r.value.port == a.runtime.value.port)
    && (a.kind.Python? ==> PythonRuntimeOk(r.value) && r == a.runtime)
  }

  /** What the reload checks or rewrites, beyond the two invariants above. */
  ghost predicate ShapeInv(a: App) {
    && (a.kind.Node? <==> a.adapter.Some?)
    && (OnPassenger(a) ==> a.serviceName.None? && a.servicePort.None? && a.proxyPort.None?)
    && (a.kind.Python? ==> a.desiredRevision == 1 && a.runtime.Some? && a == PythonFields(a, a.runtime.value))
    && (a.kind.Php? ==> PhpClean(a))
    && (Managed(a) ==>
          && RuntimeFits(a, a.runtime)
          && (a.activeRuntime.Some? ==> RuntimeFits(a, a.activeRuntime))
          && forall r | r in a.releases :: RuntimeFits(a, r.runtime))
  }

  ghost predicate Inv(a: App) { HistoryInv(a) && ConfigInv(a) && ShapeInv(a) }

  // ---- retention ------------------------------------------------------------

  ghost predicate AllProtected(rs: seq<Release>, current: Option<Id>, previous: Option<Id>) {
    forall r | r in rs :: Protected(current, previous, r.releaseId)
  }

  lemma AppendDistinct(acc: seq<Release>, r: Release)
    requires Distinct(acc) && !Has(acc, r.releaseId)
    ensures Distinct(acc + [r])
  {
    forall i, j | 0 <= i < j < |acc + [r]|
      ensures (acc + [r])[i].releaseId != (acc + [r])[j].releaseId
    {
      assert acc[i] in acc;
    }
  }

  lemma {:induction false} KeepProtectedKeeps(rs: seq<Release>, current: Option<Id>, previous: Option<Id>,
                                              acc: seq<Release>)
    requires Distinct(acc) && AllProtected(acc, current, previous)
    ensures var kept := KeepProtected(rs, current, previous, acc);
      && Distinct(kept) && AllProtected(kept, current, previous)
      && acc <= kept
      && (forall r | r in kept :: r in acc || r in rs)
      && (forall r | r in rs && Protected(current, previous, r.releaseId) :: Has(kept, r.releaseId))
    decreases rs
  {
    if rs == [] {
    } else if Protected(current, previous, rs[0].releaseId) && !Has(acc, rs[0].releaseId) {
      AppendDistinct(acc, rs[0]);
      KeepProtectedKeeps(rs[1..], current, previous, acc + [rs[0]]);
      var kept := KeepProtected(rs, current, previous, acc);
      assert (acc + [rs[0]])[|acc|] == kept[|acc|];
      assert kept[|acc|] in kept;
      assert acc <= kept;
    } else {
      KeepProtectedKeeps(rs[1..], current, previous, acc);
      var kept := KeepProtected(rs, current, previous, acc);
      if Has(acc, rs[0].releaseId) {
        var w :| w in acc && w.releaseId == rs[0].releaseId;
        assert w in kept;
      }
    }
  }

  lemma AtMostTwoProtected(rs: seq<Release>, current: Option<Id>, previous: Option<Id>)
    requires Distinct(rs) && AllProtected(rs, current, previous)
    ensures |rs| <= 2
  {
    var ids := set r | r in rs :: Some(r.releaseId);
    assert ids <= {current, previous};
    assert |{current, previous}| <= 2;
    DistinctCount(rs);
    SubsetCount(ids, {current, previous});
  }

  lemma {:induction false} DistinctCount(rs: seq<Release>)
    requires Distinct(rs)
    ensures |(set r | r in rs :: Some(r.releaseId))| == |rs|
  {
    var ids := set r | r in rs :: Some(r.releaseId);
    if rs != [] {
      var rest := rs[1..];
      assert Distinct(rest);
      DistinctCount(rest);
      var tail := set r | r in rest :: Some(r.releaseId);
      assert forall r :: r in rs <==> r == rs[0] || r in rest;
      assert Some(rs[0].releaseId) !in tail;
      assert ids == {Some(rs[0].releaseId)} + tail;
    }
  }

  lemma {:induction false} SubsetCount<T>(small: set<T>, large: set<T>)
    requires small <= large
    ensures |small| <= |large|
  {
    if small != {} {
      var x :| x in small;
      SubsetCount(small - {x}, large - {x});
    }
  }

  lemma {:induction false} FillKeeps(rs: seq<Release>, acc: seq<Release>, limit: nat)
    requires Distinct(acc) && |acc| <= limit
    ensures var full := Fill(rs, acc, limit);
      && Distinct(full) && acc <= full && |full| <= limit
      && (forall r | r in full :: r in acc || r in rs)
    decreases rs
  {
    if rs == [] || |acc| >= limit {
    } else if Has(acc, rs[0].releaseId) {
      FillKeeps(rs[1..], acc, limit);
    } else {
      AppendDistinct(acc, rs[0]);
      FillKeeps(rs[1..], acc + [rs[0]], limit);
    }
  }

  /** Trimming keeps the current and the previous release, invents none, and stays within the retention. */
  lemma TrimKeeps(rs: seq<Release>, current: Option<Id>, previous: Option<Id>, retention: nat)
    requires 2 <= retention
    ensures var kept := Trim(rs, current, previous, retention);
      && Distinct(kept) && |kept| <= retention
      && (forall r | r in kept :: r in rs)
      && (forall id | Protected(current, previous, id) && Has(rs, id) :: Has(kept, id))
  {
    var first := KeepProtected(rs, current, previous, []);
    KeepProtectedKeeps(rs, current, previous, []);
    AtMostTwoProtected(first, current, previous);
    FillKeeps(rs, first, retention);
    var kept := Trim(rs, current, previous, retention);
    assert kept == Fill(rs, first, retention);
    forall id | Protected(current, previous, id) && Has(rs, id) ensures Has(kept, id) {
      var r :| r in rs && r.releaseId == id;
      var w :| w in first && w.releaseId == id;
      assert w in kept;
    }
  }

  lemma {:induction false} FillTakesInOrder(rs: seq<Release>, acc: seq<Release>, limit: nat)
    requires Distinct(rs)
    ensures var full := Fill(rs, acc, limit);
      && (forall id | Has(acc, id) :: Has(full, id))
      && (|full| < limit ==> forall r | r in rs :: Has(full, r.releaseId))
      && (forall i, j | 0 <= i < j < |rs| && Has(full, rs[j].releaseId) && !Has(acc, rs[j].releaseId) ::
          Has(full, rs[i].releaseId))
    decreases rs
  {
    if rs != [] && |acc| < limit {
      var next := if Has(acc, rs[0].releaseId) then acc else acc + [rs[0]];
      forall id | Has(acc, id) ensures Has(next, id) {
        var w :| w in acc && w.releaseId == id;
        assert w in next;
      }
      assert Has(next, rs[0].releaseId) by { if next != acc { assert rs[0] in next; } }
      FillTakesInOrder(rs[1..], next, limit);
      var full := Fill(rs, acc, limit);
      forall i, j | 0 <= i < j < |rs| && Has(full, rs[j].releaseId) && !Has(acc, rs[j].releaseId)
        ensures Has(full, rs[i].releaseId)
      {
        assert rs[1..][j - 1] == rs[j];
        if i > 0 { assert rs[1..][i - 1] == rs[i]; }
      }
    }
  }

  /**
   What trimming drops is the oldest: nothing is dropped below the retention, and no kept
   unprotected release is older.
   */
  lemma TrimDropsOldest(rs: seq<Release>, current: Option<Id>, previous: Option<Id>, retention: nat)
    requires 2 <= retention && Distinct(rs)
    ensures var kept := Trim(rs, current, previous, retention);
      && (|kept| < retention ==> forall r | r in rs :: Has(kept, r.releaseId))
      && (forall i, j | 0 <= i < j < |rs| && Has(kept, rs[j].releaseId)
          && !Protected(current, previous, rs[j].releaseId) ::
            Has(kept, rs[i].releaseId))
  {
    var first := KeepProtected(rs, current, previous, []);
    KeepProtectedKeeps(rs, current, previous, []);
    AtMostTwoProtected(first, current, previous);
    FillKeeps(rs, first, retention);
    FillTakesInOrder(rs, first, retention);
    assert Trim(rs, current, previous, retention) == Fill(rs, first, retention);
  }

  lemma {:induction false} WithoutDistinct(rs: seq<Release>, id: Id)
    requires Distinct(rs)
    ensures Distinct(Without(rs, id))
  {
    if rs == [] {
    } else {
      assert Distinct(rs[1..]);
      WithoutDistinct(rs[1..], id);
      var rest := Without(rs[1..], id);
      if rs[0].releaseId != id {
        forall j | 0 <= j < |rest| ensures rest[j].releaseId != rs[0].releaseId {
          assert rest[j] in rs[1..];
        }
      }
    }
  }

  // ---- one operation --------------------------------------------------------

  /** Recording a new current release on top of a history that kept its old one. */
  lemma RecordedKeepsHistory(a: App, b: App, rel: Release)
    requires HistoryInv(a) && b.releases == a.releases && b.retention == a.retention
    requires b.currentReleaseId == Some(rel.releaseId) && b.previousReleaseId == a.currentReleaseId
    requires b.phase.Live? && b.activeDeploymentId.None? && b.pendingRollbackReleaseId.None?
    ensures HistoryInv(Recorded(b, rel))
    ensures forall r | r in Recorded(b, rel).releases :: r == rel || (r in a.releases && r.releaseId != rel.releaseId)
  {
    var added := [rel] + Without(a.releases, rel.releaseId);
    assert rel in added;
    TrimKeeps(added, b.currentReleaseId, b.previousReleaseId, b.retention);
    var c := Recorded(b, rel);
    assert Protected(b.currentReleaseId, b.previousReleaseId, rel.releaseId);
    assert Has(added, rel.releaseId);
    if b.previousReleaseId.Some? {
      var p := b.previousReleaseId.value;
      var was :| was in a.releases && was.releaseId == p;
      if p != rel.releaseId {
        assert was in Without(a.releases, rel.releaseId);
        assert was in added;
      }
      assert Has(added, p);
    } else {
      forall r | r in c.releases ensures Some(r.releaseId) == c.currentReleaseId {
        assert r in added;
      }
    }
  }

  /** A live record whose newest release carries the desired configuration. */
  lemma RecordedKeepsConfig(a: App, c: App, rel: Release)
    requires ConfigInv(a) && ShapeInv(a) && (a.kind.Static? || Managed(a))
    requires c.kind == a.kind && c.adapter == a.adapter && c.runtime == a.runtime
    requires c.desiredRevision == a.desiredRevision
    requires c.currentReleaseId == Some(rel.releaseId)
    requires forall r | r in c.releases :: r == rel || (r in a.releases && r.releaseId != rel.releaseId)
    requires if Managed(a) then c.activeRuntime == a.runtime && c.appliedRevision == a.desiredRevision
             else c.activeRuntime == a.activeRuntime && c.appliedRevision == a.appliedRevision
    requires rel.runtime == (if Managed(a) then a.runtime else None)
    requires rel.configurationRevision == (if Managed(a) then Some(a.desiredRevision) else None)
    ensures ConfigInv(c)
    ensures Managed(c) ==> RuntimeFits(c, c.runtime) && RuntimeFits(c, c.activeRuntime) && forall r | r in c.releases ::
        RuntimeFits(c, r.runtime)
  {
    if Managed(a) {
      forall r | r in c.releases ensures ReleaseOk(c, r) && RuntimeFits(c, r.runtime) {
        if r != rel {
          assert ReleaseOk(a, r) && RuntimeFits(a, r.runtime);
        }
      }
      forall r, s | r in c.releases && s in c.releases && r.configurationRevision == s.configurationRevision
        ensures r.runtime == s.runtime
      {
        if r != rel { assert ReleaseOk(a, r); }
        if s != rel { assert ReleaseOk(a, s); }
      }
    }
  }

  lemma DeployedKeepsInv(a: App, op: Op)
    requires Inv(a) && op.MarkDeployed? && DeployedOf(a, op).Ok?
    ensures Inv(DeployedOf(a, op).value)
  {
    var c := DeployedOf(a, op).value;
    var rel := Release(op.releaseId, op.deploymentId, op.commitSha.value, Target(a, op.gitTarget), op.artifactFiles,
                       op.artifactBytes, op.now, if Managed(a) then a.runtime else None,
                       if Managed(a) then Some(a.desiredRevision) else None);
    var b := c.(releases := a.releases);
    assert c == Recorded(b, rel);
    RecordedKeepsHistory(a, b, rel);
    RecordedKeepsConfig(a, c, rel);
  }

  lemma ActivatedKeepsInv(a: App, o: Id, r: Id, p: Option<Id>, sha: Option<string>, t: Option<GitTarget>,
                          rt: Option<Runtime>, now: Time)
    requires Inv(a) && (OnPassenger(a) || a.kind.Python?) && Activated(a, o, r, p, sha, t, rt, now).Ok?
    ensures Inv(Activated(a, o, r, p, sha, t, rt, now).value)
  {
    var c := Activated(a, o, r, p, sha, t, rt, now).value;
    if a.currentReleaseId != Some(r) {
      var rel := Release(r, o, sha.value, Target(a, t), None, None, now, a.runtime, Some(a.desiredRevision));
      var b := c.(releases := a.releases);
      assert c == Recorded(b, rel);
      RecordedKeepsHistory(a, b, rel);
      RecordedKeepsConfig(a, c, rel);
    }
  }

  lemma ResetKeepsInv(a: App, o: Id, r: Id, now: Time)
    requires Inv(a) && (OnPassenger(a) || a.kind.Python?) && ResetOf(a, o, r, now).Ok?
    ensures Inv(ResetOf(a, o, r, now).value)
  {
    var b := ResetOf(a, o, r, now).value;
    if a.currentReleaseId == Some(r) {
      assert b.releases == [];
    }
  }

  lemma MigratedKeepsHistory(a: App, now: Time)
    requires HistoryInv(a) && a.kind.Node?
    ensures HistoryInv(MigratedOf(a, now).value)
  {
    var b := MigratedOf(a, now).value;
    if a.adapter != Some(Passenger) {
      forall id | Has(a.releases, id) ensures Has(b.releases, id) {
        var r :| r in a.releases && r.releaseId == id;
        var i :| 0 <= i < |a.releases| && a.releases[i] == r;
        assert b.releases[i] in b.releases;
      }
      forall r | r in b.releases ensures exists s :: s in a.releases && s.releaseId == r.releaseId {
        var i :| 0 <= i < |b.releases| && b.releases[i] == r;
        assert a.releases[i] in a.releases;
      }
    }
  }

  lemma StripOrigin(rs: seq<Release>, r: Release) returns (was: Release)
    requires r in StripReleases(rs)
    ensures was in rs && r == was.(runtime := StripOption(was.runtime))
  {
    var i :| 0 <= i < |rs| && StripReleases(rs)[i] == r;
    was := rs[i];
  }

  lemma MigratedKeepsConfig(a: App, now: Time)
    requires ConfigInv(a) && ShapeInv(a) && a.kind.Node?
    ensures ConfigInv(MigratedOf(a, now).value) && ShapeInv(MigratedOf(a, now).value)
  {
    var b := MigratedOf(a, now).value;
    if a.adapter != Some(Passenger) {
      forall r | r in b.releases ensures ReleaseOk(b, r) && RuntimeFits(b, r.runtime) {
        var was := StripOrigin(a.releases, r);
        assert ReleaseOk(a, was) && RuntimeFits(a, was.runtime);
      }
      forall r, s | r in b.releases && s in b.releases && r.configurationRevision == s.configurationRevision
        ensures r.runtime == s.runtime
      {
        var wasR := StripOrigin(a.releases, r);
        var wasS := StripOrigin(a.releases, s);
      }
    }
  }

  lemma RolledBackKeepsHistory(a: App, op: Op, b: App)
    requires HistoryInv(a) && op.MarkRolledBack? && RolledBackOf(a, op).Ok? && b == RolledBackOf(a, op).value
    ensures HistoryInv(b)
    ensures forall r | r in b.releases :: r in a.releases
    ensures forall r | r in b.releases && r.releaseId == op.releaseId :: r == Find(a.releases, op.releaseId).value
  {
    var t := Find(a.releases, op.releaseId).value;
    assert b.currentReleaseId == Some(op.releaseId) && b.previousReleaseId == a.currentReleaseId
        && b.retention == a.retention;
    assert b.releases == Trim(a.releases, b.currentReleaseId, b.previousReleaseId, a.retention);
    TrimKeeps(a.releases, b.currentReleaseId, b.previousReleaseId, a.retention);
    assert Protected(b.currentReleaseId, b.previousReleaseId, op.releaseId);
    forall r | r in b.releases && r.releaseId == op.releaseId ensures r == t {
      assert r in a.releases;
      var i :| 0 <= i < |a.releases| && a.releases[i] == r;
      var j :| 0 <= j < |a.releases| && a.releases[j] == t;
    }
  }

  /** After a rollback the record runs exactly what the target release recorded. */
  lemma RollbackKeepsConfig(a: App, b: App, t: Release)
    requires ConfigInv(a) && ShapeInv(a) && Managed(a) && t in a.releases
    requires b.kind == a.kind && b.adapter == a.adapter && b.runtime == a.runtime
    requires b.desiredRevision == a.desiredRevision
    requires b.currentReleaseId == Some(t.releaseId) && b.activeRuntime == t.runtime
    requires t.configurationRevision == Some(b.appliedRevision)
    requires forall r | r in b.releases :: r in a.releases
    requires forall r | r in b.releases && r.releaseId == t.releaseId :: r == t
    ensures ConfigInv(b)
    ensures RuntimeFits(b, b.runtime) && RuntimeFits(b, b.activeRuntime) && forall r | r in b.releases ::
        RuntimeFits(b, r.runtime)
  {
    assert ReleaseOk(a, t) && RuntimeFits(a, t.runtime);
    forall r | r in b.releases ensures ReleaseOk(b, r) && RuntimeFits(b, r.runtime) {
      assert ReleaseOk(a, r) && RuntimeFits(a, r.runtime);
    }
  }

  lemma RolledBackKeepsInv(a: App, op: Op)
    requires Inv(a) && op.MarkRolledBack? && RolledBackOf(a, op).Ok?
    ensures Inv(RolledBackOf(a, op).value)
  {
    var b := RolledBackOf(a, op).value;
    RolledBackKeepsHistory(a, op, b);
    if Managed(a) {
      RollbackKeepsConfig(a, b, Find(a.releases, op.releaseId).value);
    }
  }

  lemma MarkersKeepInv(a: App, op: Op)
    requires Inv(a) && Apply(a, op).Ok?
    requires op.MarkDeploying? || op.MarkRollingBack? || op.MarkFailed?
    ensures Inv(Apply(a, op).value)
  {
    var b := Apply(a, op).value;
    assert HistoryInv(b);
    if Managed(a) {
      forall r | r in b.releases ensures ReleaseOk(b, r) && RuntimeFits(b, r.runtime) {
        assert ReleaseOk(a, r) && RuntimeFits(a, r.runtime);
      }
    }
    assert ConfigInv(b);
  }

  lemma ConfiguredKeepsInv(a: App, op: Op)
    requires Inv(a) && op.UpdateNodeConfiguration? && ConfiguredOf(a, op).Ok?
    ensures Inv(ConfiguredOf(a, op).value)
  {
    var b := ConfiguredOf(a, op).value;
    forall r | r in b.releases ensures ReleaseOk(b, r) && RuntimeFits(b, r.runtime) {
      assert ReleaseOk(a, r) && RuntimeFits(a, r.runtime);
    }
  }

  /** Every operation the registry accepts keeps the invariant. */
  lemma StepKeepsInv(a: App, op: Op)
    requires Inv(a) && Apply(a, op).Ok?
    ensures Inv(Apply(a, op).value)
  {
    match op
    case MarkDeploying(_, _) => MarkersKeepInv(a, op);
    case MarkDeployed(_, _, _, _, _, _, _, _, _, _) => DeployedKeepsInv(a, op);
    case ActivatePassenger(o, r, p, sha, t, rt, now) => ActivatedKeepsInv(a, o, r, p, sha, t, rt, now);
    case ResetPassenger(o, r, now) => ResetKeepsInv(a, o, r, now);
    case MarkPassengerMigrated(now) => MigratedKeepsHistory(a, now); MigratedKeepsConfig(a, now);
    case ActivatePython(o, r, p, sha, t, rt, now) => ActivatedKeepsInv(a, o, r, p, sha, t, rt, now);
    case ResetPython(o, r, now) => ResetKeepsInv(a, o, r, now);
    case MarkRollingBack(_, _, _) => MarkersKeepInv(a, op);
    case MarkRolledBack(_, _, _, _, _) => RolledBackKeepsInv(a, op);
    case MarkFailed(_, _, _) => MarkersKeepInv(a, op);
    case UpdateNodeConfiguration(_, _, _) => ConfiguredKeepsInv(a, op);
  }
}
