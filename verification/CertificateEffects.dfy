/** What the registry's operations do to certificates, stated of whole stores and of the operations that follow. */
module CertificateEffects {
  import opened Common
  import opened Texts
  import opened CertificateModel
  import opened CertificateGc

  // ---- retirement ------------------------------------------------------------

  /** The removal plan that describes a record as it stands. */
  function Planned(c: Certificate, operation: Text): Intent {
    Intent(c.domainId, c.serverId, c.state, c.source, c.staging, c.validTo, c.updatedAt, operation)
  }

  lemma {:induction false} FindsDistinct(s: Store, k: nat)
    requires IdsDistinct(s) && k < |s|
    ensures Find(s, s[k].id) == Some(k)
  {
    if k > 0 {
      assert s[0].id != s[k].id && s[1..][k - 1] == s[k];
      assert forall i, j | 0 <= i < j < |s[1..]| :: s[1..][i] == s[i + 1] && s[1..][j] == s[j + 1];
      FindsDistinct(s[1..], k - 1);
    }
  }

  /** The record was retired at `t` by `operation`, out of what it was. */
  predicate RetiredFrom(c: Certificate, n: Certificate, operation: Text, t: int) {
    && n.state.Retired? && n.retirement.Some? && n.updatedAt == t
    && n.retirement.value.at == t && n.retirement.value.operation == operation
    && n.retirement.value.fromState == c.state && n.retirement.value.fromUpdatedAt == c.updatedAt
    && n.id == c.id && n.domainId == c.domainId && n.serverId == c.serverId && n.source == c.source
    && n.staging == c.staging && n.validTo == c.validTo && n.purgedAt == c.purgedAt && n.digest == c.digest
  }

  /** A live certificate is retired exactly under the plan that describes it, and is then dated by the call. */
  lemma RetireDates(s: Store, k: nat, intent: Intent, t: int)
    requires IdsDistinct(s) && k < |s| && Live(s[k])
    ensures var r := Apply(s, Retire(s[k].id, intent), t);
      && (r.1.Ok? <==> intent == Planned(s[k], intent.operation))
      && (r.1.Ok? ==> |r.0| == |s| && RetiredFrom(s[k], r.0[k], intent.operation, t)
                      && forall i | 0 <= i < |s| && i != k :: r.0[i] == s[i])
      && (r.1.Err? ==> r.0 == s)
  {
    FindsDistinct(s, k);
  }

  /** The retention window runs from the retirement: whatever happens after, it has passed exactly then. */
  lemma RetentionHolds(s: Store, k: nat, intent: Intent, t: int, ops: seq<Timed>, w: Window)
    requires IdsDistinct(s) && k < |s| && Live(s[k]) && Apply(s, Retire(s[k].id, intent), t).1.Ok?
    requires FreshAlong(Apply(s, Retire(s[k].id, intent), t).0, ops)
    ensures var n := Run(Apply(s, Retire(s[k].id, intent), t).0, ops);
      && k < |n| && n[k].id == s[k].id && n[k].state.Retired?
      && (Expired(w, n[k]) <==> w.now >= t + w.retention)
      && (w.now < t + w.retention ==> ClassOf(n, w, n[k]) != Eligible)
      && n[k].retirement == Some(Retirement(intent.operation, t, s[k].state, s[k].updatedAt))
  {
    RetireDates(s, k, intent, t);
    var first := Apply(s, Retire(s[k].id, intent), t).0;
    ApplyKeeps(s, Retire(s[k].id, intent), t);
    RetiredIsAbsorbing(first, ops);
    assert Later(first[k], Run(first, ops)[k]);
  }

  /**
   Repeating a retirement: after anything in between it is accepted exactly under the same plan, and
   changes nothing.
   */
  lemma RetireRepeats(s: Store, k: nat, intent: Intent, t: int, ops: seq<Timed>, again: Intent, now: int)
    requires IdsDistinct(s) && k < |s| && Live(s[k]) && Apply(s, Retire(s[k].id, intent), t).1.Ok?
    requires FreshAlong(Apply(s, Retire(s[k].id, intent), t).0, ops)
    ensures var n := Run(Apply(s, Retire(s[k].id, intent), t).0, ops);
      && (Apply(n, Retire(s[k].id, again), now).1.Ok? <==> again == intent)
      && Apply(n, Retire(s[k].id, again), now).0 == n
  {
    RetireDates(s, k, intent, t);
    var first := Apply(s, Retire(s[k].id, intent), t).0;
    ApplyKeeps(s, Retire(s[k].id, intent), t);
    RetiredIsAbsorbing(first, ops);
    var n := Run(first, ops);
    assert Later(first[k], n[k]);
    FindsDistinct(n, k);
    assert n[k := n[k]] == n;
  }

  // ---- selection -------------------------------------------------------------

  /** An active certificate that serves a domain's websites. */
  predicate Serving(c: Certificate, domainId: Text) { c.domainId == domainId && c.web && !c.staging && c.state.Active? }

  /** Of one domain's web certificates this one alone is active; everything else is as before or stepped back. */
  ghost predicate SelectedAlone(s: Store, n: Store, k: nat, now: int)
    requires k < |s|
  {
    && |n| == |s| && n[k] == s[k] && Serving(n[k], s[k].domainId)
    && (forall i | 0 <= i < |n| && Serving(n[i], s[k].domainId) :: i == k)
    && (forall i | 0 <= i < |s| && !Serving(s[i], s[k].domainId) :: n[i] == s[i])
    && (forall i | 0 <= i < |s| && i != k && Serving(s[i], s[k].domainId) ::
        n[i].state.Superseded? && n[i].updatedAt == now)
    && (forall i | 0 <= i < |s| :: n[i].(state := s[i].state, updatedAt := s[i].updatedAt) == s[i])
  }

  /** commitSelection is accepted exactly for an active web certificate, and leaves it alone in its domain. */
  lemma SelectionCommits(s: Store, k: nat, now: int)
    requires IdsDistinct(s) && k < |s|
    ensures var r := Apply(s, CommitSelection(s[k].id), now);
      && (r.1.Ok? <==> Serving(s[k], s[k].domainId))
      && (r.1.Ok? ==> SelectedAlone(s, r.0, k, now))
      && (r.1.Err? ==> r.0 == s)
  {
    FindsDistinct(s, k);
  }

  /**
   prepareSelection: a web certificate that is in force and in place becomes, or stays, active, and
   nothing else changes.
   */
  lemma SelectionPrepares(s: Store, k: nat, now: int)
    requires IdsDistinct(s) && k < |s|
    ensures var r := Apply(s, PrepareSelection(s[k].id), now);
      && (r.1.Ok? ==> |r.0| == |s| && Serving(r.0[k], s[k].domainId) && Placed(r.0[k])
                      && r.0[k].validTo.Some? && r.0[k].validTo.value > now
                      && (Serving(s[k], s[k].domainId) ==> r.0 == s))
      && (r.1.Err? ==> r.0 == s)
      && (forall i | 0 <= i < |s| && i != k :: i < |r.0| && r.0[i] == s[i])
  {
    FindsDistinct(s, k);
  }

  /** The two calls together: the chosen certificate is active and alone in its domain. */
  lemma SelectionCompletes(s: Store, k: nat, first: int, second: int)
    requires IdsDistinct(s) && k < |s| && Apply(s, PrepareSelection(s[k].id), first).1.Ok?
    ensures var mid := Apply(s, PrepareSelection(s[k].id), first).0;
      var r := Apply(mid, CommitSelection(s[k].id), second);
      && r.1.Ok? && |mid| == |s| == |r.0| && SelectedAlone(mid, r.0, k, second)
      && (forall i | 0 <= i < |s| && i != k && !Serving(s[i], s[k].domainId) :: r.0[i] == s[i])
  {
    FindsDistinct(s, k);
    var mid := Apply(s, PrepareSelection(s[k].id), first).0;
    ApplyKeeps(s, PrepareSelection(s[k].id), first);
    assert mid[k].id == s[k].id && mid[k].domainId == s[k].domainId;
    SelectionCommits(mid, k, second);
  }

  // ---- issuance --------------------------------------------------------------

  /** A certificate reported issued can be selected for its domain while it is in force. */
  lemma ActiveIsSelectable(s: Store, k: nat, report: Report, now: int, later: int)
    requires IdsDistinct(s) && k < |s| && s[k].web && !s[k].staging && Apply(s, MarkActive(s[k].id, report), now).1.Ok?
    ensures var n := Apply(s, MarkActive(s[k].id, report), now).0;
      && |n| == |s| && Serving(n[k], s[k].domainId) && Placed(n[k]) && n[k].validTo == Some(report.validTo)
      && (Apply(n, PrepareSelection(s[k].id), later).1.Ok? <==> later < report.validTo)
      && forall i | 0 <= i < |s| && i != k :: n[i] == s[i]
  {
    FindsDistinct(s, k);
    ApplyKeeps(s, MarkActive(s[k].id, report), now);
    FindsDistinct(Apply(s, MarkActive(s[k].id, report), now).0, k);
  }

  lemma CustomIsSelectable(s: Store, op: Op, now: int, later: int)
    requires IdsDistinct(s) && op.RegisterCustom? && op.web && Apply(s, op, now).1.Ok?
    ensures var n := Apply(s, op, now).0;
      && n[..|s|] == s && |n| == |s| + 1 && Serving(n[|s|], op.domainId) && n[|s|].serverId == op.serverId
      && n[|s|].digest == Some(op.digest) && n[|s|].id == op.id && n[|s|].validTo == Some(op.report.validTo)
      && (Apply(n, PrepareSelection(op.id), later).1.Ok? <==> later < op.report.validTo)
  {
    ApplyKeeps(s, op, now);
    FindsDistinct(Apply(s, op, now).0, |s|);
  }

  /** A pending certificate stands in the way of the next one for its domain and purpose, and of no other. */
  lemma CreationBlocks(s: Store, op: Op, next: Op, now: int, later: int)
    requires IdsDistinct(s) && op.Create? && Fresh(s, op) && Apply(s, op, now).1.Ok? && !op.staging
    requires next.Create? && !next.staging
    ensures var n := Apply(s, op, now).0;
      && |n| == |s| + 1 && n[..|s|] == s && n[|s|].id == op.id && n[|s|].state.Pending?
          && AcmeName(n[|s|]) == (if op.name.canonical == [] then None else Some(op.name.canonical))
      && (next.domainId == op.domainId && next.web == op.web ==> Apply(n, next, later).1 == Err(AlreadyExists))
      && (next.domainId != op.domainId || next.web != op.web ==>
            (Apply(n, next, later).1.Ok? <==> Apply(s, next, later).1.Ok?))
  {
    var n := Apply(s, op, now).0;
    assert Blocks(n[|s|], op.domainId, op.web, false, next.replaceExisting);
    assert forall i | 0 <= i < |s| :: n[i] == s[i];
  }

  /** A failed certificate stands in nobody's way, and the other records are as before. */
  lemma FailureFrees(s: Store, k: nat, next: Op, now: int, later: int)
    requires IdsDistinct(s) && k < |s| && next.Create?
    ensures var r := Apply(s, MarkFailed(s[k].id), now);
      && (r.1.Ok? <==> !s[k].state.Retired?) && (r.1.Err? ==> r.0 == s)
      && (r.1.Ok? ==> |r.0| == |s| && r.0[k].state.Errored?)
      && (r.1.Ok? ==>
            (Apply(r.0, next, later).1.Ok? <==> forall i | 0 <= i < |s| && i != k ::
                !Blocks(s[i], next.domainId, next.web, next.staging, next.replaceExisting)))
  {
    FindsDistinct(s, k);
    var n := Apply(s, MarkFailed(s[k].id), now).0;
    assert forall i | 0 <= i < |s| && i != k :: n[i] == s[i];
  }

  /** A staging certificate that validates makes room for the next staging request and never serves. */
  lemma ValidationFrees(s: Store, k: nat, now: int)
    requires IdsDistinct(s) && k < |s| && s[k].staging
    ensures var r := Apply(s, MarkValidated(s[k].id, true), now);
      && (r.1.Ok? <==> !s[k].state.Retired?)
      && (r.1.Ok? ==> |r.0| == |s| && r.0[k].state.Validated? && !Serving(r.0[k], s[k].domainId))
      && (r.1.Ok? ==> (forall replace :: !Blocks(r.0[k], s[k].domainId, s[k].web, true, replace)))
      && (forall i | 0 <= i < |s| && i != k :: i < |r.0| && r.0[i] == s[i])
  {
    FindsDistinct(s, k);
  }

  /** A purge is dated once: repeated at any time it changes nothing. */
  lemma PurgeRepeats(s: Store, k: nat, at: int, again: int, now: int)
    requires IdsDistinct(s) && k < |s| && s[k].purgedAt.None? && Apply(s, MarkPurged(s[k].id, at), now).1.Ok?
    ensures var n := Apply(s, MarkPurged(s[k].id, at), now).0;
      && s[k].state.Retired? && |n| == |s| && n[k].purgedAt == Some(at) && n[k].retirement == s[k].retirement
      && (forall i | 0 <= i < |s| && i != k :: n[i] == s[i])
      && Apply(n, MarkPurged(s[k].id, again), now) == (n, Ok(n[k]))
  {
    FindsDistinct(s, k);
    var n := Apply(s, MarkPurged(s[k].id, at), now).0;
    ApplyKeeps(s, MarkPurged(s[k].id, at), now);
    FindsDistinct(n, k);
    assert n[k := n[k]] == n;
  }

  // ---- the classes of an inspection ------------------------------------------

  /** What each class of a retired, unpurged certificate says. */
  lemma ClassesMean(s: Store, w: Window, k: nat)
    requires k < |s| && IdsDistinct(s) && AllFiled(s) && s[k].state.Retired? && s[k].purgedAt.None?
    ensures ClassOf(s, w, s[k]) == SharedActive <==>
      s[k].id in w.bound || exists i :: 0 <= i < |s| && Live(s[i]) && Shares(s[k], s[i])
    ensures ClassOf(s, w, s[k]) == Retained <==> Reaches(s, w, s[k]) && !Expired(w, s[k])
    ensures ClassOf(s, w, s[k]) == SharedRetained <==>
      Reaches(s, w, s[k]) && Expired(w, s[k])
      && exists i :: 0 <= i < |s| && ClassOf(s, w, s[i]) == Retained && Shares(s[k], s[i])
  {
    forall i | 0 <= i < |s| ensures SharesFields(s[k], s[i]) <==> Shares(s[k], s[i]) { FieldsAreSharing(s[k], s[i]); }
    forall i | 0 <= i < |s| ensures ClassOf(s, w, s[i]) == Retained <==> Reaches(s, w, s[i]) && !Expired(w, s[i]) {}
    if SharesWithRetained(s, w, s[k]) {
      var i :| 0 <= i < |s| && Reaches(s, w, s[i]) && s[i].id != s[k].id && !Expired(w, s[i])
          && SharesFields(s[k], s[i]);
      assert ClassOf(s, w, s[i]) == Retained && Shares(s[k], s[i]);
    }
  }
}
