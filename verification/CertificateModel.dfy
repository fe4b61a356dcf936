/** Certificate records and what each registry operation makes of the store that holds them. */
module CertificateModel {
  import opened Common
  import opened Texts

  datatype State = Pending | Validating | Validated | Issuing | Active | Renewing | Superseded | Retired | Errored
  datatype Source = Acme | Custom

  /** A certificate name as it is spelled, and the canonical form it normalises to. */
  datatype Name = Name(spelling: Text, canonical: Text)

  datatype File = CertPem | FullchainPem | PrivkeyPem
  /** Material lives under the live directory of an ACME name or the directory of a custom id. */
  datatype Path = LivePath(name: Text, file: File) | CustomPath(id: Text, file: File)

  datatype Retirement = Retirement(operation: Text, at: int, fromState: State, fromUpdatedAt: int)

  datatype Certificate = Certificate(
    id: Text, domainId: Text, serverId: Text, name: Name, source: Source, web: bool, staging: bool, state: State,
    certificatePath: Option<Path>, fullchainPath: Option<Path>, privateKeyPath: Option<Path>,
    digest: Option<nat>, validTo: Option<int>, updatedAt: int,
    retirement: Option<Retirement>, purgedAt: Option<int>)

  type Store = seq<Certificate>

  datatype Error =
    | NotFound | IsRetired | InvalidState | ValidationRequired | InvalidResult | ManagedRequired | AlreadyExists
    | IdentityConflict | NotSelectable | OwnershipDrift | IntentDrift | NotRetired

  /** What a job reports for an issued certificate; `matches` stands for the identity and metadata checks. */
  datatype Report = Report(matches: bool, certificatePath: Path, fullchainPath: Path, privateKeyPath: Path,
                           validTo: int)

  /** The plan a domain removal was approved for. */
  datatype Intent = Intent(domainId: Text, serverId: Text, state: State, source: Source, staging: bool,
                           validTo: Option<int>, updatedAt: int, operation: Text)

  datatype Op =
    | Create(id: Text, domainId: Text, serverId: Text, name: Name, web: bool, staging: bool, replaceExisting: bool)
    | RegisterCustom(id: Text, domainId: Text, serverId: Text, name: Name, web: bool, digest: nat, report: Report)
    | SetState(id: Text, next: State)
    | MarkValidated(id: Text, matches: bool)
    | MarkActive(id: Text, report: Report)
    | PrepareSelection(id: Text)
    | CommitSelection(id: Text)
    | MarkFailed(id: Text)
    | Retire(id: Text, intent: Intent)
    | MarkPurged(id: Text, at: int)

  function ExpectedPath(c: Certificate, f: File): Path {
    if c.source.Custom? then CustomPath(c.id, f) else LivePath(c.name.spelling, f)
  }

  predicate Placed(c: Certificate) {
    && c.certificatePath == Some(ExpectedPath(c, CertPem))
    && c.fullchainPath == Some(ExpectedPath(c, FullchainPem))
    && c.privateKeyPath == Some(ExpectedPath(c, PrivkeyPem))
  }

  predicate ReportPlaced(c: Certificate, r: Report) {
    r.certificatePath == ExpectedPath(c, CertPem) && r.fullchainPath == ExpectedPath(c, FullchainPem)
    && r.privateKeyPath == ExpectedPath(c, PrivkeyPem)
  }

  function WithPaths(c: Certificate, r: Report): Certificate {
    c.(certificatePath := Some(r.certificatePath), fullchainPath := Some(r.fullchainPath),
       privateKeyPath := Some(r.privateKeyPath), validTo := Some(r.validTo))
  }

  // ---- re-reading (hydrateCertificate at the current version) ----------------

  predicate HoldsMaterial(s: State) { s.Active? || s.Renewing? || s.Superseded? }

  /** The state that decides whether material must be on file: a retired record's is the one it retired from. */
  function MaterialState(c: Certificate): State {
    if c.state.Retired? && c.retirement.Some? then c.retirement.value.fromState else c.state
  }

  predicate Accepted(c: Certificate) {
    && (c.purgedAt.Some? ==> c.state.Retired?)
    && (c.state.Retired? <==> c.retirement.Some?)
    && (c.retirement.Some? ==> !c.retirement.value.fromState.Retired?)
    && (HoldsMaterial(MaterialState(c)) ==> Placed(c))
  }

  // ---- operations ------------------------------------------------------------

  function Find(s: Store, id: Text): (r: Option<nat>)
    ensures r.Some? ==> r.value < |s| && s[r.value].id == id
  {
    if s == [] then None
    else if s[0].id == id then Some(0)
    else
      var rest := Find(s[1..], id);
      if rest.Some? then Some(rest.value + 1) else None
  }

  lemma {:induction false} NoneFound(s: Store, id: Text)
    requires Find(s, id).None?
    ensures forall i | 0 <= i < |s| :: s[i].id != id
  {
    if s != [] {
      NoneFound(s[1..], id);
      assert forall i | 1 <= i < |s| :: s[i] == s[1..][i - 1];
    }
  }

  /** A record of the same domain and purpose that stands in the way of a new one. */
  predicate Blocks(c: Certificate, domainId: Text, web: bool, staging: bool, replaceExisting: bool) {
    && c.domainId == domainId && c.web == web && !c.state.Errored? && !c.state.Superseded? && !c.state.Retired?
    && (if staging then c.staging && (c.state.Pending? || c.state.Validating?)
        else !c.staging && (c.state.Pending? || c.state.Issuing? || c.state.Renewing? || !replaceExisting))
  }

  function NewAcme(id: Text, domainId: Text, serverId: Text, name: Name, web: bool, staging: bool,
                   now: int): Certificate {
    Certificate(id, domainId, serverId, name, Acme, web, staging, Pending, None, None, None, None, None, now, None,
                None)
  }

  function NewCustom(op: Op, now: int): Certificate
    requires op.RegisterCustom?
  {
    WithPaths(Certificate(op.id, op.domainId, op.serverId, op.name, Custom, op.web, false, Active, None, None, None,
                          Some(op.digest), None, now, None, None), op.report)
  }

  /** An operation on one record: the record it leaves, or a refusal. */
  function Change(c: Certificate, op: Op, now: int): Result<Certificate, Error>
    requires !op.Create? && !op.RegisterCustom? && !op.CommitSelection?
  {
    match op
    case SetState(_, next) =>
      var state := if c.staging && next.Issuing? then Validating else next;
      if c.state.Retired? then Err(IsRetired)
      else if state.Retired? then Err(InvalidState)
      else Ok(c.(state := state, updatedAt := now))
    case MarkValidated(_, matches) => Validate(c, matches, now)
    case MarkActive(_, report) =>
      if c.state.Retired? then Err(IsRetired)
      else if c.staging then Validate(c, report.matches, now)
      else if !c.source.Acme? then Err(ManagedRequired)
      else if !report.matches || !ReportPlaced(c, report) then Err(InvalidResult)
      else Ok(WithPaths(c, report).(state := Active, updatedAt := now))
    case PrepareSelection(_) =>
      if !c.web || c.staging || !(c.state.Active? || c.state.Superseded?) || c.validTo.None? || c.validTo.value <= now
          then Err(NotSelectable)
      else if !Placed(c) then Err(InvalidResult)
      else if c.state.Superseded? then Ok(c.(state := Active, updatedAt := now))
      else Ok(c)
    case MarkFailed(_) => if c.state.Retired? then Err(IsRetired) else Ok(c.(state := Errored, updatedAt := now))
    case Retire(_, intent) =>
      if c.state.Retired? then
        if c.retirement.None? || c.retirement.value.operation != intent.operation
            || c.retirement.value.fromState != intent.state
          || c.retirement.value.fromUpdatedAt != intent.updatedAt || c.domainId != intent.domainId
              || c.serverId != intent.serverId
          || c.source != intent.source || c.staging != intent.staging || c.validTo != intent.validTo
              then Err(OwnershipDrift)
        else Ok(c)
      else if c.state != intent.state || c.updatedAt != intent.updatedAt || c.domainId != intent.domainId
          || c.serverId != intent.serverId
        || c.source != intent.source || c.staging != intent.staging || c.validTo != intent.validTo then Err(IntentDrift)
      else Ok(c.(state := Retired, retirement := Some(Retirement(intent.operation, now, c.state, c.updatedAt)),
                 updatedAt := now))
    case MarkPurged(_, at) =>
      if !c.state.Retired? then Err(NotRetired)
      else if c.purgedAt.Some? then Ok(c)
      else Ok(c.(purgedAt := Some(at), updatedAt := at))
  }

  function Validate(c: Certificate, matches: bool, now: int): Result<Certificate, Error> {
    if c.state.Retired? then Err(IsRetired)
    else if !c.staging then Err(ValidationRequired)
    else if !matches then Err(InvalidResult)
    else Ok(c.(state := Validated, updatedAt := now))
  }

  /** The record commitSelection turns to superseded: another active web certificate of the selected one's domain. */
  predicate Displaced(c: Certificate, selected: Certificate) {
    c.id != selected.id && c.domainId == selected.domainId && c.web && !c.staging && c.state.Active?
  }

  function Displace(s: Store, selected: Certificate, now: int): (r: Store)
    ensures |r| == |s|
    ensures forall i | 0 <= i < |s| ::
        r[i] == if Displaced(s[i], selected) then s[i].(state := Superseded, updatedAt := now) else s[i]
  {
    seq(|s|, i requires 0 <= i < |s| =>
        if Displaced(s[i], selected) then s[i].(state := Superseded, updatedAt := now) else s[i])
  }

  function Apply(s: Store, op: Op, now: int): (Store, Result<Certificate, Error>) {
    match op
    case Create(id, domainId, serverId, name, web, staging, replaceExisting) =>
      if exists i | 0 <= i < |s| :: Blocks(s[i], domainId, web, staging, replaceExisting) then (s, Err(AlreadyExists))
      else (s + [NewAcme(id, domainId, serverId, name, web, staging, now)],
            Ok(NewAcme(id, domainId, serverId, name, web, staging, now)))
    case RegisterCustom(id, _, _, _, _, _, report) =>
      if Find(s, id).Some? then (s, Err(IdentityConflict))
      else if !report.matches || !ReportPlaced(NewCustom(op, now), report) then (s, Err(InvalidResult))
      else (s + [NewCustom(op, now)], Ok(NewCustom(op, now)))
    case CommitSelection(id) =>
      var k := Find(s, id);
      if k.None? then (s, Err(NotFound))
      else
        var c := s[k.value];
        if !c.web || c.staging || !c.state.Active? then (s, Err(NotSelectable)) else (Displace(s, c, now), Ok(c))
    case _ =>
      var k := Find(s, op.id);
      if k.None? then (s, Err(NotFound))
      else
        var r := Change(s[k.value], op, now);
        if r.Ok? then (s[k.value := r.value], r) else (s, r)
  }

  // ---- runs ------------------------------------------------------------------

  predicate IdsDistinct(s: Store) { forall i, j | 0 <= i < j < |s| :: s[i].id != s[j].id }

  /** createForDomain draws a fresh id. */
  predicate Fresh(s: Store, op: Op) { op.Create? ==> forall i | 0 <= i < |s| :: s[i].id != op.id }

  datatype Timed = Timed(op: Op, now: int)

  function Run(s: Store, ops: seq<Timed>): Store
    decreases |ops|
  {
    if ops == [] then s else Run(Apply(s, ops[0].op, ops[0].now).0, ops[1..])
  }

  predicate FreshAlong(s: Store, ops: seq<Timed>)
    decreases |ops|
  {
    ops == [] || (Fresh(s, ops[0].op) && FreshAlong(Apply(s, ops[0].op, ops[0].now).0, ops[1..]))
  }

  /**
   What every operation leaves of a record: its identity always, and once retired its state,
   evidence and purge mark.
   */
  predicate Later(c: Certificate, n: Certificate) {
    && n.id == c.id && n.domainId == c.domainId && n.source == c.source && n.name == c.name && n.staging == c.staging
        && n.digest == c.digest
    && (c.state.Retired? ==> n.(purgedAt := c.purgedAt, updatedAt := c.updatedAt) == c)
    && (c.purgedAt.Some? && c.state.Retired? ==> n == c)
  }

  lemma ChangeKeeps(c: Certificate, op: Op, now: int)
    requires !op.Create? && !op.RegisterCustom? && !op.CommitSelection? && Change(c, op, now).Ok?
    ensures Later(c, Change(c, op, now).value)
    ensures Accepted(c) ==>
        (Accepted(Change(c, op, now).value) <==> (op.SetState? && HoldsMaterial(op.next) ==> Placed(c)))
  {
  }

  lemma ChangeInStore(s: Store, k: nat, op: Op, now: int)
    requires IdsDistinct(s) && k < |s| && !op.Create? && !op.RegisterCustom? && !op.CommitSelection?
    requires Change(s[k], op, now).Ok?
    ensures var n := s[k := Change(s[k], op, now).value]; IdsDistinct(n) && forall i | 0 <= i < |s| :: Later(s[i], n[i])
  {
    ChangeKeeps(s[k], op, now);
  }

  /** One operation: ids stay distinct, records keep their identity, retirement and purge marks are permanent. */
  lemma ApplyKeeps(s: Store, op: Op, now: int)
    requires IdsDistinct(s) && Fresh(s, op)
    ensures var n := Apply(s, op, now).0; IdsDistinct(n) && |s| <= |n| && forall i | 0 <= i < |s| :: Later(s[i], n[i])
    ensures Apply(s, op, now).1.Err? ==> Apply(s, op, now).0 == s
  {
    match op
    case Create(_, _, _, _, _, _, _) =>
    case RegisterCustom(id, _, _, _, _, _, _) => if Find(s, id).None? { NoneFound(s, id); }
    case CommitSelection(id) =>
    case _ =>
      var k := Find(s, op.id);
      if k.Some? && Change(s[k.value], op, now).Ok? { ChangeInStore(s, k.value, op, now); }
  }

  predicate Readable(s: Store) { forall i | 0 <= i < |s| :: Accepted(s[i]) }

  /**
   Every resulting record can be re-read, unless setState forces a state that promises material onto
   a record that has none: exactly then the next start refuses the store.
   */
  lemma ApplyReadable(s: Store, op: Op, now: int)
    requires Readable(s)
    ensures Readable(Apply(s, op, now).0) <==> !Strands(s, op)
  {
    match op
    case Create(_, _, _, _, _, _, _) =>
    case RegisterCustom(_, _, _, _, _, _, _) =>
    case CommitSelection(id) =>
    case _ =>
      var k := Find(s, op.id);
      if k.Some? && Change(s[k.value], op, now).Ok? {
        ChangeKeeps(s[k.value], op, now);
        var n := s[k.value := Change(s[k.value], op, now).value];
        assert n[k.value] == Change(s[k.value], op, now).value;
        assert forall i | 0 <= i < |s| && i != k.value :: n[i] == s[i];
      }
  }

  /** setState to a state with material on a live record without any. */
  predicate Strands(s: Store, op: Op) {
    op.SetState? && HoldsMaterial(op.next) && Find(s, op.id).Some?
    && var c := s[Find(s, op.id).value]; !c.state.Retired? && !Placed(c)
  }

  lemma LaterTransitive(a: Certificate, b: Certificate, c: Certificate)
    requires Later(a, b) && Later(b, c)
    ensures Later(a, c)
  {
  }

  /** Over any run retired certificates stay retired with the same evidence, and a purge mark is never changed. */
  lemma {:induction false} RetiredIsAbsorbing(s: Store, ops: seq<Timed>)
    requires IdsDistinct(s) && FreshAlong(s, ops)
    ensures IdsDistinct(Run(s, ops)) && |s| <= |Run(s, ops)|
    ensures forall i | 0 <= i < |s| :: Later(s[i], Run(s, ops)[i])
    decreases |ops|
  {
    if ops != [] {
      ApplyKeeps(s, ops[0].op, ops[0].now);
      var n := Apply(s, ops[0].op, ops[0].now).0;
      RetiredIsAbsorbing(n, ops[1..]);
      forall i | 0 <= i < |s| ensures Later(s[i], Run(s, ops)[i]) { LaterTransitive(s[i], n[i], Run(s, ops)[i]); }
    }
  }

  predicate NeverStrands(s: Store, ops: seq<Timed>)
    decreases |ops|
  {
    ops == [] || (!Strands(s, ops[0].op) && NeverStrands(Apply(s, ops[0].op, ops[0].now).0, ops[1..]))
  }

  /** A run that never forces such a state leaves a store every record of which the next start accepts. */
  lemma {:induction false} RunStaysReadable(s: Store, ops: seq<Timed>)
    requires NeverStrands(s, ops) && Readable(s)
    ensures Readable(Run(s, ops))
    decreases |ops|
  {
    if ops != [] {
      ApplyReadable(s, ops[0].op, ops[0].now);
      RunStaysReadable(Apply(s, ops[0].op, ops[0].now).0, ops[1..]);
    }
  }

  /** The forced state is reachable: a freshly created certificate set to active. */
  lemma FreshActiveIsUnreadable(id: Text, domainId: Text, serverId: Text, name: Name, now: int)
    ensures var s := Run([],
                         [Timed(Create(id, domainId, serverId, name, true, false, false), now),
                          Timed(SetState(id, Active), now)]);
      |s| == 1 && s[0].state.Active? && !Accepted(s[0])
  {
    var c := NewAcme(id, domainId, serverId, name, true, false, now);
    var ops := [Timed(Create(id, domainId, serverId, name, true, false, false), now), Timed(SetState(id, Active), now)];
    assert Apply([], ops[0].op, now).0 == [c];
    assert ops[1..][0] == ops[1] && ops[1..][1..] == [];
    assert Find([c], id) == Some(0);
    assert Run([c], ops[1..]) == Run([c.(state := Active)], []) by {
      assert [c][0 := c.(state := Active)] == [c.(state := Active)];
    }
  }

  // ---- material on file ------------------------------------------------------

  /** Each path field names its own file, as validateCertificatePath demands before any path is stored. */
  predicate Filed(c: Certificate) {
    && (c.certificatePath.Some? ==> c.certificatePath.value.file == CertPem)
    && (c.fullchainPath.Some? ==> c.fullchainPath.value.file == FullchainPem)
    && (c.privateKeyPath.Some? ==> c.privateKeyPath.value.file == PrivkeyPem)
  }

  lemma ApplyFiled(s: Store, op: Op, now: int)
    requires forall i | 0 <= i < |s| :: Filed(s[i])
    ensures var n := Apply(s, op, now).0; forall i | 0 <= i < |n| :: Filed(n[i])
  {
  }

  /** Whatever the registry does, a stored path stays in its own field. */
  lemma {:induction false} RunFiled(s: Store, ops: seq<Timed>)
    requires forall i | 0 <= i < |s| :: Filed(s[i])
    ensures forall i | 0 <= i < |Run(s, ops)| :: Filed(Run(s, ops)[i])
    decreases |ops|
  {
    if ops != [] {
      ApplyFiled(s, ops[0].op, ops[0].now);
      RunFiled(Apply(s, ops[0].op, ops[0].now).0, ops[1..]);
    }
  }
}
