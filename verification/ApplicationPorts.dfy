/** Ports over the whole list of applications: what creation tests, what it misses, and allocation. */
module ApplicationPorts {
  import opened Common
  import opened ApplicationModel
  import opened ApplicationInvariants
  import opened ApplicationRuns

  ghost predicate Apart(a: App, b: App) { a.serverId == b.serverId && HeldPort(a).Some? ==> HeldPort(a) != HeldPort(b) }

  /** Among the Node applications of a server, and among its Python applications, ports are distinct. */
  ghost predicate KindsApart(apps: seq<App>) {
    forall i, j | 0 <= i < j < |apps| && apps[i].kind == apps[j].kind :: Apart(apps[i], apps[j])
  }

  ghost predicate AllApart(apps: seq<App>) { forall i, j | 0 <= i < j < |apps| :: Apart(apps[i], apps[j]) }

  // ---- creation --------------------------------------------------------------

  /** The fields a repeated creation must agree in, as far as they are modelled. */
  predicate SameRequest(a: App, b: App) {
    && a.serverId == b.serverId && a.kind == b.kind && a.branch == b.branch && a.retention == b.retention
    && a.runtime == b.runtime && a.adapter == b.adapter
  }

  /** Each creation compares its port with applications of its own kind only. */
  predicate Clashes(apps: seq<App>, app: App) {
    && (Direct(app) || app.kind.Python?) && HeldPort(app).Some?
    && exists i | 0 <= i < |apps| ::
        apps[i].serverId == app.serverId && apps[i].kind == app.kind && HeldPort(apps[i]) == HeldPort(app)
  }

  /**
   The last part of the four create operations; `again` says that the caller gave the id and the
   fields not modelled agree.
   */
  function Add(apps: seq<App>, app: App, again: bool): Result<seq<App>, Error> {
    if exists i | 0 <= i < |apps| :: apps[i].id == app.id then
      if again && exists i | 0 <= i < |apps| ::
          apps[i].id == app.id && SameRequest(apps[i], app) then Ok(apps) else Err(IdentityConflict)
    else if Clashes(apps, app) then Err(PortConflict)
    else Ok(apps + [app])
  }

  lemma AddKeepsKindsApart(apps: seq<App>, app: App, again: bool)
    requires KindsApart(apps) && Inv(app) && Add(apps, app, again).Ok?
    ensures KindsApart(Add(apps, app, again).value)
  {
    var n := Add(apps, app, again).value;
    if n == apps + [app] && !Clashes(apps, app) {
      forall i, j | 0 <= i < j < |n| && n[i].kind == n[j].kind ensures Apart(n[i], n[j]) {
        if j < |apps| { assert Apart(apps[i], apps[j]); }
      }
    }
  }

  /** An application of the other kind holds this port on this server. */
  predicate HeldByOther(apps: seq<App>, app: App) {
    HeldPort(app).Some?
    && exists i | 0 <= i < |apps| ::
        apps[i].serverId == app.serverId && apps[i].kind != app.kind && HeldPort(apps[i]) == HeldPort(app)
  }

  /** The exact condition for ports to stay distinct across kinds: the caller has to look at the other kind. */
  lemma AddKeepsAllApartIff(apps: seq<App>, app: App)
    requires AllApart(apps) && Inv(app) && Add(apps, app, false).Ok?
    ensures AllApart(Add(apps, app, false).value) <==> !HeldByOther(apps, app)
  {
    var n := apps + [app];
    if HeldByOther(apps, app) {
      var i :| 0 <= i < |apps| && apps[i].serverId == app.serverId && apps[i].kind != app.kind
          && HeldPort(apps[i]) == HeldPort(app);
      assert !Apart(n[i], n[|apps|]);
    } else {
      forall i, j | 0 <= i < j < |n| ensures Apart(n[i], n[j]) {
        if j < |apps| { assert Apart(apps[i], apps[j]); }
      }
    }
  }

  /** Nothing looks at the other kind: a Python and a Node application of one server are both given port 3100. */
  lemma TwoKindsOnePort(n: Id, p: Id, server: Id, health: string, settings: string)
    requires n != p
    ensures var rt := Runtime(Some(3100), health, settings);
      var python, node := CreatePython(p, server, "main", 5, rt, 0),
          CreateNode(n, server, "main", 5, Some(DirectSystemd), rt, 0);
      && python.Ok? && node.Ok? && Add([], python.value, false) == Ok([python.value])
      && Add([python.value], node.value, false) == Ok([python.value, node.value])
      && !AllApart([python.value, node.value])
  {
    var rt := Runtime(Some(3100), health, settings);
    var python := CreatePython(p, server, "main", 5, rt, 0).value;
    var node := CreateNode(n, server, "main", 5, Some(DirectSystemd), rt, 0).value;
    assert [] + [python] == [python] && [python] + [node] == [python, node];
    assert !Apart([python, node][0], [python, node][1]);
  }

  // ---- whole runs of the registry --------------------------------------------

  datatype RegistryOp = Create(app: App, again: bool) | On(i: nat, op: Op)

  ghost predicate Proper(op: RegistryOp) { op.Create? ==> Created(op.app) }

  function Act(apps: seq<App>, op: RegistryOp): seq<App> {
    match op
    case Create(app, again) =>
      var r := Add(apps, app, again);
      if r.Ok? then r.value else apps
    case On(i, step) => if i < |apps| then apps[i := Step(apps[i], step)] else apps
  }

  function ActAll(apps: seq<App>, ops: seq<RegistryOp>): seq<App>
    decreases |ops|
  {
    if ops == [] then apps else ActAll(Act(apps, ops[0]), ops[1..])
  }

  /** No operation on one application takes a port: it keeps its own or gives it up. */
  lemma StepHolds(a: App, op: Op)
    requires Inv(a)
    ensures var b := Step(a, op);
      Inv(b) && b.serverId == a.serverId && b.kind == a.kind && (HeldPort(b).Some? ==> HeldPort(b) == HeldPort(a))
  {
    ReloadClosure(a);
    StepIsApply(a, op);
    StepDesired(a, op);
  }

  lemma StepKeepsPorts(apps: seq<App>, i: nat, op: Op)
    requires i < |apps| && Inv(apps[i])
    ensures var n := apps[i := Step(apps[i], op)];
        (KindsApart(apps) ==> KindsApart(n)) && (AllApart(apps) ==> AllApart(n))
  {
    var n := apps[i := Step(apps[i], op)];
    StepHolds(apps[i], op);
    forall j, k | 0 <= j < k < |apps| && Apart(apps[j], apps[k]) ensures Apart(n[j], n[k]) {
    }
    assert forall j | 0 <= j < |apps| :: n[j].kind == apps[j].kind;
  }

  ghost predicate AllInv(apps: seq<App>) { forall i | 0 <= i < |apps| :: Inv(apps[i]) }

  lemma ActKeeps(apps: seq<App>, op: RegistryOp)
    requires AllInv(apps) && KindsApart(apps) && Proper(op)
    ensures AllInv(Act(apps, op)) && KindsApart(Act(apps, op))
  {
    match op
    case Create(app, again) =>
      CreatedInv(app);
      if Add(apps, app, again).Ok? { AddKeepsKindsApart(apps, app, again); }
    case On(i, step) =>
      if i < |apps| {
        StepHolds(apps[i], step);
        StepKeepsPorts(apps, i, step);
      }
  }

  /** Over every run of creations and operations, ports are distinct per server within each kind. */
  lemma {:induction false} RegistryKeepsPorts(apps: seq<App>, ops: seq<RegistryOp>)
    requires AllInv(apps) && KindsApart(apps) && forall op | op in ops :: Proper(op)
    ensures AllInv(ActAll(apps, ops)) && KindsApart(ActAll(apps, ops))
    decreases |ops|
  {
    if ops != [] {
      assert ops[0] in ops;
      ActKeeps(apps, ops[0]);
      RegistryKeepsPorts(Act(apps, ops[0]), ops[1..]);
    }
  }

  /** A creation that adds an application takes no port that the other kind holds. */
  predicate Considerate(apps: seq<App>, op: RegistryOp) {
    op.Create? && (forall i | 0 <= i < |apps| :: apps[i].id != op.app.id) ==> !HeldByOther(apps, op.app)
  }

  ghost predicate ConsiderateRun(apps: seq<App>, ops: seq<RegistryOp>)
    decreases |ops|
  {
    ops == [] || (Considerate(apps, ops[0]) && ConsiderateRun(Act(apps, ops[0]), ops[1..]))
  }

  lemma ConsiderateKeepsAllApart(apps: seq<App>, op: RegistryOp)
    requires AllInv(apps) && AllApart(apps) && Proper(op) && Considerate(apps, op)
    ensures AllApart(Act(apps, op))
  {
    match op
    case Create(app, again) =>
      CreatedInv(app);
      if Add(apps, app, false).Ok? { AddKeepsAllApartIff(apps, app); }
    case On(i, step) => if i < |apps| { StepKeepsPorts(apps, i, step); }
  }

  lemma AllApartByKind(apps: seq<App>)
    requires AllApart(apps)
    ensures KindsApart(apps)
  {
  }

  /** Such runs keep all ports of a server distinct. */
  lemma {:induction false} ConsiderateRunsKeepAllApart(apps: seq<App>, ops: seq<RegistryOp>)
    requires AllInv(apps) && AllApart(apps) && (forall op | op in ops :: Proper(op)) && ConsiderateRun(apps, ops)
    ensures AllApart(ActAll(apps, ops))
    decreases |ops|
  {
    if ops != [] {
      assert ops[0] in ops;
      AllApartByKind(apps);
      ActKeeps(apps, ops[0]);
      ConsiderateKeepsAllApart(apps, ops[0]);
      ConsiderateRunsKeepAllApart(Act(apps, ops[0]), ops[1..]);
    }
  }

  // ---- allocation ------------------------------------------------------------

  /** allocateNodePort looks at Node applications only. */
  function NodePort(a: App): Option<int> { if a.kind.Node? then HeldPort(a) else None }

  predicate Used(apps: seq<App>, serverId: Id, reserved: seq<int>, port: int) {
    port in reserved || exists i :: 0 <= i < |apps| && apps[i].serverId == serverId && NodePort(apps[i]) == Some(port)
  }

  predicate BoundsOk(reserved: seq<int>, start: int, end: int) {
    (forall p | p in reserved :: PortInRange(p)) && 1024 <= start <= end <= 65535
  }

  /** allocateNodePort: the smallest port of the range that is neither reserved nor held. */
  method AllocateNodePort(apps: seq<App>, serverId: Id, reserved: seq<int>, start: int, end: int)
      returns (port: Result<int, Error>)
    ensures port == Err(PortBoundsInvalid) <==> !BoundsOk(reserved, start, end)
    ensures port.Ok? ==> start <= port.value <= end && !Used(apps, serverId, reserved, port.value)
    ensures port.Ok? ==> forall p | start <= p < port.value :: Used(apps, serverId, reserved, p)
    ensures port == Err(PortExhausted) ==> forall p | start <= p <= end :: Used(apps, serverId, reserved, p)
    ensures port.Err? ==> port.error.PortBoundsInvalid? || port.error.PortExhausted?
  {
    if !BoundsOk(reserved, start, end) { return Err(PortBoundsInvalid); }
    var used := set p | p in reserved;
    for k := 0 to |apps|
      invariant forall p ::
          p in used <==>
          (p in reserved || exists i :: 0 <= i < k && apps[i].serverId == serverId && NodePort(apps[i]) == Some(p))
    {
      if apps[k].serverId == serverId && NodePort(apps[k]).Some? {
        used := used + {NodePort(apps[k]).value};
      }
    }
    for candidate := start to end + 1
      invariant forall p | start <= p < candidate :: Used(apps, serverId, reserved, p)
    {
      if candidate !in used { return Ok(candidate); }
    }
    return Err(PortExhausted);
  }

  /** The allocated port passes the conflict test of the creation that asked for it. */
  lemma AllocatedPortIsAccepted(apps: seq<App>, app: App, reserved: seq<int>, port: int)
    requires Inv(app) && Direct(app) && HeldPort(app) == Some(port) && !Used(apps, app.serverId, reserved, port)
    requires forall i | 0 <= i < |apps| :: apps[i].id != app.id
    ensures Add(apps, app, false) == Ok(apps + [app])
  {
    assert forall i | 0 <= i < |apps| && apps[i].serverId == app.serverId :: NodePort(apps[i]) != Some(port);
  }

  /** With the server's Python ports among the reserved ones it is free across kinds as well. */
  lemma ReservedPortsKeepAllApart(apps: seq<App>, app: App, reserved: seq<int>, port: int)
    requires AllApart(apps) && Inv(app) && Direct(app) && HeldPort(app) == Some(port)
    requires !Used(apps, app.serverId, reserved, port)
    requires forall i | 0 <= i < |apps| :: apps[i].id != app.id
    requires forall i | 0 <= i < |apps| && apps[i].serverId == app.serverId && apps[i].kind.Python?
        && HeldPort(apps[i]).Some? ::
      HeldPort(apps[i]).value in reserved
    ensures AllApart(apps + [app])
  {
    AllocatedPortIsAccepted(apps, app, reserved, port);
    AddKeepsAllApartIff(apps, app);
  }
}
