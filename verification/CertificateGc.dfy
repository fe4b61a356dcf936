/** Which retired certificates may lose their material, and what a sweep over them does. */
module CertificateGc {
  import opened Common
  import opened Texts
  import opened CertificateModel

  datatype Class = NotRetiredYet | AlreadyPurged | SharedActive | Retained | SharedRetained | Eligible

  /** What an inspection looks at besides the store: the ids domains point to, the retention window and the clock. */
  datatype Window = Window(bound: set<Text>, retention: nat, now: int)

  // ---- sharing ---------------------------------------------------------------

  function AcmeName(c: Certificate): Option<Text> {
    if c.source.Acme? && c.name.canonical != [] then Some(c.name.canonical) else None
  }

  function Paths(c: Certificate): set<Path> {
    (if c.certificatePath.Some? then {c.certificatePath.value} else {})
    + (if c.fullchainPath.Some? then {c.fullchainPath.value} else {})
    + (if c.privateKeyPath.Some? then {c.privateKeyPath.value} else {})
  }

  predicate SharesName(a: Certificate, b: Certificate) { AcmeName(a).Some? && AcmeName(a) == AcmeName(b) }
  predicate SharesDigest(a: Certificate, b: Certificate) { a.digest.Some? && a.digest == b.digest }
  predicate SharesPath(a: Certificate, b: Certificate) { exists p | p in Paths(a) :: p in Paths(b) }

  /** The three relations under which deleting one certificate's material harms another. */
  predicate Shares(a: Certificate, b: Certificate) { SharesName(a, b) || SharesDigest(a, b) || SharesPath(a, b) }

  /** As the second pass compares two retired certificates: path by path. */
  predicate SharesFields(a: Certificate, b: Certificate) {
    || SharesName(a, b) || SharesDigest(a, b)
    || (a.certificatePath.Some? && a.certificatePath == b.certificatePath)
    || (a.fullchainPath.Some? && a.fullchainPath == b.fullchainPath)
    || (a.privateKeyPath.Some? && a.privateKeyPath == b.privateKeyPath)
  }

  lemma FieldsAreSharing(a: Certificate, b: Certificate)
    requires Filed(a) && Filed(b)
    ensures SharesFields(a, b) <==> Shares(a, b)
  {
    if a.certificatePath.Some? && a.certificatePath == b.certificatePath { assert a.certificatePath.value in Paths(a); }
    if a.fullchainPath.Some? && a.fullchainPath == b.fullchainPath { assert a.fullchainPath.value in Paths(a); }
    if a.privateKeyPath.Some? && a.privateKeyPath == b.privateKeyPath { assert a.privateKeyPath.value in Paths(a); }
  }

  // ---- classes ---------------------------------------------------------------

  predicate Live(c: Certificate) { !c.state.Retired? }

  predicate SharesWithLive(s: Store, c: Certificate) { exists i | 0 <= i < |s| :: Live(s[i]) && Shares(c, s[i]) }

  /** A retired certificate that reaches the second pass. */
  predicate Reaches(s: Store, w: Window, c: Certificate) {
    c.state.Retired? && c.purgedAt.None? && c.id !in w.bound && !SharesWithLive(s, c)
  }

  predicate Expired(w: Window, c: Certificate) { c.retirement.Some? && w.now - c.retirement.value.at >= w.retention }

  predicate SharesWithRetained(s: Store, w: Window, c: Certificate) {
    exists i | 0 <= i < |s| :: Reaches(s, w, s[i]) && s[i].id != c.id && !Expired(w, s[i]) && SharesFields(c, s[i])
  }

  function ClassOf(s: Store, w: Window, c: Certificate): Class {
    if Live(c) then NotRetiredYet
    else if c.purgedAt.Some? then AlreadyPurged
    else if c.id in w.bound || SharesWithLive(s, c) then SharedActive
    else if !Expired(w, c) then Retained
    else if SharesWithRetained(s, w, c) then SharedRetained
    else Eligible
  }

  /** The members of `part` that fall into one class, in order. */
  function Members(s: Store, w: Window, k: Class, part: seq<Certificate>): seq<Certificate> {
    if part == [] then []
    else
      var init := Members(s, w, k, part[..|part| - 1]);
      var last := part[|part| - 1];
      if ClassOf(s, w, last) == k then init + [last] else init
  }

  lemma {:induction false} MembersIn(s: Store, w: Window, k: Class, part: seq<Certificate>)
    ensures forall c :: c in Members(s, w, k, part) <==> c in part && ClassOf(s, w, c) == k
  {
    if part != [] {
      MembersIn(s, w, k, part[..|part| - 1]);
      assert part == part[..|part| - 1] + [part[|part| - 1]];
    }
  }

  lemma {:induction false} MembersOf(s: Store, w: Window, k: Class, part: seq<Certificate>, c: Certificate)
    ensures multiset(Members(s, w, k, part))[c] == if ClassOf(s, w, c) == k then multiset(part)[c] else 0
  {
    if part != [] {
      MembersOf(s, w, k, part[..|part| - 1], c);
      assert part == part[..|part| - 1] + [part[|part| - 1]];
    }
  }

  /** Every certificate lands in exactly one of the six lists. */
  lemma Partition(s: Store, w: Window, part: seq<Certificate>)
    ensures multiset(part) == multiset(Members(s, w, NotRetiredYet, part))
        + multiset(Members(s, w, AlreadyPurged, part))
      + multiset(Members(s, w, SharedActive, part)) + multiset(Members(s, w, Retained, part))
      + multiset(Members(s, w, SharedRetained, part)) + multiset(Members(s, w, Eligible, part))
  {
    forall c: Certificate
      ensures multiset(part)[c] == multiset(Members(s, w, NotRetiredYet, part))[c]
          + multiset(Members(s, w, AlreadyPurged, part))[c]
        + multiset(Members(s, w, SharedActive, part))[c] + multiset(Members(s, w, Retained, part))[c]
        + multiset(Members(s, w, SharedRetained, part))[c] + multiset(Members(s, w, Eligible, part))[c]
    {
      MembersOf(s, w, NotRetiredYet, part, c);
      MembersOf(s, w, AlreadyPurged, part, c);
      MembersOf(s, w, SharedActive, part, c);
      MembersOf(s, w, Retained, part, c);
      MembersOf(s, w, SharedRetained, part, c);
      MembersOf(s, w, Eligible, part, c);
    }
  }

  /** The six counts add up to the number of certificates. */
  lemma {:induction false} CountsAddUp(s: Store, w: Window, part: seq<Certificate>)
    ensures |part| == |Members(s, w, NotRetiredYet, part)| + |Members(s, w, AlreadyPurged, part)|
        + |Members(s, w, SharedActive, part)|
      + |Members(s, w, Retained, part)| + |Members(s, w, SharedRetained, part)| + |Members(s, w, Eligible, part)|
  {
    if part != [] { CountsAddUp(s, w, part[..|part| - 1]); }
  }

  // ---- safety ----------------------------------------------------------------

  predicate AllFiled(s: Store) { forall i | 0 <= i < |s| :: Filed(s[i]) }

  /**
   What a purge must not touch: live certificates, and retired ones still in their window that
   reached the second pass.
   */
  predicate Protected(s: Store, w: Window, o: Certificate) { Live(o) || (Reaches(s, w, o) && !Expired(w, o)) }

  /**
   A certificate is eligible exactly when it is a retired, unpurged, unbound, expired one that
   shares nothing with a protected one.
   */
  lemma EligibleExactly(s: Store, w: Window, k: nat)
    requires k < |s| && IdsDistinct(s) && AllFiled(s)
    ensures ClassOf(s, w, s[k]) == Eligible
      <==> (s[k].state.Retired? && s[k].purgedAt.None? && s[k].id !in w.bound && Expired(w, s[k])
            && forall i | 0 <= i < |s| && i != k && Protected(s, w, s[i]) :: !Shares(s[k], s[i]))
  {
    forall i | 0 <= i < |s| ensures SharesFields(s[k], s[i]) <==> Shares(s[k], s[i]) { FieldsAreSharing(s[k], s[i]); }
    assert forall i | 0 <= i < |s| && i != k :: s[i].id != s[k].id;
  }

  /**
   The protection has one gap: a retired certificate still inside its window may share material with
   an eligible one exactly when the first pass set it aside, because a domain points to it or because
   it shares material with a live certificate itself.
   */
  lemma SetAsideIsUnprotected(s: Store, w: Window, k: nat, i: nat)
    requires k < |s| && i < |s| && i != k && IdsDistinct(s) && AllFiled(s) && ClassOf(s, w, s[k]) == Eligible
    requires s[i].state.Retired? && s[i].purgedAt.None? && !Expired(w, s[i]) && Shares(s[k], s[i])
    ensures s[i].id in w.bound || SharesWithLive(s, s[i])
  {
    EligibleExactly(s, w, k);
  }

  function Sample(id: Text, at: int): Certificate {
    Certificate(id, "d", "s", Name("a", "a"), Acme, true, false, Retired, None, None, None, None, None, 0,
                Some(Retirement("o", at, Errored, 0)), None)
  }

  /** It happens: two retired certificates of one name, the younger one still referenced by a domain. */
  lemma DomainBoundExample()
    ensures var s, w := [Sample("1", 0), Sample("2", 9)], Window({"2"}, 5, 10);
      ClassOf(s, w, s[0]) == Eligible && !Expired(w, s[1]) && s[1].id in w.bound && SharesName(s[0], s[1])
  {
    var s, w := [Sample("1", 0), Sample("2", 9)], Window({"2"}, 5, 10);
    assert !Reaches(s, w, s[1]);
  }

  // ---- time and retention ----------------------------------------------------

  /** Eligibility only grows as time passes or the retention window shrinks. */
  lemma EligibilityGrows(s: Store, early: Window, late: Window, c: Certificate)
    requires early.bound == late.bound && early.now <= late.now && early.retention >= late.retention
    requires ClassOf(s, early, c) == Eligible
    ensures ClassOf(s, late, c) == Eligible
  {
    forall i | 0 <= i < |s| && Reaches(s, late, s[i]) && s[i].id != c.id && !Expired(late, s[i])
        ensures !SharesFields(c, s[i]) {
      assert Reaches(s, early, s[i]) && !Expired(early, s[i]);
    }
  }

  // ---- a sweep ---------------------------------------------------------------

  /** The store after the material of the given ids was purged at one instant. */
  function Purged(s: Store, ids: set<Text>, at: int): (r: Store)
    ensures |r| == |s|
    ensures forall i | 0 <= i < |s| ::
        r[i] == if s[i].id in ids && s[i].state.Retired? && s[i].purgedAt.None?
        then s[i].(purgedAt := Some(at), updatedAt := at) else s[i]
  {
    seq(|s|, i requires 0 <= i < |s| =>
        if s[i].id in ids && s[i].state.Retired? && s[i].purgedAt.None?
            then s[i].(purgedAt := Some(at), updatedAt := at) else s[i])
  }

  function Ids(part: seq<Certificate>): (r: set<Text>)
    ensures forall c | c in part :: c.id in r
    ensures forall x | x in r :: exists c :: c in part && c.id == x
  {
    set i | 0 <= i < |part| :: part[i].id
  }

  /** Ids of eligible certificates only. */
  predicate EligibleIds(s: Store, w: Window, ids: set<Text>) {
    forall i | 0 <= i < |s| && s[i].id in ids :: ClassOf(s, w, s[i]) == Eligible
  }

  lemma LiveUntouched(s: Store, w: Window, ids: set<Text>, c: Certificate)
    requires EligibleIds(s, w, ids)
    ensures SharesWithLive(Purged(s, ids, w.now), c) <==> SharesWithLive(s, c)
  {
    var n := Purged(s, ids, w.now);
    forall i | 0 <= i < |s| ensures Live(n[i]) <==> Live(s[i]) {}
    if SharesWithLive(s, c) {
      var i :| 0 <= i < |s| && Live(s[i]) && Shares(c, s[i]);
      assert n[i] == s[i];
    }
    if SharesWithLive(n, c) {
      var i :| 0 <= i < |n| && Live(n[i]) && Shares(c, n[i]);
      assert n[i] == s[i];
    }
  }

  lemma RetainedUntouched(s: Store, w: Window, ids: set<Text>, c: Certificate)
    requires EligibleIds(s, w, ids)
    ensures SharesWithRetained(Purged(s, ids, w.now), w, c) <==> SharesWithRetained(s, w, c)
  {
    var n := Purged(s, ids, w.now);
    forall i | 0 <= i < |s|
        ensures (Reaches(n, w, n[i]) && !Expired(w, n[i]) <==> Reaches(s, w, s[i]) && !Expired(w, s[i]))
            && (!Expired(w, s[i]) ==> n[i] == s[i]) {
      LiveUntouched(s, w, ids, s[i]);
      assert s[i].id in ids ==> ClassOf(s, w, s[i]) == Eligible;
      assert Expired(w, n[i]) <==> Expired(w, s[i]);
    }
    if SharesWithRetained(s, w, c) {
      var i :| 0 <= i < |s| && Reaches(s, w, s[i]) && s[i].id != c.id && !Expired(w, s[i]) && SharesFields(c, s[i]);
      assert n[i] == s[i];
    }
    if SharesWithRetained(n, w, c) {
      var i :| 0 <= i < |n| && Reaches(n, w, n[i]) && n[i].id != c.id && !Expired(w, n[i]) && SharesFields(c, n[i]);
      assert n[i] == s[i];
    }
  }

  /** Purging eligible certificates moves them to the purged class and nothing else anywhere. */
  lemma PurgeMovesOnlyPurged(s: Store, w: Window, ids: set<Text>, i: nat)
    requires EligibleIds(s, w, ids) && i < |s|
    ensures var n := Purged(s, ids, w.now);
        ClassOf(n, w, n[i]) == if s[i].id in ids then AlreadyPurged else ClassOf(s, w, s[i])
  {
    LiveUntouched(s, w, ids, s[i]);
    RetainedUntouched(s, w, ids, s[i]);
    assert s[i].id in ids ==> ClassOf(s, w, s[i]) == Eligible;
  }

  ghost predicate NothingEligible(s: Store, w: Window) { forall i | 0 <= i < |s| :: ClassOf(s, w, s[i]) != Eligible }

  /** After a full sweep a second one at the same clock finds nothing to do. */
  lemma SecondSweepIsIdle(s: Store, w: Window)
    requires IdsDistinct(s)
    ensures NothingEligible(Purged(s, Ids(Members(s, w, Eligible, s)), w.now), w)
  {
    var ids := Ids(Members(s, w, Eligible, s));
    MembersIn(s, w, Eligible, s);
    EligibleIdsOfSweep(s, w, Members(s, w, Eligible, s));
    var n := Purged(s, ids, w.now);
    forall i | 0 <= i < |s| ensures ClassOf(n, w, n[i]) != Eligible {
      PurgeMovesOnlyPurged(s, w, ids, i);
      if ClassOf(s, w, s[i]) == Eligible { assert s[i] in Members(s, w, Eligible, s); }
    }
  }

  lemma EligibleIdsOfSweep(s: Store, w: Window, part: seq<Certificate>)
    requires IdsDistinct(s) && forall c | c in part :: c in s && ClassOf(s, w, c) == Eligible
    ensures EligibleIds(s, w, Ids(part))
  {
    forall i | 0 <= i < |s| && s[i].id in Ids(part) ensures ClassOf(s, w, s[i]) == Eligible {
      var c :| c in part && c.id == s[i].id;
      var j :| 0 <= j < |s| && s[j] == c;
      assert i == j;
    }
  }

  lemma IdsOfPrefix(all: seq<Certificate>, done: nat, id: Text)
    requires done <= |all| && id in Ids(all[..done])
    ensures id in Ids(all)
  {
    var c :| c in all[..done] && c.id == id;
    assert c in all;
  }

  /** What a rerun after an interruption makes of one record. */
  lemma RerunRecord(s: Store, w: Window, done: nat, i: nat, all: seq<Certificate>, first: Store)
    requires IdsDistinct(s) && all == Members(s, w, Eligible, s) && done <= |all|
    requires first == Purged(s, Ids(all[..done]), w.now) && i < |s|
    ensures Purged(first, Ids(Members(first, w, Eligible, first)), w.now)[i] == Purged(s, Ids(all), w.now)[i]
  {
    MembersIn(s, w, Eligible, s);
    MembersIn(first, w, Eligible, first);
    EligibleIdsOfSweep(s, w, all[..done]);
    EligibleIdsOfSweep(s, w, all);
    PurgeMovesOnlyPurged(s, w, Ids(all[..done]), i);
    if s[i].id in Ids(all[..done]) {
      IdsOfPrefix(all, done, s[i].id);
    } else if ClassOf(s, w, s[i]) == Eligible {
      assert s[i] in all && first[i] == s[i] && first[i] in Members(first, w, Eligible, first);
    } else {
      OnlyEligibleIds(first, w, i);
    }
  }

  lemma OnlyEligibleIds(s: Store, w: Window, i: nat)
    requires IdsDistinct(s) && i < |s| && ClassOf(s, w, s[i]) != Eligible
    ensures s[i].id !in Ids(Members(s, w, Eligible, s))
  {
    MembersIn(s, w, Eligible, s);
    EligibleIdsOfSweep(s, w, Members(s, w, Eligible, s));
  }

  /**
   A sweep that stops part way and is run again at the same clock leaves the store exactly as an
   uninterrupted one would, wherever it stopped.
   */
  lemma InterruptedSweepConverges(s: Store, w: Window, done: nat)
    requires IdsDistinct(s) && done <= |Members(s, w, Eligible, s)|
    ensures var first := Purged(s, Ids(Members(s, w, Eligible, s)[..done]), w.now);
      Purged(first, Ids(Members(first, w, Eligible, first)), w.now) == Purged(s, Ids(Members(s, w, Eligible, s)), w.now)
  {
    var all := Members(s, w, Eligible, s);
    var first := Purged(s, Ids(all[..done]), w.now);
    forall i | 0 <= i < |s|
        ensures Purged(first, Ids(Members(first, w, Eligible, first)), w.now)[i] == Purged(s, Ids(all), w.now)[i] {
      RerunRecord(s, w, done, i, all, first);
    }
  }

  // ---- operations between the inspection and the purge -----------------------

  /** Whatever runs meanwhile, a candidate is still there, still retired, and is marked purged when its turn comes. */
  lemma CandidateStaysPurgeable(s: Store, w: Window, ops: seq<Timed>, k: nat)
    requires IdsDistinct(s) && FreshAlong(s, ops) && k < |s| && ClassOf(s, w, s[k]) == Eligible
    ensures var n := Run(s, ops);
        k < |n| && n[k].id == s[k].id && n[k].state.Retired? && Change(n[k], MarkPurged(s[k].id, w.now), w.now).Ok?
  {
    RetiredIsAbsorbing(s, ops);
    assert Later(s[k], Run(s, ops)[k]);
  }

  /** A live certificate that by then uses a candidate's ACME name was created after the inspection. */
  lemma LateSharerIsNew(s: Store, w: Window, ops: seq<Timed>, k: nat, i: nat)
    requires IdsDistinct(s) && AllFiled(s) && FreshAlong(s, ops) && k < |s| && ClassOf(s, w, s[k]) == Eligible
    requires i < |Run(s, ops)| && Live(Run(s, ops)[i]) && SharesName(s[k], Run(s, ops)[i])
    ensures i >= |s|
  {
    RetiredIsAbsorbing(s, ops);
    if i < |s| {
      assert Later(s[i], Run(s, ops)[i]);
      assert Live(s[i]) && Shares(s[k], s[i]);
      EligibleExactly(s, w, k);
      assert false;
    }
  }

  /**
   It happens: the name is issued again between the inspection and the deletion, and the deletion
   takes the new files.
   */
  lemma LateIssueExample()
    ensures var s, w := [Sample("1", 0)], Window({}, 5, 10);
      var report := Report(true, LivePath("a", CertPem), LivePath("a", FullchainPem), LivePath("a", PrivkeyPem), 100);
      var ops := [Timed(Create("2", "d", "s", Name("a", "a"), true, false, false), 10),
                  Timed(MarkActive("2", report), 10)];
      && ClassOf(s, w, s[0]) == Eligible && FreshAlong(s, ops)
      && |Run(s, ops)| == 2 && Run(s, ops)[1].state.Active? && SharesName(s[0], Run(s, ops)[1])
          && ClassOf(Run(s, ops), w, s[0]) == SharedActive
  {
    var s, w := [Sample("1", 0)], Window({}, 5, 10);
    var report := Report(true, LivePath("a", CertPem), LivePath("a", FullchainPem), LivePath("a", PrivkeyPem), 100);
    var first := Timed(Create("2", "d", "s", Name("a", "a"), true, false, false), 10);
    var second := Timed(MarkActive("2", report), 10);
    var c := NewAcme("2", "d", "s", Name("a", "a"), true, false, 10);
    var mid := [s[0], c];
    assert Apply(s, first.op, 10).0 == mid;
    assert Find(mid, "2") == Some(1) by { assert mid[1..][0] == c; }
    var active := WithPaths(c, report).(state := Active, updatedAt := 10);
    assert Apply(mid, second.op, 10).0 == [s[0], active];
    assert [first, second][1..] == [second] && [second][1..] == [];
    assert Run(mid, [second]) == Run([s[0], active], []);
    assert Run(s, [first, second]) == Run(mid, [second]) == [s[0], active];
    assert Live([s[0], active][1]) && SharesName(s[0], [s[0], active][1]);
  }

  ghost predicate NameInUse(s: Store, x: Text) { exists i :: 0 <= i < |s| && Live(s[i]) && AcmeName(s[i]) == Some(x) }

  predicate CreatesName(s: Store, op: Op, x: Text, now: int) {
    op.Create? && op.name.canonical == x && Apply(s, op, now).1.Ok?
  }

  /** An accepted creation for this name is among the operations. */
  predicate Issues(s: Store, ops: seq<Timed>, x: Text)
    decreases |ops|
  {
    ops != []
    && (CreatesName(s, ops[0].op, x, ops[0].now) || Issues(Apply(s, ops[0].op, ops[0].now).0, ops[1..], x))
  }

  /** What one operation leaves of a record it does not add: its name, and its life unless it retires it. */
  lemma RecordKept(s: Store, op: Op, now: int, i: nat)
    requires IdsDistinct(s) && Fresh(s, op) && i < |s|
    ensures var n := Apply(s, op, now).0;
      && i < |n| && AcmeName(n[i]) == AcmeName(s[i]) && (Live(n[i]) ==> Live(s[i]))
      && (!op.Retire? && Live(s[i]) ==> Live(n[i]))
  {
    ApplyKeeps(s, op, now);
    assert Later(s[i], Apply(s, op, now).0[i]);
  }

  /** What an operation adds is live; only a creation adds an ACME name. */
  lemma RecordAdded(s: Store, op: Op, now: int, i: nat)
    requires |s| <= i < |Apply(s, op, now).0|
    ensures var c := Apply(s, op, now).0[i];
      AcmeName(c).Some? ==> op.Create? && AcmeName(c) == Some(op.name.canonical) && Apply(s, op, now).1.Ok?
  {
  }

  lemma NameStep(s: Store, op: Op, now: int, x: Text)
    requires IdsDistinct(s) && Fresh(s, op) && x != []
    ensures NameInUse(Apply(s, op, now).0, x) ==> NameInUse(s, x) || CreatesName(s, op, x, now)
    ensures !op.Retire? && (NameInUse(s, x) || CreatesName(s, op, x, now)) ==> NameInUse(Apply(s, op, now).0, x)
  {
    var n := Apply(s, op, now).0;
    if NameInUse(n, x) {
      var i: nat :| i < |n| && Live(n[i]) && AcmeName(n[i]) == Some(x);
      if i < |s| { RecordKept(s, op, now, i); } else { RecordAdded(s, op, now, i); }
    }
    if !op.Retire? && NameInUse(s, x) {
      var i: nat :| i < |s| && Live(s[i]) && AcmeName(s[i]) == Some(x);
      RecordKept(s, op, now, i);
    }
    if CreatesName(s, op, x, now) { assert Live(n[|s|]) && AcmeName(n[|s|]) == Some(x); }
  }

  /**
   An ACME name is in use after a run only if it was before or is issued in it; and if nothing is retired
   in the run, exactly then.
   */
  lemma {:induction false} NameInUseIff(s: Store, ops: seq<Timed>, x: Text)
    requires IdsDistinct(s) && FreshAlong(s, ops) && x != []
    ensures NameInUse(Run(s, ops), x) ==> NameInUse(s, x) || Issues(s, ops, x)
    ensures (forall t | t in ops :: !t.op.Retire?) ==>
        (NameInUse(Run(s, ops), x) <==> NameInUse(s, x) || Issues(s, ops, x))
    decreases |ops|
  {
    if ops != [] {
      var t, n := ops[0], Apply(s, ops[0].op, ops[0].now).0;
      assert t in ops;
      ApplyKeeps(s, t.op, t.now);
      NameStep(s, t.op, t.now, x);
      NameInUseIff(n, ops[1..], x);
    }
  }

  /**
   The exact condition for a deletion.  A candidate's name is free when its turn comes unless it was issued
   again since the inspection; if nothing was retired in between, it is in use exactly when it was.
   */
  lemma DeletedNameInUseIff(s: Store, w: Window, ops: seq<Timed>, k: nat)
    requires IdsDistinct(s) && AllFiled(s) && FreshAlong(s, ops) && k < |s| && ClassOf(s, w, s[k]) == Eligible
    requires AcmeName(s[k]).Some?
    ensures NameInUse(Run(s, ops), AcmeName(s[k]).value) ==> Issues(s, ops, AcmeName(s[k]).value)
    ensures (forall t | t in ops :: !t.op.Retire?) ==>
      (NameInUse(Run(s, ops), AcmeName(s[k]).value) <==> Issues(s, ops, AcmeName(s[k]).value))
  {
    var x := AcmeName(s[k]).value;
    NameInUseIff(s, ops, x);
    EligibleExactly(s, w, k);
    forall i | 0 <= i < |s| && Live(s[i]) ensures AcmeName(s[i]) != Some(x) {
      if AcmeName(s[i]) == Some(x) { assert SharesName(s[k], s[i]) && i != k; }
    }
  }
}
