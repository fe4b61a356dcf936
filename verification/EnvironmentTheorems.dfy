/** The environment store against its map semantics, and what a revision number guarantees over whole runs. */
module EnvironmentTheorems {
  import opened Common
  import opened Texts
  import opened Environment

  // ---- views -----------------------------------------------------------------

  /** The map holds exactly the visible variables of the application. */
  ghost predicate Represents(m: map<Text, (Text, bool)>, vars: seq<Variable>, app: Text) {
    && (forall i | 0 <= i < |vars| && Visible(vars[i], app) :: vars[i].key in m && m[vars[i].key] == Entry(vars[i]))
    && (forall k | k in m :: Holds(vars, app, k))
  }

  ghost predicate Holds(vars: seq<Variable>, app: Text, k: Text) {
    exists i :: 0 <= i < |vars| && Visible(vars[i], app) && vars[i].key == k
  }

  lemma {:induction false} ViewRepresents(vars: seq<Variable>, app: Text)
    requires KeysDistinct(vars)
    ensures Represents(View(vars, app), vars, app)
  {
    if vars != [] {
      var init, last := vars[..|vars| - 1], vars[|vars| - 1];
      ViewRepresents(init, app);
      forall i | 0 <= i < |vars| && Visible(vars[i], app)
          ensures vars[i].key in View(vars, app) && View(vars, app)[vars[i].key] == Entry(vars[i]) {
        if i < |init| { assert init[i] == vars[i]; }
      }
      forall k | k in View(vars, app) ensures Holds(vars, app, k) {
        if k in View(init, app) {
          var i :| 0 <= i < |init| && Visible(init[i], app) && init[i].key == k;
          assert vars[i] == init[i];
        }
      }
    }
  }

  lemma RepresentedOnce(m: map<Text, (Text, bool)>, vars: seq<Variable>, app: Text)
    requires KeysDistinct(vars) && Represents(m, vars, app)
    ensures m == View(vars, app)
  {
    ViewRepresents(vars, app);
    var v := View(vars, app);
    forall k ensures (k in m <==> k in v) && (k in m ==> m[k] == v[k]) {
      if k in m { assert Holds(vars, app, k); }
      if k in v { assert Holds(vars, app, k); }
    }
  }

  /** The map after one more variable was written, seen by any application. */
  function Written(m: map<Text, (Text, bool)>, v: Variable, app: Text): map<Text, (Text, bool)> {
    if Visible(v, app) then m[v.key := Entry(v)] else m
  }

  lemma AppendView(vars: seq<Variable>, v: Variable, app: Text)
    ensures View(vars + [v], app) == Written(View(vars, app), v, app)
  {
    assert (vars + [v])[..|vars|] == vars;
  }

  lemma {:induction false} ReplaceView(vars: seq<Variable>, k: nat, v: Variable, app: Text)
    requires KeysDistinct(vars) && k < |vars| && v.app == vars[k].app && v.key == vars[k].key
    ensures View(vars[k := v], app) == Written(View(vars, app), v, app)
  {
    var n := vars[k := v];
    var init, last := vars[..|vars| - 1], vars[|vars| - 1];
    if k == |vars| - 1 {
      assert n[..|vars| - 1] == init;
    } else {
      assert n[..|vars| - 1] == init[k := v];
      assert last.app != v.app || last.key != v.key;
      ReplaceView(init, k, v, app);
    }
  }

  lemma MapSetKeys(vars: seq<Variable>, v: Variable)
    requires KeysDistinct(vars)
    ensures KeysDistinct(MapSet(vars, v))
  {
    if Find(vars, v.app, v.key).None? { NoVariable(vars, v.app, v.key); }
  }

  lemma MapSetWrites(vars: seq<Variable>, v: Variable, app: Text)
    requires KeysDistinct(vars)
    ensures View(MapSet(vars, v), app) == Written(View(vars, app), v, app)
  {
    var k := Find(vars, v.app, v.key);
    if k.Some? { ReplaceView(vars, k.value, v, app); } else { AppendView(vars, v, app); }
  }

  lemma PutView(vars: seq<Variable>, app: Text, key: Text, payload: Payload, now: int, other: Text)
    requires KeysDistinct(vars)
    ensures KeysDistinct(Put(vars, app, key, payload, now))
    ensures View(Put(vars, app, key, payload, now), other)
        == Written(View(vars, other), Variable(app, key, payload, now, now), other)
  {
    var k := Find(vars, app, key);
    var v := if k.Some? then vars[k.value].(payload := payload, updatedAt := now)
        else Variable(app, key, payload, now, now);
    assert Put(vars, app, key, payload, now) == MapSet(vars, v);
    MapSetKeys(vars, v);
    MapSetWrites(vars, v, other);
  }

  lemma RemoveDistinct(vars: seq<Variable>, k: nat)
    requires KeysDistinct(vars) && k < |vars|
    ensures KeysDistinct(vars[..k] + vars[k + 1..])
  {
    var n := vars[..k] + vars[k + 1..];
    assert forall i | 0 <= i < |n| :: n[i] == vars[if i < k then i else i + 1];
  }

  lemma RemoveView(vars: seq<Variable>, k: nat, other: Text)
    requires KeysDistinct(vars) && k < |vars|
    ensures KeysDistinct(vars[..k] + vars[k + 1..])
    ensures View(vars[..k] + vars[k + 1..], other) == if Visible(vars[k], other) then View(vars, other) - {vars[k].key}
        else View(vars, other)
  {
    var n := vars[..k] + vars[k + 1..];
    RemoveDistinct(vars, k);
    assert forall i | 0 <= i < |n| :: n[i] == vars[if i < k then i else i + 1];
    ViewRepresents(vars, other);
    var m := if Visible(vars[k], other) then View(vars, other) - {vars[k].key} else View(vars, other);
    forall x | x in m ensures Holds(n, other, x) {
      var i :| 0 <= i < |vars| && Visible(vars[i], other) && vars[i].key == x;
      assert i != k;
      assert n[if i < k then i else i - 1] == vars[i];
    }
    RepresentedOnce(m, n, other);
  }

  // ---- the import loop against map override ----------------------------------

  /** The map an import stands for. */
  function EntryMap(entries: seq<(Text, Text)>, secret: bool): map<Text, (Text, bool)> {
    if entries == [] then map[]
    else EntryMap(entries[..|entries| - 1], secret)[entries[|entries| - 1].0 := (entries[|entries| - 1].1, secret)]
  }

  lemma {:induction false} EntryMapKeys(entries: seq<(Text, Text)>, secret: bool)
    ensures forall k :: k in EntryMap(entries, secret) <==> exists i :: 0 <= i < |entries| && entries[i].0 == k
    ensures Parsed(entries) ==> forall i | 0 <= i < |entries| ::
        EntryMap(entries, secret)[entries[i].0] == (entries[i].1, secret)
  {
    if entries != [] {
      var init := entries[..|entries| - 1];
      EntryMapKeys(init, secret);
      assert forall i | 0 <= i < |init| :: init[i] == entries[i];
      forall k ensures k in EntryMap(entries, secret) <==> exists i :: 0 <= i < |entries| && entries[i].0 == k {
        if i :| 0 <= i < |entries| && entries[i].0 == k {
          if i < |init| { assert init[i].0 == k; }
        }
        if k in EntryMap(init, secret) {
          var i :| 0 <= i < |init| && init[i].0 == k;
          assert entries[i].0 == k;
        } else if k == entries[|entries| - 1].0 {
          assert entries[|init|].0 == k;
        }
      }
      if Parsed(entries) {
        assert Parsed(init);
        forall i | 0 <= i < |entries| ensures EntryMap(entries, secret)[entries[i].0] == (entries[i].1, secret) {
          if i < |init| { assert init[i] == entries[i]; }
        }
      }
    }
  }

  lemma ParsedPrefix(entries: seq<(Text, Text)>)
    requires Parsed(entries) && entries != []
    ensures Parsed(entries[..|entries| - 1])
    ensures forall i | 0 <= i < |entries| - 1 :: entries[i].0 != entries[|entries| - 1].0
  {
  }

  lemma OverrideLast(a: map<Text, (Text, bool)>, b: map<Text, (Text, bool)>, k: Text, v: (Text, bool))
    ensures a + b[k := v] == (a + b)[k := v]
  {
  }

  lemma SetGains(before: set<Text>, x: Text, without: set<Text>)
    requires x !in before
    ensures |before + {x}| == |before| + 1
    ensures |(before + {x}) - without| == |before - without| + if x in without then 0 else 1
  {
    if x in without {
      assert (before + {x}) - without == before - without;
    } else {
      assert (before + {x}) - without == (before - without) + {x};
    }
  }

  predicate AllVisible(vars: seq<Variable>, app: Text) { forall i | 0 <= i < |vars| :: Visible(vars[i], app) }

  lemma MapSetView(next: seq<Variable>, v: Variable, app: Text)
    requires KeysDistinct(next) && AllVisible(next, app) && Visible(v, app)
    ensures KeysDistinct(MapSet(next, v)) && AllVisible(MapSet(next, v), app)
    ensures View(MapSet(next, v), app) == View(next, app)[v.key := Entry(v)]
  {
    MapSetKeys(next, v);
    MapSetWrites(next, v, app);
  }

  /** What one imported entry contributes: its value under its key, and a count of whether it was new or different. */
  lemma EntryImported(p: Progress, masterKey: Option<nat>, existing: seq<Variable>, app: Text, entry: (Text, Text),
                      secret: bool, now: int, nonce: nat)
    requires KeysDistinct(existing) && AllVisible(existing, app) && KeysDistinct(p.next) && AllVisible(p.next, app)
    requires KeyOk(entry.0)
    requires ImportEntry(p, masterKey, existing, app, entry, secret, now, nonce).Ok?
    ensures var r, v := ImportEntry(p, masterKey, existing, app, entry, secret, now, nonce).value, View(existing, app);
      && KeysDistinct(r.next) && AllVisible(r.next, app)
      && View(r.next, app) == View(p.next, app)[entry.0 := (entry.1, secret)]
      && r.added == p.added + (if entry.0 in v then 0 else 1)
      && r.updated == p.updated + (if entry.0 in v && v[entry.0] != (entry.1, secret) then 1 else 0)
  {
    ViewRepresents(existing, app);
    var previous := Previous(existing, app, entry.0);
    if Find(existing, app, entry.0).None? { NoVariable(existing, app, entry.0); }
    if entry.0 in View(existing, app) {
      assert Holds(existing, app, entry.0);
      assert Visible(existing[Find(existing, app, entry.0).value], app);
    }
    var same := Unchanged(masterKey, previous, entry.1, secret);
    if same.value && previous.Some? {
      MapSetView(p.next, previous.value, app);
    } else {
      MapSetView(p.next, Imported(masterKey, previous, app, entry, secret, now, nonce), app);
    }
  }

  /** How many imported keys are new, and how many carry a different value or visibility. */
  function AddedCount(v: map<Text, (Text, bool)>, entries: seq<(Text, Text)>): nat {
    if entries == [] then 0
    else AddedCount(v, entries[..|entries| - 1]) + if entries[|entries| - 1].0 in v then 0 else 1
  }

  function UpdatedCount(v: map<Text, (Text, bool)>, entries: seq<(Text, Text)>, secret: bool): nat {
    if entries == [] then 0
    else
      var last := entries[|entries| - 1];
      UpdatedCount(v, entries[..|entries| - 1], secret) + if last.0 in v && v[last.0] != (last.1, secret) then 1 else 0
  }

  lemma {:induction false} EntriesImported(start: seq<Variable>, masterKey: Option<nat>, existing: seq<Variable>,
                                           app: Text, entries: seq<(Text, Text)>,
                                           secret: bool, now: int, nonce: nat)
    requires KeysDistinct(existing) && AllVisible(existing, app) && KeysDistinct(start) && AllVisible(start, app)
    requires Parsed(entries)
    requires ImportEntries(start, masterKey, existing, app, entries, secret, now, nonce).Ok?
    ensures var p, v := ImportEntries(start, masterKey, existing, app, entries, secret, now, nonce).value,
        View(existing, app);
      && KeysDistinct(p.next) && AllVisible(p.next, app)
          && View(p.next, app) == View(start, app) + EntryMap(entries, secret)
      && p.added == AddedCount(v, entries) && p.updated == UpdatedCount(v, entries, secret)
  {
    if entries == [] {
      assert View(start, app) + map[] == View(start, app);
    } else {
      var init, last := entries[..|entries| - 1], entries[|entries| - 1];
      ParsedPrefix(entries);
      EntriesImported(start, masterKey, existing, app, init, secret, now, nonce);
      var p := ImportEntries(start, masterKey, existing, app, init, secret, now, nonce).value;
      EntryImported(p, masterKey, existing, app, last, secret, now, nonce + |entries|);
      OverrideLast(View(start, app), EntryMap(init, secret), last.0, (last.1, secret));
    }
  }

  // ---- counting --------------------------------------------------------------

  lemma LastEntryKey(entries: seq<(Text, Text)>, secret: bool)
    requires entries != []
    ensures EntryMap(entries, secret).Keys == EntryMap(entries[..|entries| - 1], secret).Keys
        + {entries[|entries| - 1].0}
  {
  }

  lemma {:induction false} AddedCounts(v: map<Text, (Text, bool)>, entries: seq<(Text, Text)>, secret: bool)
    requires Parsed(entries)
    ensures AddedCount(v, entries) == |EntryMap(entries, secret).Keys - v.Keys|
  {
    if entries != [] {
      ParsedPrefix(entries);
      AddedCounts(v, entries[..|entries| - 1], secret);
      NotYet(entries, secret);
      LastEntryKey(entries, secret);
      SetGains(EntryMap(entries[..|entries| - 1], secret).Keys, entries[|entries| - 1].0, v.Keys);
    }
  }

  lemma NotYet(entries: seq<(Text, Text)>, secret: bool)
    requires Parsed(entries) && entries != []
    ensures entries[|entries| - 1].0 !in EntryMap(entries[..|entries| - 1], secret)
  {
    ParsedPrefix(entries);
    var init := entries[..|entries| - 1];
    EntryMapKeys(init, secret);
    assert forall i | 0 <= i < |init| :: init[i] == entries[i];
  }

  lemma {:induction false} NothingCounted(v: map<Text, (Text, bool)>, entries: seq<(Text, Text)>, secret: bool)
    ensures AddedCount(v, entries) + UpdatedCount(v, entries, secret) == 0
      <==> forall i | 0 <= i < |entries| :: entries[i].0 in v && v[entries[i].0] == (entries[i].1, secret)
  {
    if entries != [] {
      var init := entries[..|entries| - 1];
      NothingCounted(v, init, secret);
      assert forall i | 0 <= i < |init| :: init[i] == entries[i];
    }
  }

  lemma {:induction false} ViewSize(existing: seq<Variable>, app: Text)
    requires KeysDistinct(existing) && AllVisible(existing, app)
    ensures |View(existing, app).Keys| == |existing|
  {
    if existing != [] {
      var init, last := existing[..|existing| - 1], existing[|existing| - 1];
      PrefixDistinct(existing, app);
      ViewSize(init, app);
      LastKeyIsNew(existing, app);
      SetGains(View(init, app).Keys, last.key, {});
      assert View(existing, app).Keys == View(init, app).Keys + {last.key};
    }
  }

  /** The number of visible variables an import does not name. */
  lemma {:induction false} MissingCounts(existing: seq<Variable>, app: Text, entries: seq<(Text, Text)>,
                                         named: set<Text>)
    requires KeysDistinct(existing) && AllVisible(existing, app)
    requires forall k :: k in named <==> exists i | 0 <= i < |entries| :: entries[i].0 == k
    ensures Missing(existing, entries) == |View(existing, app).Keys - named|
  {
    if existing != [] {
      var init, last := existing[..|existing| - 1], existing[|existing| - 1];
      PrefixDistinct(existing, app);
      MissingCounts(init, app, entries, named);
      LastKeyIsNew(existing, app);
      SetGains(View(init, app).Keys, last.key, named);
      assert View(existing, app).Keys == View(init, app).Keys + {last.key};
    }
  }

  lemma PrefixDistinct(existing: seq<Variable>, app: Text)
    requires KeysDistinct(existing) && AllVisible(existing, app) && existing != []
    ensures KeysDistinct(existing[..|existing| - 1]) && AllVisible(existing[..|existing| - 1], app)
  {
  }

  lemma LastKeyIsNew(existing: seq<Variable>, app: Text)
    requires KeysDistinct(existing) && AllVisible(existing, app) && existing != []
    ensures existing[|existing| - 1].key !in View(existing[..|existing| - 1], app)
  {
    var init, last := existing[..|existing| - 1], existing[|existing| - 1];
    assert forall i | 0 <= i < |init| :: init[i] == existing[i] && init[i].key != last.key;
    ViewRepresents(init, app);
  }

  // ---- import ----------------------------------------------------------------

  lemma {:induction false} ExistingMembers(vars: seq<Variable>, app: Text)
    ensures forall v :: v in Existing(vars, app) <==> v in vars && Visible(v, app)
    ensures forall v :: v in Others(vars, app) <==> v in vars && !Visible(v, app)
  {
    if vars != [] {
      ExistingMembers(vars[..|vars| - 1], app);
      assert vars == vars[..|vars| - 1] + [vars[|vars| - 1]];
    }
  }

  /** The last variable's name is not among the earlier ones, however they are filtered. */
  lemma LastIsNew(vars: seq<Variable>, part: seq<Variable>)
    requires KeysDistinct(vars) && vars != [] && forall v | v in part :: v in vars[..|vars| - 1]
    ensures forall i | 0 <= i < |part| :: part[i].app != vars[|vars| - 1].app || part[i].key != vars[|vars| - 1].key
  {
    forall i | 0 <= i < |part| ensures part[i].app != vars[|vars| - 1].app || part[i].key != vars[|vars| - 1].key {
      assert part[i] in part;
      var j :| 0 <= j < |vars| - 1 && vars[..|vars| - 1][j] == part[i];
      assert vars[j] == part[i];
    }
  }

  lemma PrefixKeys(vars: seq<Variable>)
    requires KeysDistinct(vars) && vars != []
    ensures KeysDistinct(vars[..|vars| - 1])
  {
  }

  lemma AppendKeepsDistinct(part: seq<Variable>, v: Variable)
    requires KeysDistinct(part) && forall i | 0 <= i < |part| :: part[i].app != v.app || part[i].key != v.key
    ensures KeysDistinct(part + [v])
  {
  }

  lemma {:induction false} FiltersDistinct(vars: seq<Variable>, app: Text)
    requires KeysDistinct(vars)
    ensures KeysDistinct(Existing(vars, app)) && KeysDistinct(Others(vars, app))
  {
    if vars != [] {
      var init, last := vars[..|vars| - 1], vars[|vars| - 1];
      PrefixKeys(vars);
      FiltersDistinct(init, app);
      ExistingMembers(init, app);
      if Visible(last, app) {
        LastIsNew(vars, Existing(init, app));
        AppendKeepsDistinct(Existing(init, app), last);
      } else {
        LastIsNew(vars, Others(init, app));
        AppendKeepsDistinct(Others(init, app), last);
      }
    }
  }

  lemma ExistingDistinct(vars: seq<Variable>, app: Text)
    requires KeysDistinct(vars)
    ensures KeysDistinct(Existing(vars, app)) && AllVisible(Existing(vars, app), app)
    ensures KeysDistinct(Others(vars, app))
    ensures forall i | 0 <= i < |Others(vars, app)| :: !Visible(Others(vars, app)[i], app)
  {
    FiltersDistinct(vars, app);
    ExistingMembers(vars, app);
    forall i | 0 <= i < |Existing(vars, app)| ensures Visible(Existing(vars, app)[i], app) {
      assert Existing(vars, app)[i] in Existing(vars, app);
    }
    forall i | 0 <= i < |Others(vars, app)| ensures !Visible(Others(vars, app)[i], app) {
      assert Others(vars, app)[i] in Others(vars, app);
    }
  }

  /** Filtering by visibility keeps the application's own view, and what is left keeps every other one. */
  lemma {:induction false} FilteredViews(vars: seq<Variable>, app: Text, other: Text)
    ensures View(Existing(vars, app), app) == View(vars, app)
    ensures other != app ==> View(Others(vars, app), other) == View(vars, other)
  {
    if vars != [] {
      var init, last := vars[..|vars| - 1], vars[|vars| - 1];
      FilteredViews(init, app, other);
      if Visible(last, app) { AppendView(Existing(init, app), last, app); } else {
        AppendView(Others(init, app), last, other);
      }
    }
  }

  /** The rewritten list: what was not visible, followed by the application's new variables. */
  lemma JoinedView(others: seq<Variable>, next: seq<Variable>, app: Text, other: Text)
    requires KeysDistinct(others) && KeysDistinct(next) && AllVisible(next, app) && forall i | 0 <= i < |others| ::
        !Visible(others[i], app)
    ensures KeysDistinct(others + next)
    ensures View(others + next, other) == if other == app then View(next, app) else View(others, other)
  {
    var n := others + next;
    forall i, j | 0 <= i < j < |n| ensures n[i].app != n[j].app || n[i].key != n[j].key {
      if i < |others| <= j { assert Visible(next[j - |others|], app) && !Visible(others[i], app); }
    }
    ViewRepresents(others, other);
    ViewRepresents(next, app);
    var m := if other == app then View(next, app) else View(others, other);
    forall k | k in m ensures Holds(n, other, k) {
      if other == app {
        var i :| 0 <= i < |next| && Visible(next[i], app) && next[i].key == k;
        assert n[|others| + i] == next[i];
      } else {
        var i :| 0 <= i < |others| && Visible(others[i], other) && others[i].key == k;
        assert n[i] == others[i];
      }
    }
    forall i | 0 <= i < |n| && Visible(n[i], other) ensures n[i].key in m && m[n[i].key] == Entry(n[i]) {
      if i >= |others| { assert Visible(next[i - |others|], app); }
    }
    RepresentedOnce(m, n, other);
  }

  /** The map after an import: the imported one, over the old one when merging. */
  function Target(before: map<Text, (Text, bool)>, r: Request): map<Text, (Text, bool)> {
    if r.mode.Merge? then before + EntryMap(r.entries, r.secret) else EntryMap(r.entries, r.secret)
  }

  lemma EmptyOverride(m: map<Text, (Text, bool)>)
    ensures map[] + m == m
  {
  }

  lemma ImportLoop(s: State, masterKey: Option<nat>, r: Request, now: int, nonce: nat, existing: seq<Variable>,
                   start: seq<Variable>)
    requires KeysDistinct(s.variables) && Parsed(r.entries) && existing == Existing(s.variables, r.app)
    requires !r.mode.OtherMode?
    requires start == if r.mode.Merge? then existing else []
    requires ImportEntries(start, masterKey, existing, r.app, r.entries, r.secret, now, nonce).Ok?
    ensures var p, v := ImportEntries(start, masterKey, existing, r.app, r.entries, r.secret, now, nonce).value,
        View(s.variables, r.app);
      && KeysDistinct(p.next) && AllVisible(p.next, r.app) && View(p.next, r.app) == Target(v, r)
      && p.added == AddedCount(v, r.entries) && p.updated == UpdatedCount(v, r.entries, r.secret)
  {
    ExistingDistinct(s.variables, r.app);
    FilteredViews(s.variables, r.app, r.app);
    EntriesImported(start, masterKey, existing, r.app, r.entries, r.secret, now, nonce);
    EmptyOverride(EntryMap(r.entries, r.secret));
  }

  function DeletedCount(v: map<Text, (Text, bool)>, r: Request): nat {
    if r.mode.Replace? then |v.Keys - EntryMap(r.entries, r.secret).Keys| else 0
  }

  /** Every entry is already there with its value: the imported map is part of the old one. */
  lemma NothingNew(v: map<Text, (Text, bool)>, entries: seq<(Text, Text)>, secret: bool)
    requires Parsed(entries)
    ensures (forall i | 0 <= i < |entries| :: entries[i].0 in v && v[entries[i].0] == (entries[i].1, secret))
       <==> (forall k | k in EntryMap(entries, secret) :: k in v && v[k] == EntryMap(entries, secret)[k])
  {
    EntryMapKeys(entries, secret);
    var e := EntryMap(entries, secret);
    if forall i | 0 <= i < |entries| :: entries[i].0 in v && v[entries[i].0] == (entries[i].1, secret) {
      forall k | k in e ensures k in v && v[k] == e[k] { var i :| 0 <= i < |entries| && entries[i].0 == k; }
    }
  }

  lemma OverrideIsIdentity(v: map<Text, (Text, bool)>, e: map<Text, (Text, bool)>)
    ensures v + e == v <==> forall k | k in e :: k in v && v[k] == e[k]
    ensures e == v <==> (|v.Keys - e.Keys| == 0 && forall k | k in e :: k in v && v[k] == e[k])
  {
    if |v.Keys - e.Keys| == 0 {
      assert v.Keys - e.Keys == {};
      forall k | k in v ensures k in e { assert k !in v.Keys - e.Keys; }
    }
    if e == v { assert v.Keys - e.Keys == {}; }
    if v + e == v {
      forall k | k in e ensures k in v && v[k] == e[k] { assert k in v + e; }
    }
  }

  /** Nothing counted means nothing changed, and the other way round. */
  lemma CountedMeansChanged(v: map<Text, (Text, bool)>, r: Request)
    requires Parsed(r.entries) && !r.mode.OtherMode?
    ensures AddedCount(v, r.entries) + UpdatedCount(v, r.entries, r.secret) + DeletedCount(v, r) == 0 <==>
        Target(v, r) == v
  {
    NothingCounted(v, r.entries, r.secret);
    NothingNew(v, r.entries, r.secret);
    OverrideIsIdentity(v, EntryMap(r.entries, r.secret));
  }

  lemma SizeChanges(v: map<Text, (Text, bool)>, r: Request)
    requires Parsed(r.entries) && !r.mode.OtherMode?
    ensures |Target(v, r)| == |v| + AddedCount(v, r.entries) - DeletedCount(v, r)
  {
    var e := EntryMap(r.entries, r.secret);
    AddedCounts(v, r.entries, r.secret);
    MapSize(Target(v, r));
    MapSize(v);
    KeySizes(v.Keys, e.Keys);
    if r.mode.Merge? { assert Target(v, r).Keys == v.Keys + e.Keys; }
  }

  lemma MapSize(m: map<Text, (Text, bool)>)
    ensures |m| == |m.Keys|
  {
  }

  lemma KeySizes(v: set<Text>, e: set<Text>)
    ensures |v + e| == |v| + |e - v| && |e| == |v| + |e - v| - |v - e|
  {
    assert v + e == v + (e - v);
    assert e == (e - v) + (e * v) && v == (v - e) + (e * v);
  }

  function ImportChange(r: Request, added: nat, updated: nat, deleted: nat): Change {
    Change(if r.mode.Merge? then ImportMerge else ImportReplace, added, updated, deleted)
  }

  ghost predicate ImportOutcome(s: State, r: Request, n: Import, now: int, other: Text) {
    var v := View(s.variables, r.app);
    && KeysDistinct(n.state.variables)
    && View(n.state.variables, r.app) == Target(v, r)
    && (other != r.app ==> View(n.state.variables, other) == View(s.variables, other))
    && Others(n.state.variables, r.app) == Others(s.variables, r.app)
    && |Target(v, r)| == |v| + n.added - n.deleted && |Target(v, r)| <= MAX_VARIABLES
    && n.state.environments ==
       (if Target(v, r) == v then s.environments
        else Recorded(s.environments, r.app, now, ImportChange(r, n.added, n.updated, n.deleted)))
  }

  /**
   Import against map semantics: a merge leaves the old map overridden by the imported one, a replace
   exactly the imported one; internal keys and other applications keep their records, the size changes
   by what was added less what was deleted, and the revision rises by one exactly when the map changed.
   */
  lemma ImportIsMapUpdate(s: State, masterKey: Option<nat>, r: Request, now: int, nonce: nat, other: Text)
    requires KeysDistinct(s.variables) && Parsed(r.entries) && ImportVariables(s, masterKey, r, now, nonce).Ok?
    ensures ImportOutcome(s, r, ImportVariables(s, masterKey, r, now, nonce).value, now, other)
  {
    var existing, v := Existing(s.variables, r.app), View(s.variables, r.app);
    var start := if r.mode.Merge? then existing else [];
    ExistingDistinct(s.variables, r.app);
    FilteredViews(s.variables, r.app, r.app);
    ImportLoop(s, masterKey, r, now, nonce, existing, start);
    var p := ImportEntries(start, masterKey, existing, r.app, r.entries, r.secret, now, nonce).value;
    EntryMapKeys(r.entries, r.secret);
    MissingCounts(existing, r.app, r.entries, EntryMap(r.entries, r.secret).Keys);
    AdoptOutcome(s, r, p, if r.mode.Replace? then Missing(existing, r.entries) else 0, now, other);
  }

  lemma AdoptOutcome(s: State, r: Request, p: Progress, deleted: nat, now: int, other: Text)
    requires KeysDistinct(s.variables) && Parsed(r.entries) && !r.mode.OtherMode?
    requires KeysDistinct(p.next) && AllVisible(p.next, r.app) && |p.next| <= MAX_VARIABLES
    requires View(p.next, r.app) == Target(View(s.variables, r.app), r)
    requires p.added == AddedCount(View(s.variables, r.app), r.entries)
    requires p.updated == UpdatedCount(View(s.variables, r.app), r.entries, r.secret)
    requires deleted == DeletedCount(View(s.variables, r.app), r)
    ensures ImportOutcome(s, r, Adopt(s, r, p, deleted, now), now, other)
  {
    var v := View(s.variables, r.app);
    CountedMeansChanged(v, r);
    SizeChanges(v, r);
    NextSize(p.next, r.app);
    Rewritten(s.variables, p.next, r.app, other);
  }

  lemma NextSize(next: seq<Variable>, app: Text)
    requires KeysDistinct(next) && AllVisible(next, app)
    ensures |View(next, app)| == |next|
  {
    ViewSize(next, app);
    MapSize(View(next, app));
  }

  lemma Rewritten(vars: seq<Variable>, next: seq<Variable>, app: Text, other: Text)
    requires KeysDistinct(vars) && KeysDistinct(next) && AllVisible(next, app)
    ensures var n := Others(vars, app) + next;
      && KeysDistinct(n) && View(n, app) == View(next, app) && (other != app ==> View(n, other) == View(vars, other))
      && Others(n, app) == Others(vars, app)
  {
    ExistingDistinct(vars, app);
    FilteredViews(vars, app, other);
    JoinedView(Others(vars, app), next, app, app);
    JoinedView(Others(vars, app), next, app, other);
    OthersOfJoined(Others(vars, app), next, app);
  }

  lemma OthersOfLast(init: seq<Variable>, last: Variable, app: Text)
    ensures Others(init + [last], app) == if Visible(last, app) then Others(init, app) else Others(init, app) + [last]
  {
    assert (init + [last])[..|init|] == init;
  }

  lemma {:induction false} OthersOfOthers(others: seq<Variable>, app: Text)
    requires forall i | 0 <= i < |others| :: !Visible(others[i], app)
    ensures Others(others, app) == others
  {
    if others != [] {
      var init, last := others[..|others| - 1], others[|others| - 1];
      OthersOfOthers(init, app);
      assert others == init + [last];
      OthersOfLast(init, last, app);
    }
  }

  lemma {:induction false} OthersOfJoined(others: seq<Variable>, next: seq<Variable>, app: Text)
    requires AllVisible(next, app) && forall i | 0 <= i < |others| :: !Visible(others[i], app)
    ensures Others(others + next, app) == others
  {
    if next != [] {
      var init, last := next[..|next| - 1], next[|next| - 1];
      OthersOfJoined(others, init, app);
      assert others + next == (others + init) + [last];
      OthersOfLast(others + init, last, app);
    } else {
      assert others + next == others;
      OthersOfOthers(others, app);
    }
  }

  // ---- whole runs ------------------------------------------------------------

  datatype Op =
    | Set(app: Text, key: Text, value: Text, secret: bool)
    | Delete(app: Text, key: Text)
    | ImportAll(request: Request)
    | StoreInternal(app: Text, key: Text, value: Text)
    | RemoveInternal(app: Text, key: Text)
    | Applied(app: Text, revision: int, releaseId: Text)

  datatype Timed = Timed(op: Op, now: int, nonce: nat)

  /** The internal entry points use their own keys; an import comes from the parser. */
  predicate WellFormed(op: Op) {
    match op
    case ImportAll(r) => Parsed(r.entries)
    case StoreInternal(_, key, _) => IsInternal(key)
    case RemoveInternal(_, key) => IsInternal(key)
    case _ => true
  }

  function Apply(s: State, masterKey: Option<nat>, t: Timed): State
    requires WellFormed(t.op)
  {
    var r := match t.op
      case Set(app, key, value, secret) => SetVariable(s, masterKey, app, key, value, secret, t.now, t.nonce)
      case Delete(app, key) => DeleteVariable(s, app, key, t.now)
      case ImportAll(request) =>
        var i := ImportVariables(s, masterKey, request, t.now, t.nonce);
        if i.Ok? then Ok(i.value.state) else Err(i.error)
      case StoreInternal(app, key, value) => SetInternal(s, masterKey, app, key, value, t.now, t.nonce)
      case RemoveInternal(app, key) => DeleteInternal(s, app, key)
      case Applied(app, revision, releaseId) => MarkApplied(s, app, revision, releaseId, t.now);
    if r.Ok? then r.value else s
  }

  /** validateEnvironmentState. */
  predicate MetadataOk(m: Metadata) {
    && m.revision >= 0 && (m.appliedRevision.Some? ==> 0 <= m.appliedRevision.value <= m.revision)
    && (m.appliedRevision.None? <==> m.appliedReleaseId.None?)
    && (m.revision == 0 <==> m.lastChange.None?) && (m.revision == 0 <==> m.lastChangedAt.None?)
    && (m.appliedRevision.None? <==> m.lastAppliedAt.None?)
  }

  ghost predicate Sound(s: State) {
    && KeysDistinct(s.variables)
    && AppsDistinct(s.environments)
    && (forall i | 0 <= i < |s.environments| :: MetadataOk(s.environments[i]))
  }

  /** How a step may move an application: forward, and standing still only with the same contents. */
  ghost predicate Moves(s: State, n: State, app: Text) {
    && RevisionOf(n, app) >= RevisionOf(s, app)
    && (RevisionOf(n, app) == RevisionOf(s, app) ==> View(n.variables, app) == View(s.variables, app))
    && (AppliedOf(s, app).Some? ==> AppliedOf(n, app).Some? && AppliedOf(n, app).value >= AppliedOf(s, app).value)
  }

  lemma RecordedMoves(ms: seq<Metadata>, app: Text, now: int, change: Change, other: Text, vars: seq<Variable>,
                      more: seq<Variable>)
    requires Sound(State(vars, ms)) && KeysDistinct(more)
    ensures Sound(State(more, Recorded(ms, app, now, change)))
    ensures RevisionOf(State(more, Recorded(ms, app, now, change)), other) == RevisionOf(State(vars, ms), other)
        + if other == app then 1 else 0
    ensures AppliedOf(State(more, Recorded(ms, app, now, change)), other) == AppliedOf(State(vars, ms), other)
  {
    var k := FindMetadata(ms, app);
    var before := if k.Some? then ms[k.value] else NewMetadata(app);
    var m := before.(revision := before.revision + 1, lastChangedAt := Some(now), lastChange := Some(change));
    assert Recorded(ms, app, now, change) == WithMetadata(ms, m);
    PutMetadata(ms, m, other);
    WithMetadataValid(ms, m);
  }

  predicate AppsDistinct(ms: seq<Metadata>) { forall i, j | 0 <= i < j < |ms| :: ms[i].app != ms[j].app }

  function WithMetadata(ms: seq<Metadata>, m: Metadata): seq<Metadata> {
    var k := FindMetadata(ms, m.app);
    if k.Some? then ms[k.value := m] else ms + [m]
  }

  function Lookup(ms: seq<Metadata>, app: Text): Option<Metadata> {
    var k := FindMetadata(ms, app);
    if k.Some? then Some(ms[k.value]) else None
  }

  lemma WithMetadataDistinct(ms: seq<Metadata>, m: Metadata)
    requires AppsDistinct(ms)
    ensures AppsDistinct(WithMetadata(ms, m))
  {
    if FindMetadata(ms, m.app).None? { NoMetadata(ms, m.app); }
  }

  /** Replacing or adding one application's metadata leaves every other application's where it was. */
  lemma PutMetadata(ms: seq<Metadata>, m: Metadata, other: Text)
    requires AppsDistinct(ms)
    ensures AppsDistinct(WithMetadata(ms, m))
    ensures Lookup(WithMetadata(ms, m), other) == if other == m.app then Some(m) else Lookup(ms, other)
  {
    WithMetadataDistinct(ms, m);
    var k, n := FindMetadata(ms, m.app), WithMetadata(ms, m);
    var at := if k.Some? then k.value else |ms|;
    FoundAt(n, at);
    if other != m.app {
      var j := FindMetadata(ms, other);
      if j.Some? {
        assert n[j.value] == ms[j.value];
        FoundAt(n, j.value);
      } else {
        NoMetadata(ms, other);
        assert forall i | 0 <= i < |n| :: n[i].app != other;
        NotFound(n, other);
      }
    }
  }

  lemma WithMetadataValid(ms: seq<Metadata>, m: Metadata)
    requires MetadataOk(m) && forall i | 0 <= i < |ms| :: MetadataOk(ms[i])
    ensures forall i | 0 <= i < |WithMetadata(ms, m)| :: MetadataOk(WithMetadata(ms, m)[i])
  {
  }

  lemma NotFound(ms: seq<Metadata>, app: Text)
    requires forall i | 0 <= i < |ms| :: ms[i].app != app
    ensures FindMetadata(ms, app).None?
  {
  }

  lemma FoundAt(ms: seq<Metadata>, k: nat)
    requires k < |ms| && AppsDistinct(ms)
    ensures FindMetadata(ms, ms[k].app) == Some(k)
  {
    if FindMetadata(ms, ms[k].app).None? {
      NoMetadata(ms, ms[k].app);
    } else {
      assert ms[FindMetadata(ms, ms[k].app).value].app == ms[k].app;
    }
  }

  lemma AppliedMoves(s: State, app: Text, revision: int, releaseId: Text, now: int, other: Text)
    requires Sound(s) && MarkApplied(s, app, revision, releaseId, now).Ok?
    ensures var n := MarkApplied(s, app, revision, releaseId, now).value;
      Sound(n) && n.variables == s.variables && RevisionOf(n, other) == RevisionOf(s, other)
      && (if other == app then AppliedOf(n, app) == Some(revision) else AppliedOf(n, other) == AppliedOf(s, other))
  {
    var k := FindMetadata(s.environments, app);
    var before := if k.Some? then s.environments[k.value] else NewMetadata(app);
    var m := before.(appliedRevision := Some(revision), appliedReleaseId := Some(releaseId),
                     lastAppliedAt := Some(now));
    if MarkApplied(s, app, revision, releaseId, now).value != s {
      assert MarkApplied(s, app, revision, releaseId, now).value.environments == WithMetadata(s.environments, m);
      PutMetadata(s.environments, m, other);
      WithMetadataValid(s.environments, m);
    }
  }

  lemma DeleteMoves(s: State, app: Text, key: Text, now: int, other: Text)
    requires Sound(s) && DeleteVariable(s, app, key, now).Ok?
    ensures Sound(DeleteVariable(s, app, key, now).value) && Moves(s, DeleteVariable(s, app, key, now).value, other)
  {
    var k := Find(s.variables, app, key).value;
    RemoveView(s.variables, k, other);
    RecordedMoves(s.environments, app, now, Change(Single, 0, 0, 1), other, s.variables,
                  s.variables[..k] + s.variables[k + 1..]);
  }

  lemma SetMoves(s: State, masterKey: Option<nat>, app: Text, key: Text, value: Text, secret: bool, now: int,
                 nonce: nat, other: Text)
    requires Sound(s) && SetVariable(s, masterKey, app, key, value, secret, now, nonce).Ok?
    ensures var n := SetVariable(s, masterKey, app, key, value, secret, now, nonce).value;
        Sound(n) && Moves(s, n, other)
  {
    var payload := if secret then Seal(masterKey.value, app, key, value, nonce) else Plain(value);
    var added := Find(s.variables, app, key).None?;
    PutView(s.variables, app, key, payload, now, other);
    RecordedMoves(s.environments, app, now, Change(Single, if added then 1 else 0, if added then 0 else 1, 0), other,
                  s.variables, Put(s.variables, app, key, payload, now));
  }

  lemma ImportMoves(s: State, masterKey: Option<nat>, r: Request, now: int, nonce: nat, other: Text)
    requires Sound(s) && Parsed(r.entries) && ImportVariables(s, masterKey, r, now, nonce).Ok?
    ensures var n := ImportVariables(s, masterKey, r, now, nonce).value.state; Sound(n) && Moves(s, n, other)
  {
    ImportIsMapUpdate(s, masterKey, r, now, nonce, other);
    var n := ImportVariables(s, masterKey, r, now, nonce).value;
    if Target(View(s.variables, r.app), r) != View(s.variables, r.app) {
      RecordedMoves(s.environments, r.app, now,
                    Change(if r.mode.Merge? then ImportMerge else ImportReplace, n.added, n.updated, n.deleted), other,
                    s.variables, n.state.variables);
    }
  }

  /** Every step keeps the store valid and moves each application forward. */
  lemma StepMoves(s: State, masterKey: Option<nat>, t: Timed, other: Text)
    requires Sound(s) && WellFormed(t.op)
    ensures Sound(Apply(s, masterKey, t)) && Moves(s, Apply(s, masterKey, t), other)
  {
    match t.op
    case Set(app, key, value, secret) =>
      if SetVariable(s, masterKey, app, key, value, secret, t.now, t.nonce).Ok? {
        SetMoves(s, masterKey, app, key, value, secret, t.now, t.nonce, other);
      }
    case Delete(app, key) => if DeleteVariable(s, app, key, t.now).Ok? { DeleteMoves(s, app, key, t.now, other); }
    case ImportAll(r) => if ImportVariables(s, masterKey, r, t.now, t.nonce).Ok? {
      ImportMoves(s, masterKey, r, t.now, t.nonce, other);
    }
    case StoreInternal(_, _, _) => InternalMoves(s, masterKey, t, other);
    case RemoveInternal(_, _) => InternalMoves(s, masterKey, t, other);
    case Applied(app, revision, releaseId) =>
      if MarkApplied(s, app, revision, releaseId, t.now).Ok? {
        AppliedMoves(s, app, revision, releaseId, t.now, other);
      }
  }

  lemma InternalMoves(s: State, masterKey: Option<nat>, t: Timed, other: Text)
    requires Sound(s) && WellFormed(t.op) && (t.op.StoreInternal? || t.op.RemoveInternal?)
    ensures Sound(Apply(s, masterKey, t)) && Moves(s, Apply(s, masterKey, t), other)
  {
    match t.op
    case StoreInternal(app, key, value) =>
      if masterKey.Some? {
        PutView(s.variables, app, key, Seal(masterKey.value, app, key, value, t.nonce), t.now, other);
      }
    case RemoveInternal(app, key) =>
      var k := Find(s.variables, app, key);
      if k.Some? { RemoveView(s.variables, k.value, other); }
  }

  function Run(s: State, masterKey: Option<nat>, ts: seq<Timed>): State
    requires forall t | t in ts :: WellFormed(t.op)
    decreases |ts|
  {
    if ts == [] then s else Run(Apply(s, masterKey, ts[0]), masterKey, ts[1..])
  }

  /**
   A revision pins contents: over any run, an application found at the same revision has exactly the
   same variables, its revision and applied revision never fall, and the stored metadata stays valid.
   */
  lemma {:induction false} RevisionPinsContents(s: State, masterKey: Option<nat>, ts: seq<Timed>, app: Text)
    requires Sound(s) && forall t | t in ts :: WellFormed(t.op)
    ensures Sound(Run(s, masterKey, ts)) && Moves(s, Run(s, masterKey, ts), app)
    decreases |ts|
  {
    if ts != [] {
      StepMoves(s, masterKey, ts[0], app);
      RevisionPinsContents(Apply(s, masterKey, ts[0]), masterKey, ts[1..], app);
    }
  }

  // ---- what a job receives ---------------------------------------------------

  /** The plain values of a view. */
  function PlainValues(v: map<Text, (Text, bool)>): map<Text, Text> { map k | k in v :: v[k].0 }

  lemma {:induction false} ValuesAreView(vars: seq<Variable>, masterKey: Option<nat>, app: Text)
    requires SealedWith(vars, masterKey)
    ensures Values(vars, masterKey, app) == Ok(PlainValues(View(vars, app)))
  {
    if vars != [] {
      var init, last := vars[..|vars| - 1], vars[|vars| - 1];
      assert forall i | 0 <= i < |init| :: init[i] == vars[i];
      ValuesAreView(init, masterKey, app);
      if Visible(last, app) {
        assert PlainValues(View(vars, app)) == PlainValues(View(init, app))[last.key := ValueOf(last)];
      }
    }
  }

  lemma {:induction false} OthersSealed(vars: seq<Variable>, masterKey: Option<nat>, app: Text)
    requires SealedWith(vars, masterKey)
    ensures SealedWith(Others(vars, app), masterKey) && SealedWith(Existing(vars, app), masterKey)
  {
    ExistingMembers(vars, app);
    forall i | 0 <= i < |Others(vars, app)| ensures Others(vars, app)[i] in vars {
      assert Others(vars, app)[i] in Others(vars, app);
    }
    forall i | 0 <= i < |Existing(vars, app)| ensures Existing(vars, app)[i] in vars {
      assert Existing(vars, app)[i] in Existing(vars, app);
    }
  }

  lemma EntrySealed(p: Progress, masterKey: Option<nat>, existing: seq<Variable>, app: Text, entry: (Text, Text),
                    secret: bool, now: int, nonce: nat)
    requires SealedWith(p.next, masterKey) && SealedWith(existing, masterKey)
    requires ImportEntry(p, masterKey, existing, app, entry, secret, now, nonce).Ok?
    ensures SealedWith(ImportEntry(p, masterKey, existing, app, entry, secret, now, nonce).value.next, masterKey)
  {
  }

  lemma {:induction false} EntriesSealed(start: seq<Variable>, masterKey: Option<nat>, existing: seq<Variable>,
                                         app: Text, entries: seq<(Text, Text)>,
                                         secret: bool, now: int, nonce: nat)
    requires SealedWith(start, masterKey) && SealedWith(existing, masterKey)
    requires ImportEntries(start, masterKey, existing, app, entries, secret, now, nonce).Ok?
    ensures SealedWith(ImportEntries(start, masterKey, existing, app, entries, secret, now, nonce).value.next,
                       masterKey)
  {
    if entries != [] {
      var init := entries[..|entries| - 1];
      EntriesSealed(start, masterKey, existing, app, init, secret, now, nonce);
      EntrySealed(ImportEntries(start, masterKey, existing, app, init, secret, now, nonce).value, masterKey, existing,
                  app,
                  entries[|entries| - 1], secret, now, nonce + |entries|);
    }
  }

  lemma PutSealed(vars: seq<Variable>, masterKey: Option<nat>, app: Text, key: Text, payload: Payload, now: int)
    requires SealedWith(vars, masterKey)
    requires payload.Sealed? ==>
        masterKey == Some(payload.cipher.masterKey) && payload.cipher.app == app && payload.cipher.key == key
    ensures SealedWith(Put(vars, app, key, payload, now), masterKey)
  {
  }

  lemma JoinSealed(a: seq<Variable>, b: seq<Variable>, masterKey: Option<nat>)
    requires SealedWith(a, masterKey) && SealedWith(b, masterKey)
    ensures SealedWith(a + b, masterKey)
  {
  }

  lemma RemoveSealed(vars: seq<Variable>, masterKey: Option<nat>, k: nat)
    requires SealedWith(vars, masterKey) && k < |vars|
    ensures SealedWith(vars[..k] + vars[k + 1..], masterKey)
  {
    JoinSealed(vars[..k], vars[k + 1..], masterKey);
  }

  lemma ImportSealed(s: State, masterKey: Option<nat>, r: Request, now: int, nonce: nat)
    requires SealedWith(s.variables, masterKey) && ImportVariables(s, masterKey, r, now, nonce).Ok?
    ensures SealedWith(ImportVariables(s, masterKey, r, now, nonce).value.state.variables, masterKey)
  {
    OthersSealed(s.variables, masterKey, r.app);
    var existing := Existing(s.variables, r.app);
    var start := if r.mode.Merge? then existing else [];
    EntriesSealed(start, masterKey, existing, r.app, r.entries, r.secret, now, nonce);
    var p := ImportEntries(start, masterKey, existing, r.app, r.entries, r.secret, now, nonce).value;
    JoinSealed(Others(s.variables, r.app), p.next, masterKey);
  }

  lemma StepSealed(s: State, masterKey: Option<nat>, t: Timed)
    requires SealedWith(s.variables, masterKey) && WellFormed(t.op)
    ensures SealedWith(Apply(s, masterKey, t).variables, masterKey)
  {
    match t.op
    case Set(app, key, value, secret) =>
      if SetVariable(s, masterKey, app, key, value, secret, t.now, t.nonce).Ok? {
        var payload := if secret then Seal(masterKey.value, app, key, value, t.nonce) else Plain(value);
        PutSealed(s.variables, masterKey, app, key, payload, t.now);
      }
    case Delete(app, key) =>
      if DeleteVariable(s, app, key, t.now).Ok? {
        RemoveSealed(s.variables, masterKey, Find(s.variables, app, key).value);
      }
    case ImportAll(r) =>
      if ImportVariables(s, masterKey, r, t.now, t.nonce).Ok? { ImportSealed(s, masterKey, r, t.now, t.nonce); }
    case StoreInternal(app, key, value) =>
      if masterKey.Some? {
        PutSealed(s.variables, masterKey, app, key, Seal(masterKey.value, app, key, value, t.nonce), t.now);
      }
    case RemoveInternal(app, key) =>
      if Find(s.variables, app, key).Some? {
        RemoveSealed(s.variables, masterKey, Find(s.variables, app, key).value);
      }
    case Applied(_, _, _) =>
  }

  lemma {:induction false} RunSealed(s: State, masterKey: Option<nat>, ts: seq<Timed>)
    requires SealedWith(s.variables, masterKey) && forall t | t in ts :: WellFormed(t.op)
    ensures SealedWith(Run(s, masterKey, ts).variables, masterKey)
    decreases |ts|
  {
    if ts != [] {
      StepSealed(s, masterKey, ts[0]);
      RunSealed(Apply(s, masterKey, ts[0]), masterKey, ts[1..]);
    }
  }

  /**
   A job queued at a revision receives what was saved then, or a conflict: exactly the saved values if
   the revision still stands when it runs, whatever happened to the store in between.
   */
  lemma JobReceivesWhatWasQueued(s: State, masterKey: Option<nat>, ts: seq<Timed>, app: Text)
    requires Sound(s) && SealedWith(s.variables, masterKey) && forall t | t in ts :: WellFormed(t.op)
    requires IsSafe(RevisionOf(s, app)) && RevisionOf(s, app) >= 0
    ensures Materialize(Run(s, masterKey, ts), masterKey, app, Some(RevisionOf(s, app)))
         == if RevisionOf(Run(s, masterKey, ts), app) == RevisionOf(s, app) then Ok(PlainValues(View(s.variables, app)))
             else Err(RevisionConflict)
  {
    RevisionPinsContents(s, masterKey, ts, app);
    RunSealed(s, masterKey, ts);
    ValuesAreView(Run(s, masterKey, ts).variables, masterKey, app);
  }
}
