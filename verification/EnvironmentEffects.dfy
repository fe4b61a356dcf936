/** What a set, a deletion and the internal secrets do, stated of every stored entry and of what a job then receives. */
module EnvironmentEffects {
  import opened Common
  import opened Texts
  import opened Environment
  import opened EnvironmentTheorems

  /** The plain value stored under a key of an application, and whether it is kept encrypted. */
  function Lookup(vars: seq<Variable>, app: Text, key: Text): Option<(Text, bool)> {
    var k := Find(vars, app, key);
    if k.Some? then Some(Entry(vars[k.value])) else None
  }

  lemma {:induction false} FindsVariable(vars: seq<Variable>, i: nat)
    requires KeysDistinct(vars) && i < |vars|
    ensures Find(vars, vars[i].app, vars[i].key) == Some(i)
  {
    if i > 0 {
      assert vars[1..][i - 1] == vars[i];
      assert forall a, b | 0 <= a < b < |vars[1..]| :: vars[1..][a] == vars[a + 1] && vars[1..][b] == vars[b + 1];
      FindsVariable(vars[1..], i - 1);
    }
  }

  /** An entry is found exactly where a variable of that application and key stands. */
  lemma LookupIs(vars: seq<Variable>, app: Text, key: Text, e: Option<(Text, bool)>)
    requires KeysDistinct(vars)
    requires e.Some? ==> exists i ::
        0 <= i < |vars| && vars[i].app == app && vars[i].key == key && Entry(vars[i]) == e.value
    requires e.None? ==> forall i | 0 <= i < |vars| :: vars[i].app != app || vars[i].key != key
    ensures Lookup(vars, app, key) == e
  {
    if e.Some? {
      var i :| 0 <= i < |vars| && vars[i].app == app && vars[i].key == key && Entry(vars[i]) == e.value;
      FindsVariable(vars, i);
    }
  }

  /** Storing one entry changes that entry and no other of any application. */
  lemma PutLookup(vars: seq<Variable>, app: Text, key: Text, payload: Payload, now: int, a: Text, k: Text)
    requires KeysDistinct(vars)
    ensures var n := Put(vars, app, key, payload, now);
      && KeysDistinct(n)
      && Lookup(n, a, k) == if a == app && k == key then Some(Entry(Variable(app, key, payload, now, now)))
          else Lookup(vars, a, k)
  {
    var n, at := Put(vars, app, key, payload, now), Find(vars, app, key);
    PutView(vars, app, key, payload, now, app);
    var place := if at.Some? then at.value else |vars|;
    assert n[place].app == app && n[place].key == key && n[place].payload == payload;
    if a == app && k == key {
      LookupIs(n, a, k, Some(Entry(n[place])));
    } else {
      var was := Find(vars, a, k);
      if was.Some? {
        assert n[was.value] == vars[was.value];
        LookupIs(n, a, k, Some(Entry(vars[was.value])));
      } else {
        NoVariable(vars, a, k);
        LookupIs(n, a, k, None);
      }
    }
  }

  /** Removing one entry removes that entry and no other of any application. */
  lemma RemoveLookup(vars: seq<Variable>, at: nat, a: Text, k: Text)
    requires KeysDistinct(vars) && at < |vars|
    ensures var n := vars[..at] + vars[at + 1..];
      && KeysDistinct(n)
      && Lookup(n, a, k) == if a == vars[at].app && k == vars[at].key then None else Lookup(vars, a, k)
  {
    var n := vars[..at] + vars[at + 1..];
    RemoveView(vars, at, a);
    assert forall i | 0 <= i < |n| :: n[i] == vars[if i < at then i else i + 1];
    if a == vars[at].app && k == vars[at].key {
      LookupIs(n, a, k, None);
    } else {
      var was := Find(vars, a, k);
      if was.Some? {
        var i := if was.value < at then was.value else was.value - 1;
        assert n[i] == vars[was.value];
        LookupIs(n, a, k, Some(Entry(vars[was.value])));
      } else {
        NoVariable(vars, a, k);
        LookupIs(n, a, k, None);
      }
    }
  }

  /** What is materialised has exactly the visible keys. */
  lemma {:induction false} ValuesKeys(vars: seq<Variable>, masterKey: Option<nat>, app: Text)
    requires Values(vars, masterKey, app).Ok?
    ensures Values(vars, masterKey, app).value.Keys == View(vars, app).Keys
  {
    if vars != [] { ValuesKeys(vars[..|vars| - 1], masterKey, app); }
  }

  // ---- deleting a variable ---------------------------------------------------

  /** Only this application's revision moves, by one. */
  ghost predicate OneRevision(s: State, n: State, app: Text) {
    forall other: Text :: RevisionOf(n, other) == RevisionOf(s, other) + (if other == app then 1 else 0)
  }

  lemma RecordedOnce(s: State, more: seq<Variable>, app: Text, now: int, change: Change)
    requires Sound(s) && KeysDistinct(more)
    ensures OneRevision(s, State(more, Recorded(s.environments, app, now, change)), app)
    ensures Sound(State(more, Recorded(s.environments, app, now, change)))
  {
    RecordedMoves(s.environments, app, now, change, app, s.variables, more);
    forall other: Text
      ensures RevisionOf(State(more, Recorded(s.environments, app, now, change)), other)
           == RevisionOf(s, other) + (if other == app then 1 else 0)
    {
      RecordedMoves(s.environments, app, now, change, other, s.variables, more);
    }
  }

  /**
   A deletion is accepted exactly for a good key that is stored.  It removes that entry, leaves every other
   one of every application, internal ones included, and raises the application's revision by one.
   */
  lemma DeleteAcceptedIff(s: State, app: Text, key: Text, now: int)
    requires Sound(s)
    ensures DeleteVariable(s, app, key, now).Ok? <==> KeyOk(key) && Lookup(s.variables, app, key).Some?
    ensures DeleteVariable(s, app, key, now).Ok? ==>
      var n := DeleteVariable(s, app, key, now).value;
      && Sound(n) && View(n.variables, app) == View(s.variables, app) - {key} && OneRevision(s, n, app)
      && forall a, k :: Lookup(n.variables, a, k) == if a == app && k == key then None else Lookup(s.variables, a, k)
  {
    if DeleteVariable(s, app, key, now).Ok? {
      var at := Find(s.variables, app, key).value;
      var rest := s.variables[..at] + s.variables[at + 1..];
      RemoveView(s.variables, at, app);
      RecordedOnce(s, rest, app, now, Change(Single, 0, 0, 1));
      forall a, k ensures Lookup(rest, a, k) == if a == app && k == key then None else Lookup(s.variables, a, k) {
        RemoveLookup(s.variables, at, a, k);
      }
      assert !IsInternal(key);
    }
  }

  /** No job receives a deleted variable, and every job asking for the revision before is told of a conflict. */
  lemma DeletedIsGone(s: State, masterKey: Option<nat>, app: Text, key: Text, now: int, expected: Option<int>)
    requires Sound(s) && DeleteVariable(s, app, key, now).Ok?
    ensures var got := Materialize(DeleteVariable(s, app, key, now).value, masterKey, app, expected);
      && (got.Ok? ==> key !in got.value)
      && (expected == Some(RevisionOf(s, app)) ==> got.Err?)
  {
    DeleteAcceptedIff(s, app, key, now);
    var n := DeleteVariable(s, app, key, now).value;
    if Materialize(n, masterKey, app, expected).Ok? { ValuesKeys(n.variables, masterKey, app); }
  }

  // ---- setting a variable ----------------------------------------------------

  /** A set stores its entry and leaves every other one of every application. */
  lemma SetStores(s: State, masterKey: Option<nat>, app: Text, key: Text, value: Text, secret: bool, now: int,
                  nonce: nat)
    requires Sound(s) && SetVariable(s, masterKey, app, key, value, secret, now, nonce).Ok?
    ensures var n := SetVariable(s, masterKey, app, key, value, secret, now, nonce).value;
      && Sound(n) && OneRevision(s, n, app)
      && forall a, k ::
          Lookup(n.variables, a, k) == if a == app && k == key then Some((value, secret)) else Lookup(s.variables, a, k)
  {
    var payload := if secret then Seal(masterKey.value, app, key, value, nonce) else Plain(value);
    var more := Put(s.variables, app, key, payload, now);
    var added := Find(s.variables, app, key).None?;
    PutView(s.variables, app, key, payload, now, app);
    RecordedOnce(s, more, app, now, Change(Single, if added then 1 else 0, if added then 0 else 1, 0));
    forall a, k ensures Lookup(more, a, k) == if a == app && k == key then Some((value, secret))
        else Lookup(s.variables, a, k) {
      PutLookup(s.variables, app, key, payload, now, a, k);
    }
  }

  // ---- internal secrets ------------------------------------------------------

  /** materializeDeploymentCredential and materializeWebhookSecret. */
  function ReadInternal(s: State, masterKey: Option<nat>, app: Text, key: Text): Result<Option<Text>, Error> {
    var k := Find(s.variables, app, key);
    if k.None? then Ok(None)
    else if s.variables[k.value].payload.Plain? then Err(DecryptionFailed)
    else
      var plain := Decrypt(masterKey, s.variables[k.value]);
      if plain.Err? then Err(plain.error) else Ok(Some(plain.value))
  }

  /** No view, no revision and no other entry of any application. */
  ghost predicate OnlyEntry(s: State, n: State, app: Text, key: Text) {
    && n.environments == s.environments
    && (forall a: Text :: View(n.variables, a) == View(s.variables, a))
    && (forall a, k | a != app || k != key :: Lookup(n.variables, a, k) == Lookup(s.variables, a, k))
  }

  /** A stored secret reads back, and touches nothing a job or another secret can see. */
  lemma InternalRoundTrip(s: State, masterKey: Option<nat>, app: Text, key: Text, value: Text, now: int, nonce: nat)
    requires KeysDistinct(s.variables) && IsInternal(key)
    ensures SetInternal(s, masterKey, app, key, value, now, nonce).Ok? <==> masterKey.Some?
    ensures masterKey.Some? ==>
      var n := SetInternal(s, masterKey, app, key, value, now, nonce).value;
      KeysDistinct(n.variables) && ReadInternal(n, masterKey, app, key) == Ok(Some(value)) && OnlyEntry(s, n, app, key)
  {
    if masterKey.Some? {
      var payload := Seal(masterKey.value, app, key, value, nonce);
      var n := SetInternal(s, masterKey, app, key, value, now, nonce).value;
      PutView(s.variables, app, key, payload, now, app);
      var at := if Find(s.variables, app, key).Some? then Find(s.variables, app, key).value else |s.variables|;
      assert n.variables[at].app == app && n.variables[at].key == key && n.variables[at].payload == payload;
      FindsVariable(n.variables, at);
      forall a: Text ensures View(n.variables, a) == View(s.variables, a) {
        PutView(s.variables, app, key, payload, now, a);
      }
      forall a, k | a != app || k != key ensures Lookup(n.variables, a, k) == Lookup(s.variables, a, k) {
        PutLookup(s.variables, app, key, payload, now, a, k);
      }
    }
  }

  /** A removed secret reads back as absent, and touches nothing else. */
  lemma InternalRemoved(s: State, masterKey: Option<nat>, app: Text, key: Text)
    requires KeysDistinct(s.variables) && IsInternal(key)
    ensures DeleteInternal(s, app, key).Ok? <==> Lookup(s.variables, app, key).Some?
    ensures DeleteInternal(s, app, key).Ok? ==>
      var n := DeleteInternal(s, app, key).value;
      KeysDistinct(n.variables) && ReadInternal(n, masterKey, app, key) == Ok(None) && OnlyEntry(s, n, app, key)
  {
    if DeleteInternal(s, app, key).Ok? {
      var at := Find(s.variables, app, key).value;
      var n := DeleteInternal(s, app, key).value;
      RemoveLookup(s.variables, at, app, key);
      forall a: Text ensures View(n.variables, a) == View(s.variables, a) { RemoveView(s.variables, at, a); }
      forall a, k | a != app || k != key ensures Lookup(n.variables, a, k) == Lookup(s.variables, a, k) {
        RemoveLookup(s.variables, at, a, k);
      }
    }
  }
}
