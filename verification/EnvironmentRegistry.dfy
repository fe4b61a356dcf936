/** The environment registry as an object: variables and metadata rewritten in place, an import counted in a loop. */
module EnvironmentRegistry {
  import opened Common
  import opened Texts
  import E = Environment
  import opened Environment
  import opened EnvironmentTheorems

  lemma {:induction false} FirstEntryError(start: seq<Variable>, masterKey: Option<nat>, existing: seq<Variable>,
                                           app: Text, entries: seq<(Text, Text)>,
                                           secret: bool, now: int, nonce: nat, k: nat, error: Error)
    requires k <= |entries|
    requires ImportEntries(start, masterKey, existing, app, entries[..k], secret, now, nonce) == Err(error)
    ensures ImportEntries(start, masterKey, existing, app, entries, secret, now, nonce) == Err(error)
    decreases |entries| - k
  {
    if k < |entries| {
      assert entries[..k + 1][..k] == entries[..k];
      FirstEntryError(start, masterKey, existing, app, entries, secret, now, nonce, k + 1, error);
    } else {
      assert entries[..k] == entries;
    }
  }

  /** Every application moves forward, and one that stands still keeps its contents. */
  ghost predicate Onward(s: State, n: State) { forall app: Text :: Moves(s, n, app) }

  lemma EffectMoves(s: State, masterKey: Option<nat>, t: Timed)
    requires Sound(s) && WellFormed(t.op)
    ensures Sound(Apply(s, masterKey, t)) && Onward(s, Apply(s, masterKey, t))
  {
    StepMoves(s, masterKey, t, []);
    forall app: Text ensures Moves(s, Apply(s, masterKey, t), app) { StepMoves(s, masterKey, t, app); }
  }

  class Registry {
    var variables: seq<Variable>
    var environments: seq<Metadata>
    const masterKey: Option<nat>

    constructor (masterKey: Option<nat>)
      ensures Valid() && variables == [] && environments == [] && this.masterKey == masterKey
    {
      variables, environments, this.masterKey := [], [], masterKey;
    }

    function Contents(): State
      reads this
    {
      State(variables, environments)
    }

    /** Distinct keys and applications, and metadata a restart accepts. */
    ghost predicate Valid()
      reads this
    {
      Sound(Contents())
    }

    method RecordEnvironmentChange(app: Text, now: int, change: Change)
      modifies this`environments
      ensures environments == Recorded(old(environments), app, now, change)
    {
      var k := FindMetadata(environments, app);
      if k.None? {
        environments := environments + [NewMetadata(app)];
        k := Some(|environments| - 1);
      }
      var m := environments[k.value];
      m := m.(revision := m.revision + 1);
      m := m.(lastChangedAt := Some(now));
      m := m.(lastChange := Some(change));
      environments := environments[k.value := m];
      assert FindMetadata(old(environments), app).None? ==> environments == old(environments) + [m];
    }

    method SetVariable(app: Text, key: Text, value: Text, secret: bool, now: int, nonce: nat)
        returns (result: Result<Variable, Error>)
      requires Valid()
      modifies this
      ensures Valid() && Onward(old(Contents()), Contents())
      ensures var r := E.SetVariable(old(Contents()), masterKey, app, key, value, secret, now, nonce);
        if r.Ok? then Contents() == r.value && result.Ok? && result.value in variables && result.value.key == key
            && ValueOf(result.value) == value
        else Contents() == old(Contents()) && result == Err(r.error)
    {
      EffectMoves(Contents(), masterKey, Timed(Set(app, key, value, secret), now, nonce));
      if !KeyOk(key) { return Err(InvalidKey); }
      if secret && masterKey.None? { return Err(StoreUnavailable); }
      var payload := if secret then Seal(masterKey.value, app, key, value, nonce) else Plain(value);
      var k := Find(variables, app, key);
      var added := k.None?;
      if added {
        variables := variables + [Variable(app, key, Plain(value), now, now)];
        k := Some(|variables| - 1);
      }
      variables := variables[k.value := variables[k.value].(payload := payload, updatedAt := now)];
      assert added ==> variables == old(variables) + [Variable(app, key, payload, now, now)];
      result := Ok(variables[k.value]);
      RecordEnvironmentChange(app, now, Change(Single, if added then 1 else 0, if added then 0 else 1, 0));
    }

    method DeleteVariable(app: Text, key: Text, now: int) returns (error: Option<Error>)
      requires Valid()
      modifies this
      ensures Valid() && Onward(old(Contents()), Contents())
      ensures var r := E.DeleteVariable(old(Contents()), app, key, now);
        if r.Ok? then Contents() == r.value && error.None? else Contents() == old(Contents()) && error == Some(r.error)
    {
      EffectMoves(Contents(), masterKey, Timed(Delete(app, key), now, 0));
      if !KeyOk(key) { return Some(InvalidKey); }
      var k := Find(variables, app, key);
      if k.None? { return Some(NotFound); }
      variables := variables[..k.value] + variables[k.value + 1..];
      RecordEnvironmentChange(app, now, Change(Single, 0, 0, 1));
      error := None;
    }

    /** The loop over the parsed entries: which variables stay, how many are new and how many differ. */
    method CollectEntries(start: seq<Variable>, existing: seq<Variable>, app: Text, entries: seq<(Text, Text)>,
                          secret: bool, now: int, nonce: nat)
      returns (p: Result<Progress, Error>)
      ensures p == ImportEntries(start, masterKey, existing, app, entries, secret, now, nonce)
    {
      var next, added, updated := start, 0, 0;
      for i := 0 to |entries|
        invariant added >= 0 && updated >= 0
        invariant ImportEntries(start, masterKey, existing, app, entries[..i], secret, now, nonce)
            == Ok(Progress(next, added, updated))
      {
        var entry := entries[i];
        assert entries[..i + 1][..i] == entries[..i];
        var previous := Previous(existing, app, entry.0);
        var same := Unchanged(masterKey, previous, entry.1, secret);
        if same.Err? {
          FirstEntryError(start, masterKey, existing, app, entries, secret, now, nonce, i + 1, same.error);
          return Err(same.error);
        }
        if same.value && previous.Some? {
          next := MapSet(next, previous.value);
          continue;
        }
        if secret && masterKey.None? {
          FirstEntryError(start, masterKey, existing, app, entries, secret, now, nonce, i + 1, StoreUnavailable);
          return Err(StoreUnavailable);
        }
        next := MapSet(next, Imported(masterKey, previous, app, entry, secret, now, nonce + i + 1));
        if previous.Some? { updated := updated + 1; } else { added := added + 1; }
      }
      assert entries[..|entries|] == entries;
      p := Ok(Progress(next, added, updated));
    }

    method ImportVariables(r: Request, now: int, nonce: nat) returns (error: Option<Error>)
      requires Valid() && Parsed(r.entries)
      modifies this
      ensures Valid() && Onward(old(Contents()), Contents())
      ensures var i := E.ImportVariables(old(Contents()), masterKey, r, now, nonce);
        if i.Ok? then Contents() == i.value.state && error.None?
            else Contents() == old(Contents()) && error == Some(i.error)
    {
      EffectMoves(Contents(), masterKey, Timed(ImportAll(r), now, nonce));
      var k := FindMetadata(environments, r.app);
      var revision := if k.Some? then environments[k.value].revision else 0;
      if !IsSafe(r.expectedRevision) || r.expectedRevision < 0 { return Some(InvalidRevision); }
      if r.expectedRevision != revision { return Some(RevisionConflict); }
      if r.mode.OtherMode? { return Some(InvalidImport); }
      if r.confirmation != (if r.mode.Replace? then Some((r.app, revision)) else None) {
        return Some(ConfirmationRequired);
      }
      var existing := Existing(variables, r.app);
      var p := CollectEntries(if r.mode.Merge? then existing else [], existing, r.app, r.entries, r.secret, now, nonce);
      if p.Err? { return Some(p.error); }
      var deleted := if r.mode.Replace? then Missing(existing, r.entries) else 0;
      if |p.value.next| > MAX_VARIABLES { return Some(LimitExceeded); }
      if p.value.added + p.value.updated + deleted > 0 {
        variables := Others(variables, r.app);
        variables := variables + p.value.next;
        RecordEnvironmentChange(r.app, now,
                                Change(if r.mode.Merge? then ImportMerge
                                       else ImportReplace, p.value.added, p.value.updated, deleted));
      }
      error := None;
    }

    method MarkApplied(app: Text, revision: int, releaseId: Text, now: int) returns (error: Option<Error>)
      requires Valid()
      modifies this
      ensures Valid() && Onward(old(Contents()), Contents())
      ensures var r := E.MarkApplied(old(Contents()), app, revision, releaseId, now);
        if r.Ok? then Contents() == r.value && error.None? else Contents() == old(Contents()) && error == Some(r.error)
    {
      EffectMoves(Contents(), masterKey, Timed(Applied(app, revision, releaseId), now, 0));
      if !IsSafe(revision) || revision < 0 { return Some(InvalidRevision); }
      var k := FindMetadata(environments, app);
      var saved := if k.Some? then environments[k.value].revision else 0;
      if revision > saved || (k.Some? && environments[k.value].appliedRevision.Some?
                              && environments[k.value].appliedRevision.value > revision) {
        return Some(RevisionConflict);
      }
      if k.None? {
        environments := environments + [NewMetadata(app)];
        k := Some(|environments| - 1);
      }
      var m := environments[k.value];
      if m.appliedRevision == Some(revision) && m.appliedReleaseId == Some(releaseId) { return None; }
      m := m.(appliedRevision := Some(revision));
      m := m.(appliedReleaseId := Some(releaseId));
      m := m.(lastAppliedAt := Some(now));
      environments := environments[k.value := m];
      assert FindMetadata(old(environments), app).None? ==> environments == old(environments) + [m];
      error := None;
    }

    /** The loop that decrypts and collects an application's variables. */
    method Materialize(app: Text, expected: Option<int>) returns (values: Result<map<Text, Text>, Error>)
      ensures values == E.Materialize(Contents(), masterKey, app, expected)
    {
      if expected.Some? && (!IsSafe(expected.value) || expected.value < 0) { return Err(InvalidRevision); }
      if expected.Some? && expected.value != RevisionOf(Contents(), app) { return Err(RevisionConflict); }
      var collected: map<Text, Text> := map[];
      for i := 0 to |variables|
        invariant Values(variables[..i], masterKey, app) == Ok(collected)
      {
        var v := variables[i];
        assert variables[..i + 1][..i] == variables[..i];
        if Visible(v, app) {
          if v.payload.Plain? {
            collected := collected[v.key := v.payload.value];
          } else {
            var plain := Decrypt(masterKey, v);
            if plain.Err? {
              FirstValueError(variables, masterKey, app, i + 1, plain.error);
              return Err(plain.error);
            }
            collected := collected[v.key := plain.value];
          }
        }
      }
      assert variables[..|variables|] == variables;
      values := Ok(collected);
    }
  }

  lemma {:induction false} FirstValueError(vars: seq<Variable>, masterKey: Option<nat>, app: Text, k: nat, error: Error)
    requires k <= |vars| && Values(vars[..k], masterKey, app) == Err(error)
    ensures Values(vars, masterKey, app) == Err(error)
    decreases |vars| - k
  {
    if k < |vars| {
      assert vars[..k + 1][..k] == vars[..k];
      FirstValueError(vars, masterKey, app, k + 1, error);
    } else {
      assert vars[..k] == vars;
    }
  }
}
