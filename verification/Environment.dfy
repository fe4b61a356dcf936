/** The application environment store: variables, the revisions that pin them, and the map they stand for. */
module Environment {
  import opened Common
  import opened Texts

  const GIT_CREDENTIAL := "YUNPANEL_GIT_CREDENTIAL"
  const WEBHOOK_SECRET := "YUNPANEL_GITHUB_WEBHOOK_SECRET"
  const RESERVED := {"NODE_ENV", "HOST", "PORT", "YUNPANEL_APPLICATION_ID", GIT_CREDENTIAL, WEBHOOK_SECRET}
  const MAX_VARIABLES := 100

  /** Authenticated encryption, as a constructor over everything it binds. */
  datatype Cipher = Cipher(masterKey: nat, app: Text, key: Text, value: Text, nonce: nat)
  datatype Payload = Plain(value: Text) | Sealed(cipher: Cipher)

  datatype Variable = Variable(app: Text, key: Text, payload: Payload, createdAt: int, updatedAt: int)

  datatype ChangeSource = Single | ImportMerge | ImportReplace | Migration
  datatype Change = Change(source: ChangeSource, added: nat, updated: nat, deleted: nat)

  datatype Metadata = Metadata(app: Text, revision: int, appliedRevision: Option<int>, appliedReleaseId: Option<Text>,
                               lastChangedAt: Option<int>, lastAppliedAt: Option<int>, lastChange: Option<Change>)

  datatype State = State(variables: seq<Variable>, environments: seq<Metadata>)

  datatype Mode = Merge | Replace | OtherMode

  datatype Error =
    | InvalidKey | StoreUnavailable | DecryptionFailed | NotFound | RevisionConflict | InvalidRevision | InvalidImport
    | ConfirmationRequired | LimitExceeded

  // ---- keys ------------------------------------------------------------------

  predicate IsInternal(k: Text) { k == GIT_CREDENTIAL || k == WEBHOOK_SECRET }

  predicate IsUpperOrUnderscore(c: char) { 'A' <= c <= 'Z' || c == '_' }

  /** normalizeEnvironmentKey: the pattern, and none of the managed names. */
  predicate KeyOk(k: Text) {
    && 1 <= |k| <= 128 && IsUpperOrUnderscore(k[0])
        && (forall i | 0 <= i < |k| :: IsUpperOrUnderscore(k[i]) || IsDigit(k[i]))
    && k !in RESERVED
  }

  // ---- the map a list of variables stands for --------------------------------

  /** The plain text of a variable, whether or not it is stored encrypted. */
  function ValueOf(v: Variable): Text { if v.payload.Plain? then v.payload.value else v.payload.cipher.value }

  function Entry(v: Variable): (Text, bool) { (ValueOf(v), v.payload.Sealed?) }

  predicate Visible(v: Variable, app: Text) { v.app == app && !IsInternal(v.key) }

  function View(vars: seq<Variable>, app: Text): map<Text, (Text, bool)> {
    if vars == [] then map[]
    else
      var init := View(vars[..|vars| - 1], app);
      var last := vars[|vars| - 1];
      if Visible(last, app) then init[last.key := Entry(last)] else init
  }

  predicate KeysDistinct(vars: seq<Variable>) {
    forall i, j | 0 <= i < j < |vars| :: vars[i].app != vars[j].app || vars[i].key != vars[j].key
  }

  /** Every secret was sealed with this master key, for its own application and key. */
  predicate SealedWith(vars: seq<Variable>, masterKey: Option<nat>) {
    forall i | 0 <= i < |vars| && vars[i].payload.Sealed? ::
      masterKey == Some(vars[i].payload.cipher.masterKey) && vars[i].payload.cipher.app == vars[i].app
      && vars[i].payload.cipher.key == vars[i].key
  }

  function Decrypt(masterKey: Option<nat>, v: Variable): Result<Text, Error>
    requires v.payload.Sealed?
  {
    if masterKey.None? then Err(StoreUnavailable)
    else if v.payload.cipher.masterKey == masterKey.value && v.payload.cipher.app == v.app
        && v.payload.cipher.key == v.key then Ok(v.payload.cipher.value)
    else Err(DecryptionFailed)
  }

  function Seal(masterKey: nat, app: Text, key: Text, value: Text, nonce: nat): Payload {
    Sealed(Cipher(masterKey, app, key, value, nonce))
  }

  // ---- lookups ---------------------------------------------------------------

  function Find(vars: seq<Variable>, app: Text, key: Text): (r: Option<nat>)
    ensures r.Some? ==> r.value < |vars| && vars[r.value].app == app && vars[r.value].key == key
  {
    if vars == [] then None
    else if vars[0].app == app && vars[0].key == key then Some(0)
    else
      var rest := Find(vars[1..], app, key);
      if rest.Some? then Some(rest.value + 1) else None
  }

  lemma {:induction false} NoVariable(vars: seq<Variable>, app: Text, key: Text)
    requires Find(vars, app, key).None?
    ensures forall i | 0 <= i < |vars| :: !(vars[i].app == app && vars[i].key == key)
  {
    if vars != [] {
      NoVariable(vars[1..], app, key);
      assert forall i | 1 <= i < |vars| :: vars[i] == vars[1..][i - 1];
    }
  }

  function FindMetadata(ms: seq<Metadata>, app: Text): (r: Option<nat>)
    ensures r.Some? ==> r.value < |ms| && ms[r.value].app == app
  {
    if ms == [] then None
    else if ms[0].app == app then Some(0)
    else
      var rest := FindMetadata(ms[1..], app);
      if rest.Some? then Some(rest.value + 1) else None
  }

  lemma {:induction false} NoMetadata(ms: seq<Metadata>, app: Text)
    requires FindMetadata(ms, app).None?
    ensures forall i | 0 <= i < |ms| :: ms[i].app != app
  {
    if ms != [] {
      NoMetadata(ms[1..], app);
      assert forall i | 1 <= i < |ms| :: ms[i] == ms[1..][i - 1];
    }
  }

  function RevisionOf(s: State, app: Text): int {
    var k := FindMetadata(s.environments, app);
    if k.Some? then s.environments[k.value].revision else 0
  }

  function AppliedOf(s: State, app: Text): Option<int> {
    var k := FindMetadata(s.environments, app);
    if k.Some? then s.environments[k.value].appliedRevision else None
  }

  // ---- operations ------------------------------------------------------------

  function NewMetadata(app: Text): Metadata { Metadata(app, 0, None, None, None, None, None) }

  /** recordEnvironmentChange. */
  function Recorded(ms: seq<Metadata>, app: Text, now: int, change: Change): seq<Metadata> {
    var k := FindMetadata(ms, app);
    if k.Some? then ms[k.value
                       := ms[k.value].(revision := ms[k.value].revision + 1, lastChangedAt := Some(now),
                                       lastChange := Some(change))]
    else ms + [NewMetadata(app).(revision := 1, lastChangedAt := Some(now), lastChange := Some(change))]
  }

  function Put(vars: seq<Variable>, app: Text, key: Text, payload: Payload, now: int): seq<Variable> {
    var k := Find(vars, app, key);
    if k.Some? then vars[k.value := vars[k.value].(payload := payload, updatedAt := now)]
    else vars + [Variable(app, key, payload, now, now)]
  }

  function SetVariable(s: State, masterKey: Option<nat>, app: Text, key: Text, value: Text, secret: bool, now: int,
                       nonce: nat): Result<State, Error> {
    if !KeyOk(key) then Err(InvalidKey)
    else if secret && masterKey.None? then Err(StoreUnavailable)
    else
      var payload := if secret then Seal(masterKey.value, app, key, value, nonce) else Plain(value);
      var added := Find(s.variables, app, key).None?;
      Ok(State(Put(s.variables, app, key, payload, now),
               Recorded(s.environments, app, now, Change(Single, if added then 1 else 0, if added then 0 else 1, 0))))
  }

  function DeleteVariable(s: State, app: Text, key: Text, now: int): Result<State, Error> {
    if !KeyOk(key) then Err(InvalidKey)
    else
      var k := Find(s.variables, app, key);
      if k.None? then Err(NotFound)
      else Ok(State(s.variables[..k.value] + s.variables[k.value + 1..],
                    Recorded(s.environments, app, now, Change(Single, 0, 0, 1))))
  }

  /** setDeploymentCredential and setWebhookSecret: a sealed value under an internal key, outside the revisions. */
  function SetInternal(s: State, masterKey: Option<nat>, app: Text, key: Text, value: Text, now: int,
                       nonce: nat): Result<State, Error>
    requires IsInternal(key)
  {
    if masterKey.None? then Err(StoreUnavailable)
    else Ok(s.(variables := Put(s.variables, app, key, Seal(masterKey.value, app, key, value, nonce), now)))
  }

  function DeleteInternal(s: State, app: Text, key: Text): Result<State, Error>
    requires IsInternal(key)
  {
    var k := Find(s.variables, app, key);
    if k.None? then Err(NotFound) else Ok(s.(variables := s.variables[..k.value] + s.variables[k.value + 1..]))
  }

  // ---- import ----------------------------------------------------------------

  /** Object.entries of a parsed import: distinct keys, each accepted by normalizeEnvironmentKey. */
  predicate Parsed(entries: seq<(Text, Text)>) {
    && (forall i, j | 0 <= i < j < |entries| :: entries[i].0 != entries[j].0)
    && (forall i | 0 <= i < |entries| :: KeyOk(entries[i].0))
  }

  function Existing(vars: seq<Variable>, app: Text): seq<Variable> {
    if vars == [] then []
    else
      var init, last := Existing(vars[..|vars| - 1], app), vars[|vars| - 1];
      if Visible(last, app) then init + [last] else init
  }

  function Others(vars: seq<Variable>, app: Text): seq<Variable> {
    if vars == [] then []
    else
      var init, last := Others(vars[..|vars| - 1], app), vars[|vars| - 1];
      if Visible(last, app) then init else init + [last]
  }

  /** Map.set on the insertion-ordered map of next variables. */
  function MapSet(next: seq<Variable>, v: Variable): seq<Variable> {
    var k := Find(next, v.app, v.key);
    if k.Some? then next[k.value := v] else next + [v]
  }

  /** The loop over the imported entries: the variables to keep, and how many were added and updated. */
  datatype Progress = Progress(next: seq<Variable>, added: nat, updated: nat)

  /** The stored variable already holds this value with this visibility; reading it may fail. */
  function Unchanged(masterKey: Option<nat>, previous: Option<Variable>, value: Text, secret: bool): Result<bool,
      Error> {
    if previous.None? || previous.value.payload.Sealed? != secret then Ok(false)
    else if !secret then Ok(previous.value.payload.value == value)
    else
      var plain := Decrypt(masterKey, previous.value);
      if plain.Err? then Err(plain.error) else Ok(plain.value == value)
  }

  function Previous(existing: seq<Variable>, app: Text, key: Text): Option<Variable> {
    var k := Find(existing, app, key);
    if k.Some? then Some(existing[k.value]) else None
  }

  /** The record an import stores for one changed entry. */
  function Imported(masterKey: Option<nat>, previous: Option<Variable>, app: Text, entry: (Text, Text), secret: bool,
                    now: int, nonce: nat): Variable {
    Variable(app, entry.0, if secret && masterKey.Some? then Seal(masterKey.value, app, entry.0, entry.1, nonce)
             else Plain(entry.1),
             if previous.Some? then previous.value.createdAt else now, now)
  }

  function ImportEntry(p: Progress, masterKey: Option<nat>, existing: seq<Variable>, app: Text, entry: (Text, Text),
                       secret: bool, now: int, nonce: nat)
    : Result<Progress, Error>
  {
    var previous := Previous(existing, app, entry.0);
    var same := Unchanged(masterKey, previous, entry.1, secret);
    if same.Err? then Err(same.error)
    else if same.value && previous.Some? then Ok(p.(next := MapSet(p.next, previous.value)))
    else if secret && masterKey.None? then Err(StoreUnavailable)
    else
      var next := MapSet(p.next, Imported(masterKey, previous, app, entry, secret, now, nonce));
      if previous.Some? then Ok(Progress(next, p.added, p.updated + 1)) else Ok(Progress(next, p.added + 1, p.updated))
  }

  function ImportEntries(start: seq<Variable>, masterKey: Option<nat>, existing: seq<Variable>, app: Text,
                         entries: seq<(Text, Text)>, secret: bool, now: int, nonce: nat)
    : Result<Progress, Error>
  {
    if entries == [] then Ok(Progress(start, 0, 0))
    else
      var init := ImportEntries(start, masterKey, existing, app, entries[..|entries| - 1], secret, now, nonce);
      if init.Err? then init
      else ImportEntry(init.value, masterKey, existing, app, entries[|entries| - 1], secret, now, nonce + |entries|)
  }

  function Missing(existing: seq<Variable>, entries: seq<(Text, Text)>): nat {
    if existing == [] then 0
    else
      var last := existing[|existing| - 1];
      Missing(existing[..|existing| - 1], entries) + if exists i | 0 <= i < |entries| ::
      entries[i].0 == last.key then 0 else 1
  }

  datatype Request = Request(app: Text, entries: seq<(Text, Text)>, mode: Mode, secret: bool, expectedRevision: int,
                             confirmation: Option<(Text, int)>)

  datatype Import = Import(state: State, added: nat, updated: nat, deleted: nat)

  /** The end of an import: rewrite the application's variables and record the change, if there is one. */
  function Adopt(s: State, r: Request, p: Progress, deleted: nat, now: int): Import {
    if p.added + p.updated + deleted == 0 then Import(s, 0, 0, 0)
    else
      var change := Change(if r.mode.Merge? then ImportMerge else ImportReplace, p.added, p.updated, deleted);
      Import(State(Others(s.variables, r.app) + p.next, Recorded(s.environments, r.app, now, change)), p.added,
             p.updated, deleted)
  }

  function ImportVariables(s: State, masterKey: Option<nat>, r: Request, now: int, nonce: nat): Result<Import, Error> {
    var revision := RevisionOf(s, r.app);
    if !IsSafe(r.expectedRevision) || r.expectedRevision < 0 then Err(InvalidRevision)
    else if r.expectedRevision != revision then Err(RevisionConflict)
    else if r.mode.OtherMode? then Err(InvalidImport)
    else if r.confirmation != (if r.mode.Replace? then Some((r.app, revision)) else None) then Err(ConfirmationRequired)
    else
      var existing := Existing(s.variables, r.app);
      var p := ImportEntries(if r.mode.Merge? then existing
                             else [], masterKey, existing, r.app, r.entries, r.secret, now, nonce);
      if p.Err? then Err(p.error)
      else
        var deleted := if r.mode.Replace? then Missing(existing, r.entries) else 0;
        if |p.value.next| > MAX_VARIABLES then Err(LimitExceeded) else Ok(Adopt(s, r, p.value, deleted, now))
  }

  // ---- applying and materialising --------------------------------------------

  function MarkApplied(s: State, app: Text, revision: int, releaseId: Text, now: int): Result<State, Error> {
    var k := FindMetadata(s.environments, app);
    if !IsSafe(revision) || revision < 0 then Err(InvalidRevision)
    else if revision > RevisionOf(s, app) || (AppliedOf(s, app).Some? && AppliedOf(s, app).value > revision)
        then Err(RevisionConflict)
    else if k.None? then
      Ok(s.(environments := s.environments
            + [NewMetadata(app).(appliedRevision := Some(revision), appliedReleaseId := Some(releaseId),
                                 lastAppliedAt := Some(now))]))
    else
      var m := s.environments[k.value];
      if m.appliedRevision == Some(revision) && m.appliedReleaseId == Some(releaseId) then Ok(s)
      else Ok(s.(environments
                 := s.environments[k.value
                                   := m.(appliedRevision := Some(revision), appliedReleaseId := Some(releaseId),
                                         lastAppliedAt := Some(now))]))
  }

  /** What materialize returns to a job: the plain values, unless the expected revision has moved on. */
  function Materialize(s: State, masterKey: Option<nat>, app: Text, expected: Option<int>): Result<map<Text, Text>,
      Error> {
    if expected.Some? && (!IsSafe(expected.value) || expected.value < 0) then Err(InvalidRevision)
    else if expected.Some? && expected.value != RevisionOf(s, app) then Err(RevisionConflict)
    else Values(s.variables, masterKey, app)
  }

  function Values(vars: seq<Variable>, masterKey: Option<nat>, app: Text): Result<map<Text, Text>, Error> {
    if vars == [] then Ok(map[])
    else
      var init := Values(vars[..|vars| - 1], masterKey, app);
      var last := vars[|vars| - 1];
      if init.Err? || !Visible(last, app) then init
      else if last.payload.Plain? then Ok(init.value[last.key := last.payload.value])
      else
        var plain := Decrypt(masterKey, last);
        if plain.Err? then Err(plain.error) else Ok(init.value[last.key := plain.value])
  }
}
