/** The cap of 100 variables: an import enforces it, a single set does not. */
module EnvironmentLimits {
  import opened Common
  import opened Texts
  import opened Environment
  import opened EnvironmentTheorems

  /** What importVariables asks before it looks at the entries. */
  predicate Admissible(s: State, r: Request) {
    && IsSafe(r.expectedRevision) && r.expectedRevision >= 0 && r.expectedRevision == RevisionOf(s, r.app)
        && !r.mode.OtherMode?
    && r.confirmation == if r.mode.Replace? then Some((r.app, RevisionOf(s, r.app))) else None
  }

  /** With the store's own master key the loop over the entries never fails. */
  lemma {:induction false} EntriesAccepted(start: seq<Variable>, masterKey: Option<nat>, existing: seq<Variable>,
                                           app: Text,
                                           entries: seq<(Text, Text)>, secret: bool, now: int, nonce: nat)
    requires SealedWith(existing, masterKey) && (secret ==> masterKey.Some?)
    ensures ImportEntries(start, masterKey, existing, app, entries, secret, now, nonce).Ok?
  {
    if entries != [] {
      EntriesAccepted(start, masterKey, existing, app, entries[..|entries| - 1], secret, now, nonce);
    }
  }

  /**
   An admissible import is refused exactly when the map it would leave is larger than the limit,
   whether or not the import is what made it so.
   */
  lemma LimitRefusesIff(s: State, masterKey: Option<nat>, r: Request, now: int, nonce: nat)
    requires KeysDistinct(s.variables) && SealedWith(s.variables, masterKey) && Parsed(r.entries)
    requires (r.secret ==> masterKey.Some?)
    ensures var i := ImportVariables(s, masterKey, r, now, nonce);
      && (i == Err(LimitExceeded) <==> Admissible(s, r) && |Target(View(s.variables, r.app), r)| > MAX_VARIABLES)
      && (i.Ok? <==> Admissible(s, r) && |Target(View(s.variables, r.app), r)| <= MAX_VARIABLES)
  {
    if Admissible(s, r) {
      var existing := Existing(s.variables, r.app);
      var start := if r.mode.Merge? then existing else [];
      OthersSealed(s.variables, masterKey, r.app);
      EntriesAccepted(start, masterKey, existing, r.app, r.entries, r.secret, now, nonce);
      ImportLoop(s, masterKey, r, now, nonce, existing, start);
      NextSize(ImportEntries(start, masterKey, existing, r.app, r.entries, r.secret, now, nonce).value.next, r.app);
    }
  }

  // ---- single sets -----------------------------------------------------------

  /** A set asks for a good key and, for a secret, a master key; it never counts. */
  lemma SetAcceptedIff(s: State, masterKey: Option<nat>, app: Text, key: Text, value: Text, secret: bool, now: int,
                       nonce: nat)
    requires Sound(s)
    ensures SetVariable(s, masterKey, app, key, value, secret, now, nonce).Ok? <==>
        KeyOk(key) && (secret ==> masterKey.Some?)
    ensures KeyOk(key) && (secret ==> masterKey.Some?) ==>
      var n := SetVariable(s, masterKey, app, key, value, secret, now, nonce).value;
      Sound(n) && View(n.variables, app) == View(s.variables, app)[key := (value, secret)]
      && RevisionOf(n, app) == RevisionOf(s, app) + 1
  {
    if KeyOk(key) && (secret ==> masterKey.Some?) {
      var payload := if secret then Seal(masterKey.value, app, key, value, nonce) else Plain(value);
      var added := Find(s.variables, app, key).None?;
      PutView(s.variables, app, key, payload, now, app);
      RecordedMoves(s.environments, app, now, Change(Single, if added then 1 else 0, if added then 0 else 1, 0), app,
                    s.variables, Put(s.variables, app, key, payload, now));
    }
  }

  /** A, AA, AAA, ... */
  function Name(i: nat): Text { seq(i + 1, _ => 'A') }

  function Sets(app: Text, n: nat): seq<Timed> {
    seq(n, i requires 0 <= i => Timed(Set(app, Name(i), "", false), 0, 0))
  }

  function Empty(): State { State([], []) }

  lemma NameOk(i: nat)
    requires i < 128
    ensures KeyOk(Name(i))
  {
    var n := Name(i);
    forall k | k in RESERVED ensures n != k {
      if k == "NODE_ENV" { assert k[0] == 'N'; }
      if k == "HOST" { assert k[0] == 'H'; }
      if k == "PORT" { assert k[0] == 'P'; }
      if k == "YUNPANEL_APPLICATION_ID" || k == GIT_CREDENTIAL || k == WEBHOOK_SECRET { assert k[0] == 'Y'; }
    }
  }

  lemma OneMoreSet(s: State, app: Text, n: nat)
    requires n < 128 && Sound(s) && SealedWith(s.variables, None) && |View(s.variables, app)| == n
    requires RevisionOf(s, app) == n && forall k | k in View(s.variables, app) :: |k| <= n
    ensures var t := Apply(s, None, Timed(Set(app, Name(n), "", false), 0, 0));
      && Sound(t) && |View(t.variables, app)| == n + 1 && RevisionOf(t, app) == n + 1
      && (forall k | k in View(t.variables, app) :: |k| <= n + 1) && SealedWith(t.variables, None)
  {
    NameOk(n);
    SetAcceptedIff(s, None, app, Name(n), "", false, 0, 0);
    StepSealed(s, None, Timed(Set(app, Name(n), "", false), 0, 0));
  }

  /** `n` single sets on an empty store leave `n` variables at revision `n`. */
  lemma {:induction false} SetsWellFormed(app: Text, n: nat)
    requires n <= 128
    ensures forall t | t in Sets(app, n) :: WellFormed(t.op)
  {
    if n > 0 {
      SetsWellFormed(app, n - 1);
      NameOk(n - 1);
    }
  }

  lemma {:induction false} SetsAdd(app: Text, n: nat)
    requires n <= 128
    ensures var s := Run(Empty(), None, Sets(app, n));
      && Sound(s) && |View(s.variables, app)| == n && RevisionOf(s, app) == n
          && (forall k | k in View(s.variables, app) :: |k| <= n)
      && SealedWith(s.variables, None)
  {
    if n > 0 {
      var init := Sets(app, n - 1);
      SetsAdd(app, n - 1);
      LastSet(app, n);
      OneMoreSet(Run(Empty(), None, init), app, n - 1);
    }
  }

  lemma LastSet(app: Text, n: nat)
    requires 0 < n <= 128
    ensures Run(Empty(), None, Sets(app, n))
         == Apply(Run(Empty(), None, Sets(app, n - 1)), None, Timed(Set(app, Name(n - 1), "", false), 0, 0))
  {
    var t := Timed(Set(app, Name(n - 1), "", false), 0, 0);
    SetsWellFormed(app, n - 1);
    NameOk(n - 1);
    assert Sets(app, n) == Sets(app, n - 1) + [t];
    RunOneMore(Empty(), None, Sets(app, n - 1), t);
  }

  lemma {:induction false} RunOneMore(s: State, masterKey: Option<nat>, ts: seq<Timed>, t: Timed)
    requires (forall x | x in ts :: WellFormed(x.op)) && WellFormed(t.op)
    ensures Run(s, masterKey, ts + [t]) == Apply(Run(s, masterKey, ts), masterKey, t)
    decreases |ts|
  {
    if ts == [] {
      assert (ts + [t])[1..] == [];
    } else {
      assert (ts + [t])[0] == ts[0] && (ts + [t])[1..] == ts[1..] + [t];
      RunOneMore(Apply(s, masterKey, ts[0]), masterKey, ts[1..], t);
    }
  }

  /** normalizeApplicationEnvironmentBundle counts as well; keys and values are as they were stored. */
  function Bundle(values: map<Text, Text>): Result<map<Text, Text>, Error> {
    if |values| > MAX_VARIABLES then Err(LimitExceeded) else Ok(values)
  }

  /**
   101 single sets are all accepted.  After them a merge of nothing is refused for the limit, and what
   a job materialises is refused by the bundle its unit is rendered from.
   */
  lemma SetsPassTheLimit(app: Text)
    ensures (forall t | t in Sets(app, 101) :: WellFormed(t.op))
    ensures var s := Run(Empty(), None, Sets(app, 101));
      && |View(s.variables, app)| == 101
      && ImportVariables(s, None, Request(app, [], Merge, false, 101, None), 0, 0) == Err(LimitExceeded)
      && Materialize(s, None, app, Some(101)).Ok?
          && Bundle(Materialize(s, None, app, Some(101)).value) == Err(LimitExceeded)
  {
    SetsAdd(app, 101);
    var s := Run(Empty(), None, Sets(app, 101));
    var r := Request(app, [], Merge, false, 101, None);
    LimitRefusesIff(s, None, r, 0, 0);
    var v := View(s.variables, app);
    assert v + map[] == v;
    ValuesAreView(s.variables, None, app);
    MapSize(v);
    assert PlainValues(v).Keys == v.Keys;
    ValuesSize(PlainValues(v));
  }

  lemma ValuesSize(m: map<Text, Text>)
    ensures |m| == |m.Keys|
  {
  }
}
