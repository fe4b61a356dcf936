/**
 The environment store and its file.  An operation changes memory first and only then queues a
 snapshot for writing, so a job may be given a revision that no file holds yet.
 */
module EnvironmentCrashes {
  import opened Common
  import opened Texts
  import opened Environment
  import opened EnvironmentTheorems

  /** A missing file restarts as an empty one.  Once a write has failed the chain of writes stays rejected. */
  datatype World = World(memory: State, pending: seq<State>, file: State, broken: bool)

  /** The rename ends a write; before it the file is as it was. */
  datatype Event = Operate(t: Timed) | WriteLands | WriteFails | Crash

  predicate Proper(e: Event) { e.Operate? ==> WellFormed(e.t.op) }

  function Happen(w: World, masterKey: Option<nat>, e: Event): World
    requires Proper(e)
  {
    match e
    case Operate(t) =>
      var next := Apply(w.memory, masterKey, t);
      if next == w.memory || w.broken then w.(memory := next) else w.(memory := next, pending := w.pending + [next])
    case WriteLands => if w.pending == [] then w else w.(file := w.pending[0], pending := w.pending[1..])
    case WriteFails => if w.pending == [] then w else w.(pending := [], broken := true)
    case Crash => World(w.file, [], w.file, false)
  }

  predicate AllProper(es: seq<Event>) { forall e | e in es :: Proper(e) }

  function Play(w: World, masterKey: Option<nat>, es: seq<Event>): World
    requires AllProper(es)
    decreases |es|
  {
    if es == [] then w else Play(Happen(w, masterKey, es[0]), masterKey, es[1..])
  }

  // ---- file, queued snapshots and memory, oldest first -----------------------

  function States(w: World): seq<State> { [w.file] + w.pending + [w.memory] }

  ghost predicate Valid(s: State, masterKey: Option<nat>) { Sound(s) && SealedWith(s.variables, masterKey) }

  /** Each state stands where the one before it stood, or further on. */
  ghost predicate InOrder(w: World, masterKey: Option<nat>, app: Text) {
    && (forall i | 0 <= i < |States(w)| :: Valid(States(w)[i], masterKey))
    && (forall i, j | 0 <= i < j < |States(w)| :: Moves(States(w)[i], States(w)[j], app))
  }

  /** A process that starts on a valid file. */
  lemma StartsInOrder(file: State, masterKey: Option<nat>, app: Text)
    requires Valid(file, masterKey)
    ensures InOrder(World(file, [], file, false), masterKey, app)
  {
    assert States(World(file, [], file, false)) == [file, file];
  }

  lemma MovesOn(a: State, b: State, c: State, app: Text)
    requires Moves(a, b, app) && Moves(b, c, app)
    ensures Moves(a, c, app)
  {
  }

  lemma OperateKeepsOrder(w: World, masterKey: Option<nat>, t: Timed, app: Text)
    requires InOrder(w, masterKey, app) && WellFormed(t.op)
    ensures InOrder(Happen(w, masterKey, Operate(t)), masterKey, app)
  {
    var n := Happen(w, masterKey, Operate(t));
    var s, m := States(w), |States(w)| - 1;
    assert s[m] == w.memory;
    StepMoves(w.memory, masterKey, t, app);
    StepSealed(w.memory, masterKey, t);
    forall i | 0 <= i < |States(n)| ensures Valid(States(n)[i], masterKey) {
      if i < m { assert States(n)[i] == s[i]; }
    }
    forall i, j | 0 <= i < j < |States(n)| ensures Moves(States(n)[i], States(n)[j], app) {
      if j < m {
        assert States(n)[i] == s[i] && States(n)[j] == s[j];
      } else if i < m {
        assert States(n)[i] == s[i] && States(n)[j] == n.memory;
        MovesOn(s[i], w.memory, n.memory, app);
      }
    }
  }

  lemma HappenKeepsOrder(w: World, masterKey: Option<nat>, e: Event, app: Text)
    requires InOrder(w, masterKey, app) && Proper(e)
    ensures InOrder(Happen(w, masterKey, e), masterKey, app)
  {
    var n, s := Happen(w, masterKey, e), States(w);
    match e
    case Operate(t) => OperateKeepsOrder(w, masterKey, t, app);
    case WriteLands => if w.pending != [] { assert States(n) == s[1..]; }
    case WriteFails => if w.pending != [] { assert States(n) == [s[0], s[|s| - 1]]; }
    case Crash => assert States(n) == [s[0], s[0]];
  }

  lemma {:induction false} PlayKeepsOrder(w: World, masterKey: Option<nat>, es: seq<Event>, app: Text)
    requires InOrder(w, masterKey, app) && AllProper(es)
    ensures InOrder(Play(w, masterKey, es), masterKey, app)
    decreases |es|
  {
    if es != [] {
      HappenKeepsOrder(w, masterKey, es[0], app);
      PlayKeepsOrder(Happen(w, masterKey, es[0]), masterKey, es[1..], app);
    }
  }

  // ---- a job given revision `r` of an application ----------------------------

  /** Revision `r` either still stands for contents `v`, or has been left behind. */
  ghost predicate Pinned(s: State, app: Text, r: int, v: map<Text, (Text, bool)>) {
    RevisionOf(s, app) > r || (RevisionOf(s, app) == r && View(s.variables, app) == v)
  }

  /** At some crash of the run the file had not reached revision `r`. */
  predicate Loses(w: World, masterKey: Option<nat>, es: seq<Event>, app: Text, r: int)
    requires AllProper(es)
    decreases |es|
  {
    es != []
    && ((es[0].Crash? && RevisionOf(w.file, app) < r) || Loses(Happen(w, masterKey, es[0]), masterKey, es[1..], app, r))
  }

  /** Every state that has reached the revision pins it, and memory is one of them. */
  ghost predicate Holds(w: World, app: Text, r: int, v: map<Text, (Text, bool)>) {
    && (forall i | 0 <= i < |States(w)| :: RevisionOf(States(w)[i], app) >= r ==> Pinned(States(w)[i], app, r, v))
    && RevisionOf(w.memory, app) >= r
  }

  lemma TakenHolds(w: World, masterKey: Option<nat>, app: Text)
    requires InOrder(w, masterKey, app)
    ensures Holds(w, app, RevisionOf(w.memory, app), View(w.memory.variables, app))
  {
    var s := States(w);
    forall i | 0 <= i < |s| && RevisionOf(s[i], app) >= RevisionOf(w.memory, app)
      ensures Pinned(s[i], app, RevisionOf(w.memory, app), View(w.memory.variables, app))
    {
      if i < |s| - 1 { assert Moves(s[i], s[|s| - 1], app); }
    }
  }

  lemma HappenHolds(w: World, masterKey: Option<nat>, e: Event, app: Text, r: int, v: map<Text, (Text, bool)>)
    requires InOrder(w, masterKey, app) && Proper(e) && Holds(w, app, r, v)
    requires e.Crash? ==> RevisionOf(w.file, app) >= r
    ensures Holds(Happen(w, masterKey, e), app, r, v)
  {
    var n, s := Happen(w, masterKey, e), States(w);
    match e
    case Operate(t) =>
      assert s[|s| - 1] == w.memory;
      StepMoves(w.memory, masterKey, t, app);
      forall i | 0 <= i < |States(n)| && RevisionOf(States(n)[i], app) >= r ensures Pinned(States(n)[i], app, r, v) {
        if i < |s| - 1 { assert States(n)[i] == s[i]; } else { assert States(n)[i] == n.memory; }
      }
    case WriteLands => if w.pending != [] { assert States(n) == s[1..]; }
    case WriteFails => if w.pending != [] { assert States(n) == [s[0], s[|s| - 1]]; }
    case Crash => assert States(n) == [s[0], s[0]];
  }

  lemma {:induction false} PlayHolds(w: World, masterKey: Option<nat>, es: seq<Event>, app: Text, r: int, v: map<Text,
                                     (Text, bool)>)
    requires InOrder(w, masterKey, app) && AllProper(es) && Holds(w, app, r, v) && !Loses(w, masterKey, es, app, r)
    ensures Holds(Play(w, masterKey, es), app, r, v)
    decreases |es|
  {
    if es != [] {
      HappenHolds(w, masterKey, es[0], app, r, v);
      HappenKeepsOrder(w, masterKey, es[0], app);
      PlayHolds(Happen(w, masterKey, es[0]), masterKey, es[1..], app, r, v);
    }
  }

  /** What a job gets that asks for revision `r`: the contents of then, or the conflict. */
  ghost predicate Served(s: State, masterKey: Option<nat>, app: Text, r: int, v: map<Text, (Text, bool)>) {
    var got := Materialize(s, masterKey, app, Some(r));
    got == Ok(PlainValues(v)) || got == Err(RevisionConflict)
  }

  /**
   Through crashes and failed writes: a job given the revision in memory receives what memory held
   then, or is told of a conflict, as long as no crash comes before that revision, or a later one,
   is in the file.
   */
  lemma JobSurvivesCrashes(w: World, masterKey: Option<nat>, es: seq<Event>, app: Text)
    requires InOrder(w, masterKey, app) && AllProper(es) && IsSafe(RevisionOf(w.memory, app))
    requires RevisionOf(w.memory, app) >= 0
    requires !Loses(w, masterKey, es, app, RevisionOf(w.memory, app))
    ensures Served(Play(w, masterKey, es).memory, masterKey, app, RevisionOf(w.memory, app),
                   View(w.memory.variables, app))
  {
    TakenHolds(w, masterKey, app);
    HeldServes(w, masterKey, es, app, RevisionOf(w.memory, app), View(w.memory.variables, app));
  }

  // ---- a revision that is lost -----------------------------------------------

  const KEY := "A"

  function Edit(app: Text, value: Text): Event { Operate(Timed(Set(app, KEY, value, false), 0, 0)) }

  /** `n` edits of one variable. */
  function Edits(app: Text, value: Text, n: nat): seq<Event> { seq(n, i => Edit(app, value)) }

  lemma EditMoves(w: World, masterKey: Option<nat>, app: Text, value: Text)
    requires InOrder(w, masterKey, app)
    ensures var n := Happen(w, masterKey, Edit(app, value));
      RevisionOf(n.memory, app) == RevisionOf(w.memory, app) + 1 && KEY in View(n.memory.variables, app)
      && View(n.memory.variables, app)[KEY].0 == value
  {
    var s := w.memory;
    assert States(w)[|States(w)| - 1] == s;
    PutView(s.variables, app, KEY, Plain(value), 0, app);
    var added := Find(s.variables, app, KEY).None?;
    RecordedMoves(s.environments, app, 0, Change(Single, if added then 1 else 0, if added then 0 else 1, 0), app,
                  s.variables, Put(s.variables, app, KEY, Plain(value), 0));
  }

  lemma {:induction false} EditsMove(w: World, masterKey: Option<nat>, app: Text, value: Text, n: nat)
    requires InOrder(w, masterKey, app)
    ensures AllProper(Edits(app, value, n))
    ensures var x := Play(w, masterKey, Edits(app, value, n));
      InOrder(x, masterKey, app) && RevisionOf(x.memory, app) == RevisionOf(w.memory, app) + n
      && (n > 0 ==> KEY in View(x.memory.variables, app) && View(x.memory.variables, app)[KEY].0 == value)
    ensures forall r :: !Loses(w, masterKey, Edits(app, value, n), app, r)
    decreases n
  {
    if n > 0 {
      var es := Edits(app, value, n);
      assert es[0] == Edit(app, value) && es[1..] == Edits(app, value, n - 1);
      EditMoves(w, masterKey, app, value);
      HappenKeepsOrder(w, masterKey, es[0], app);
      EditsMove(Happen(w, masterKey, es[0]), masterKey, app, value, n - 1);
    }
  }

  /** From a state short of revision `r`, plain edits issue `r` again with other contents. */
  lemma ReissuesRevision(w: World, masterKey: Option<nat>, app: Text, r: int, v: map<Text, (Text, bool)>)
      returns (es: seq<Event>)
    requires InOrder(w, masterKey, app) && RevisionOf(w.memory, app) < r && IsSafe(r) && r >= 0
    ensures AllProper(es) && !Loses(w, masterKey, es, app, r)
    ensures !Served(Play(w, masterKey, es).memory, masterKey, app, r, v)
  {
    var value := if KEY in v && v[KEY].0 == "" then "x" else "";
    var n := r - RevisionOf(w.memory, app);
    es := Edits(app, value, n);
    EditsMove(w, masterKey, app, value, n);
    var x := Play(w, masterKey, es);
    assert States(x)[|States(x)| - 1] == x.memory;
    ValuesAreView(x.memory.variables, masterKey, app);
    assert PlainValues(View(x.memory.variables, app))[KEY] == value;
    assert KEY in v ==> PlainValues(v)[KEY] != value;
  }

  /**
   The exact condition at a crash.  A job was given the revision in memory at `w`, and nothing was
   lost until the crash after `es`.  Whatever follows without a further loss serves the job, if and
   only if the file had that revision, or a later one, when the process died.
   */
  lemma JobServedIffRenamed(w: World, masterKey: Option<nat>, es: seq<Event>, app: Text)
    requires InOrder(w, masterKey, app) && AllProper(es) && IsSafe(RevisionOf(w.memory, app))
    requires RevisionOf(w.memory, app) >= 0
    requires !Loses(w, masterKey, es, app, RevisionOf(w.memory, app))
    ensures var r, v, died := RevisionOf(w.memory, app), View(w.memory.variables, app), Play(w, masterKey, es);
      var back := Happen(died, masterKey, Crash);
      (forall more | AllProper(more) && !Loses(back, masterKey, more, app, r) ::
       Served(Play(back, masterKey, more).memory, masterKey, app, r, v))
      <==> RevisionOf(died.file, app) >= r
  {
    var r, v, died := RevisionOf(w.memory, app), View(w.memory.variables, app), Play(w, masterKey, es);
    var back := Happen(died, masterKey, Crash);
    TakenHolds(w, masterKey, app);
    PlayHolds(w, masterKey, es, app, r, v);
    PlayKeepsOrder(w, masterKey, es, app);
    HappenKeepsOrder(died, masterKey, Crash, app);
    if RevisionOf(died.file, app) >= r {
      HappenHolds(died, masterKey, Crash, app, r, v);
      forall more | AllProper(more) && !Loses(back, masterKey, more, app, r)
          ensures Served(Play(back, masterKey, more).memory, masterKey, app, r, v) {
        HeldServes(back, masterKey, more, app, r, v);
      }
    } else {
      var more := ReissuesRevision(back, masterKey, app, r, v);
    }
  }

  lemma HeldServes(w: World, masterKey: Option<nat>, es: seq<Event>, app: Text, r: int, v: map<Text, (Text, bool)>)
    requires InOrder(w, masterKey, app) && AllProper(es) && Holds(w, app, r, v) && !Loses(w, masterKey, es, app, r)
    requires IsSafe(r) && r >= 0
    ensures Served(Play(w, masterKey, es).memory, masterKey, app, r, v)
  {
    PlayHolds(w, masterKey, es, app, r, v);
    PlayKeepsOrder(w, masterKey, es, app);
    var n := Play(w, masterKey, es);
    assert States(n)[|States(n)| - 1] == n.memory;
    ValuesAreView(n.memory.variables, masterKey, app);
  }

  // ---- a failed write --------------------------------------------------------

  /**
   After one failed write nothing is saved until the process restarts, and the restart reads what
   the file held then.
   */
  lemma {:induction false} NothingSavedAfterFailure(w: World, masterKey: Option<nat>, es: seq<Event>)
    requires w.broken && w.pending == [] && AllProper(es) && forall e | e in es :: !e.Crash?
    ensures var n := Play(w, masterKey, es); n.file == w.file && Happen(n, masterKey, Crash).memory == w.file
    decreases |es|
  {
    if es != [] { NothingSavedAfterFailure(Happen(w, masterKey, es[0]), masterKey, es[1..]); }
  }
}
