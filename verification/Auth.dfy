/**
 Sessions and passwords: slow hash verification runs outside the database transaction, and the
 transaction checks that what was verified still stands. The model is every interleaving of such calls.
 */
module Auth {
  import opened Common
  import opened Texts

  type Id = nat

  /**
   A stored hash and whatever passwords it verifies; which ones is left open.  Verification refuses
   passwords beyond 1024 bytes, so they are finitely many.
   */
  datatype Hash = Hash(encoded: Text, accepts: set<Text>)

  predicate Verifies(password: Text, h: Hash) { password in h.accepts }

  datatype User = User(name: Text, hash: Hash, active: bool, mfa: bool, revision: nat)

  /** The verification a session was minted by: the password presented and the hash it was verified against. */
  datatype Proof = Proof(password: Text, hash: Hash)

  /** `proof` is the history of a session minted by a password alone. */
  datatype Session = Session(id: Id, token: nat, user: Id, createdAt: int, lastActiveAt: int, expiresAt: int,
                             proof: Option<Proof>)

  datatype Lifetimes = Lifetimes(idle: nat, absolute: nat)

  datatype Database = Database(users: map<Id, User>, sessions: seq<Session>)

  const MAX_OLD_SESSIONS := 9

  // ---- statements on the sessions table --------------------------------------

  function DeleteWhere(ss: seq<Session>, drop: Session -> bool): (r: seq<Session>)
    ensures forall s :: s in r <==> s in ss && !drop(s)
    ensures |r| <= |ss|
  {
    if ss == [] then []
    else
      var init, last := DeleteWhere(ss[..|ss| - 1], drop), ss[|ss| - 1];
      assert ss == ss[..|ss| - 1] + [last];
      if drop(last) then init else init + [last]
  }

  predicate Expired(s: Session, now: int, l: Lifetimes) { s.expiresAt <= now || s.lastActiveAt + l.idle <= now }

  /** ORDER BY created_at DESC, ties by position. */
  predicate Beats(ss: seq<Session>, i: nat, j: nat)
    requires i < |ss| && j < |ss|
  {
    ss[i].user == ss[j].user && (ss[i].createdAt > ss[j].createdAt || (ss[i].createdAt == ss[j].createdAt && i < j))
  }

  function Beaters(ss: seq<Session>, i: nat): set<nat>
    requires i < |ss|
  {
    set j: nat | j < |ss| && Beats(ss, j, i)
  }

  /** The sessions that survive `LIMIT -1 OFFSET 9`: other users', and the user's nine newest. */
  function KeepNewest(ss: seq<Session>, user: Id, upTo: nat): seq<Session>
    requires upTo <= |ss|
  {
    if upTo == 0 then []
    else
      var rest := KeepNewest(ss, user, upTo - 1);
      if ss[upTo - 1].user == user && |Beaters(ss, upTo - 1)| >= MAX_OLD_SESSIONS then rest else rest + [ss[upTo - 1]]
  }

  function CreateSession(db: Database, user: Id, id: Id, token: nat, proof: Option<Proof>, now: int,
                         l: Lifetimes): Database {
    var live := DeleteWhere(db.sessions, (s: Session) => Expired(s, now, l));
    var kept := KeepNewest(live, user, |live|);
    db.(sessions := kept + [Session(id, token, user, now, now, now + l.absolute, proof)])
  }

  function FindToken(ss: seq<Session>, token: nat): (r: Option<nat>)
    ensures r.Some? ==> r.value < |ss| && ss[r.value].token == token
  {
    if ss == [] then None
    else if ss[0].token == token then Some(0)
    else
      var rest := FindToken(ss[1..], token);
      if rest.Some? then Some(rest.value + 1) else None
  }

  /** getSession: an expired or disabled session is deleted, a live one may be touched. */
  function GetSession(db: Database, token: nat, touch: bool, now: int, l: Lifetimes): (Database, Option<Session>) {
    var k := FindToken(db.sessions, token);
    if k.None? then (db, None)
    else
      var s := db.sessions[k.value];
      if s.user !in db.users then (db, None)
      else if !db.users[s.user].active || Expired(s, now, l)
          then (db.(sessions := DeleteWhere(db.sessions, (x: Session) => x.id == s.id)), None)
      else if touch then
        var touched := s.(lastActiveAt := now);
        (db.(sessions := db.sessions[k.value := touched]), Some(touched))
      else (db, Some(s))
  }

  function IdleExpiresAt(s: Session, l: Lifetimes): int { Min(s.expiresAt, s.lastActiveAt + l.idle) }

  function DeleteUserSessions(db: Database, user: Id): Database {
    db.(sessions := DeleteWhere(db.sessions, (s: Session) => s.user == user))
  }

  // ---- calls in flight -------------------------------------------------------

  /** A call between the read it started from and the transaction it ends with. */
  datatype Flight =
    | LoggingIn(user: Id, expected: Hash, revision: nat, password: Text)
    | Changing(token: nat, user: Id, expected: Hash, verified: bool, encoded: Hash)
    | Landed

  datatype World = World(db: Database, flights: seq<Flight>)

  datatype Action =
    | BeginLogin(name: Text, password: Text)
    | CommitLogin(i: nat, previousToken: Option<nat>, id: Id, token: nat)
    | BeginChange(token: nat, currentPassword: Text, encoded: Hash)
    | CommitChange(i: nat)
    | ResetPassword(name: Text, encoded: Hash)
    | UpdateUser(user: Id, name: Text, newHash: Option<Hash>, active: bool)
    | RemoveUser(user: Id)
    | AddUser(user: Id, name: Text, hash: Hash)
    | MfaLogin(user: Id, id: Id, token: nat)
    | SetMfa(user: Id, enabled: bool)
    | Fetch(token: nat, touch: bool)
    | RevokeSession(token: nat, session: Id)
    | RevokeAll(token: nat)

  datatype Timed = Timed(action: Action, now: int)

  ghost predicate Named(db: Database, name: Text, user: Id) { user in db.users && db.users[user].name == name }

  predicate HasName(db: Database, name: Text) { exists u | u in db.users :: db.users[u].name == name }

  /** The row the unique user name selects; which one does not matter where names are unique. */
  ghost function UserNamed(db: Database, name: Text): Id
    requires HasName(db, name)
    ensures Named(db, name, UserNamed(db, name))
  {
    var u :| u in db.users && db.users[u].name == name; u
  }

  /** The fence of login: the row still holds the hash that was verified, at the revision that was read. */
  predicate Admitted(db: Database, f: Flight) {
    && f.LoggingIn? && Verifies(f.password, f.expected) && f.user in db.users && db.users[f.user].active
    && db.users[f.user].hash == f.expected && db.users[f.user].revision == f.revision
  }

  function CommitLoginIn(db: Database, f: Flight, previousToken: Option<nat>, id: Id, token: nat, now: int,
                         l: Lifetimes): Database {
    if !Admitted(db, f) then db
    else
      var rotated := if previousToken.Some?
          then db.(sessions := DeleteWhere(db.sessions, (s: Session) => s.token == previousToken.value)) else db;
      if db.users[f.user].mfa then rotated
          else CreateSession(rotated, f.user, id, token, Some(Proof(f.password, f.expected)), now, l)
  }

  /** The fence of changePassword: the session is still live, the hash is the one that was verified. */
  function CommitChangeIn(db: Database, f: Flight, now: int, l: Lifetimes): Database {
    if !f.Changing? || !f.verified then db
    else
      var (after, session) := GetSession(db, f.token, false, now, l);
      if session.None? || f.user !in after.users || after.users[f.user].hash != f.expected then db
      else DeleteUserSessions(after.(users := after.users[f.user := after.users[f.user].(hash := f.encoded)]), f.user)
  }

  ghost function Perform(w: World, t: Timed, l: Lifetimes): World {
    match t.action
    case BeginLogin(name, password) =>
      if !HasName(w.db, name) then w
      else
        var u := UserNamed(w.db, name);
        w.(flights := w.flights + [LoggingIn(u, w.db.users[u].hash, w.db.users[u].revision, password)])
    case CommitLogin(i, previous, id, token) =>
      if i >= |w.flights| || !w.flights[i].LoggingIn? then w
      else World(CommitLoginIn(w.db, w.flights[i], previous, id, token, t.now, l), w.flights[i := Landed])
    case BeginChange(token, password, encoded) =>
      var (db, session) := GetSession(w.db, token, false, t.now, l);
      if session.None? || session.value.user !in db.users then w.(db := db)
      else
        var u := session.value.user;
        World(db, w.flights + [Changing(token, u, db.users[u].hash, Verifies(password, db.users[u].hash), encoded)])
    case CommitChange(i) =>
      if i >= |w.flights| || !w.flights[i].Changing? then w
      else World(CommitChangeIn(w.db, w.flights[i], t.now, l), w.flights[i := Landed])
    case ResetPassword(name, encoded) =>
      if !HasName(w.db, name) then w
      else
        var u := UserNamed(w.db, name);
        if !w.db.users[u].active then w
        else w.(db := DeleteUserSessions(w.db.(users := w.db.users[u := w.db.users[u].(hash := encoded)]), u))
    case UpdateUser(u, name, encoded, active) =>
      if u !in w.db.users then w
      else
        var row := w.db.users[u];
        var next := row.(name := name, hash := if encoded.Some? then encoded.value
                         else row.hash, active := active, revision := row.revision + 1);
        if row.name == name && row.active == active && encoded.None? then w
        else w.(db := DeleteUserSessions(w.db.(users := w.db.users[u := next]), u))
    case RemoveUser(u) => w.(db := DeleteUserSessions(w.db.(users := w.db.users - {u}), u))
    case AddUser(u, name, hash) =>
        if u in w.db.users then w else w.(db := w.db.(users := w.db.users[u := User(name, hash, true, false, 1)]))
    case MfaLogin(u, id, token) =>
        if u !in w.db.users || !w.db.users[u].active then w
            else w.(db := CreateSession(w.db, u, id, token, None, t.now, l))
    case SetMfa(u, enabled) =>
        if u !in w.db.users then w else w.(db := w.db.(users := w.db.users[u := w.db.users[u].(mfa := enabled)]))
    case Fetch(token, touch) => w.(db := GetSession(w.db, token, touch, t.now, l).0)
    case RevokeSession(token, id) =>
      var (db, session) := GetSession(w.db, token, false, t.now, l);
      if session.None? then w.(db := db)
          else w.(db := db.(sessions
                            := DeleteWhere(db.sessions, (s: Session) => s.user == session.value.user && s.id == id)))
    case RevokeAll(token) =>
      var (db, session) := GetSession(w.db, token, false, t.now, l);
      if session.None? then w.(db := db) else w.(db := DeleteUserSessions(db, session.value.user))
  }

  ghost function Play(w: World, ts: seq<Timed>, l: Lifetimes): World
    decreases |ts|
  {
    if ts == [] then w else Play(Perform(w, ts[0], l), ts[1..], l)
  }

  // ---- at most ten sessions per user -----------------------------------------

  function Of(ss: seq<Session>, user: Id): nat {
    if ss == [] then 0 else Of(ss[..|ss| - 1], user) + if ss[|ss| - 1].user == user then 1 else 0
  }

  lemma {:induction false} DeleteWhereCounts(ss: seq<Session>, drop: Session -> bool, user: Id)
    ensures Of(DeleteWhere(ss, drop), user) <= Of(ss, user)
  {
    if ss != [] {
      DeleteWhereCounts(ss[..|ss| - 1], drop, user);
      var init := DeleteWhere(ss[..|ss| - 1], drop);
      assert (init + [ss[|ss| - 1]])[..|init|] == init;
    }
  }

  /** The places among the first `upTo` rows where one user's sessions survive. */
  function KeptPlaces(ss: seq<Session>, user: Id, upTo: nat): set<nat>
    requires upTo <= |ss|
  {
    set i: nat | i < upTo && ss[i].user == user && |Beaters(ss, i)| < MAX_OLD_SESSIONS
  }

  lemma {:induction false} KeptCount(ss: seq<Session>, user: Id, upTo: nat)
    requires upTo <= |ss|
    ensures Of(KeepNewest(ss, user, upTo), user) == |KeptPlaces(ss, user, upTo)|
  {
    if upTo > 0 {
      KeptCount(ss, user, upTo - 1);
      var rest := KeepNewest(ss, user, upTo - 1);
      assert (rest + [ss[upTo - 1]])[..|rest|] == rest;
      var before, after := KeptPlaces(ss, user, upTo - 1), KeptPlaces(ss, user, upTo);
      if ss[upTo - 1].user == user && |Beaters(ss, upTo - 1)| < MAX_OLD_SESSIONS {
        assert after == before + {upTo - 1};
      } else {
        assert after == before;
      }
    }
  }

  /** Of two sessions of one user the newer one has fewer ahead of it. */
  lemma RanksDiffer(ss: seq<Session>, i: nat, j: nat)
    requires i < |ss| && j < |ss| && Beats(ss, i, j)
    ensures |Beaters(ss, i)| < |Beaters(ss, j)|
  {
    assert Beaters(ss, i) + {i} <= Beaters(ss, j);
    assert i !in Beaters(ss, i);
    SubsetSize(Beaters(ss, i) + {i}, Beaters(ss, j));
  }

  lemma SubsetSize(a: set<nat>, b: set<nat>)
    requires a <= b
    ensures |a| <= |b|
  {
    assert b == a + (b - a);
  }

  /** Places with pairwise different ranks below `n` are at most `n`. */
  lemma {:induction false} FewRanks(ss: seq<Session>, places: set<nat>, n: nat)
    requires forall i | i in places :: i < |ss| && |Beaters(ss, i)| < n
    requires forall i, j | i in places && j in places && i != j :: |Beaters(ss, i)| != |Beaters(ss, j)|
    ensures |places| <= n
  {
    if n == 0 {
      if i: nat :| i in places { assert false; }
      assert places == {};
    } else if i: nat :| i in places && |Beaters(ss, i)| == n - 1 {
      FewRanks(ss, places - {i}, n - 1);
    } else {
      FewRanks(ss, places, n - 1);
    }
  }

  /** Trimming leaves a user at most nine sessions. */
  lemma TrimmedToNine(ss: seq<Session>, user: Id)
    ensures Of(KeepNewest(ss, user, |ss|), user) <= MAX_OLD_SESSIONS
  {
    var places := KeptPlaces(ss, user, |ss|);
    forall i, j | i in places && j in places && i != j ensures |Beaters(ss, i)| != |Beaters(ss, j)| {
      if Beats(ss, i, j) { RanksDiffer(ss, i, j); } else { RanksDiffer(ss, j, i); }
    }
    FewRanks(ss, places, MAX_OLD_SESSIONS);
    KeptCount(ss, user, |ss|);
  }

  lemma {:induction false} OthersKept(ss: seq<Session>, user: Id, other: Id, upTo: nat)
    requires upTo <= |ss| && other != user
    ensures Of(KeepNewest(ss, user, upTo), other) == Of(ss[..upTo], other)
    ensures forall s | s in KeepNewest(ss, user, upTo) :: s in ss
  {
    if upTo > 0 {
      OthersKept(ss, user, other, upTo - 1);
      assert ss[..upTo][..upTo - 1] == ss[..upTo - 1];
      var rest := KeepNewest(ss, user, upTo - 1);
      assert (rest + [ss[upTo - 1]])[..|rest|] == rest;
    }
  }

  lemma {:induction false} KeptMembers(ss: seq<Session>, user: Id, upTo: nat)
    requires upTo <= |ss|
    ensures forall s | s in KeepNewest(ss, user, upTo) :: s in ss
  {
    if upTo > 0 { KeptMembers(ss, user, upTo - 1); }
  }

  // ---- the invariant ---------------------------------------------------------

  /** The verification succeeded, and its hash is the very one stored now. */
  predicate ProofStands(db: Database, user: Id, p: Proof) {
    user in db.users && db.users[user].hash == p.hash && Verifies(p.password, p.hash)
  }

  /** A session minted by a password was verified against the hash stored now, and lives for the absolute lifetime. */
  predicate SessionOk(db: Database, s: Session, l: Lifetimes) {
    && (s.proof.Some? ==> ProofStands(db, s.user, s.proof.value))
    && s.expiresAt == s.createdAt + l.absolute
  }

  ghost predicate Inv(db: Database, l: Lifetimes) {
    && (forall s | s in db.sessions :: SessionOk(db, s, l))
    && (forall u: Id :: Of(db.sessions, u) <= MAX_OLD_SESSIONS + 1)
  }

  lemma DeleteKeeps(db: Database, drop: Session -> bool, l: Lifetimes)
    requires Inv(db, l)
    ensures Inv(db.(sessions := DeleteWhere(db.sessions, drop)), l)
  {
    forall u: Id ensures Of(DeleteWhere(db.sessions, drop), u) <= MAX_OLD_SESSIONS + 1 {
      DeleteWhereCounts(db.sessions, drop, u);
    }
  }

  lemma CreateKeeps(db: Database, user: Id, id: Id, token: nat, proof: Option<Proof>, now: int, l: Lifetimes)
    requires Inv(db, l) && (proof.Some? ==> ProofStands(db, user, proof.value))
    ensures Inv(CreateSession(db, user, id, token, proof, now, l), l)
  {
    var live := DeleteWhere(db.sessions, (s: Session) => Expired(s, now, l));
    var kept := KeepNewest(live, user, |live|);
    KeptMembers(live, user, |live|);
    var n := CreateSession(db, user, id, token, proof, now, l).sessions;
    assert n[..|kept|] == kept && |n| == |kept| + 1;
    forall u: Id ensures Of(n, u) <= MAX_OLD_SESSIONS + 1 {
      if u == user {
        TrimmedToNine(live, user);
      } else {
        OthersKept(live, user, u, |live|);
        assert live[..|live|] == live;
        DeleteWhereCounts(db.sessions, (s: Session) => Expired(s, now, l), u);
      }
    }
  }

  lemma {:induction false} ReplaceCounts(ss: seq<Session>, k: nat, s: Session, user: Id)
    requires k < |ss| && s.user == ss[k].user
    ensures Of(ss[k := s], user) == Of(ss, user)
  {
    var n := ss[k := s];
    if k == |ss| - 1 {
      assert n[..|n| - 1] == ss[..|ss| - 1];
    } else {
      assert n[..|n| - 1] == ss[..|ss| - 1][k := s];
      ReplaceCounts(ss[..|ss| - 1], k, s, user);
    }
  }

  lemma GetKeeps(db: Database, token: nat, touch: bool, now: int, l: Lifetimes)
    requires Inv(db, l)
    ensures Inv(GetSession(db, token, touch, now, l).0, l) && GetSession(db, token, touch, now, l).0.users == db.users
  {
    var k := FindToken(db.sessions, token);
    if k.Some? && db.sessions[k.value].user in db.users {
      var s := db.sessions[k.value];
      if !db.users[s.user].active || Expired(s, now, l) {
        DeleteKeeps(db, (x: Session) => x.id == s.id, l);
      } else if touch {
        var touched := s.(lastActiveAt := now);
        var n := db.sessions[k.value := touched];
        forall u: Id ensures Of(n, u) <= MAX_OLD_SESSIONS + 1 { ReplaceCounts(db.sessions, k.value, touched, u); }
        forall x | x in n ensures SessionOk(db, x, l) {
          if x == touched { assert SessionOk(db, s, l); } else { assert x in db.sessions; }
        }
      }
    }
  }

  /** Changing or removing a user's row goes with deleting the user's sessions. */
  lemma RowChangeKeeps(db: Database, user: Id, users: map<Id, User>, l: Lifetimes)
    requires Inv(db, l) && forall u | u in db.users && u != user :: u in users && users[u] == db.users[u]
    ensures Inv(DeleteUserSessions(db.(users := users), user), l)
  {
    var n := DeleteUserSessions(db, user).sessions;
    forall u: Id ensures Of(n, u) <= MAX_OLD_SESSIONS + 1 {
      DeleteWhereCounts(db.sessions, (s: Session) => s.user == user, u);
    }
  }

  lemma LoginKeeps(db: Database, f: Flight, previousToken: Option<nat>, id: Id, token: nat, now: int, l: Lifetimes)
    requires Inv(db, l)
    ensures Inv(CommitLoginIn(db, f, previousToken, id, token, now, l), l)
  {
    if Admitted(db, f) {
      var rotated := db;
      if previousToken.Some? {
        DeleteKeeps(db, (s: Session) => s.token == previousToken.value, l);
        rotated := db.(sessions := DeleteWhere(db.sessions, (s: Session) => s.token == previousToken.value));
      }
      if !db.users[f.user].mfa { CreateKeeps(rotated, f.user, id, token, Some(Proof(f.password, f.expected)), now, l); }
    }
  }

  lemma ChangeKeeps(db: Database, f: Flight, now: int, l: Lifetimes)
    requires Inv(db, l)
    ensures Inv(CommitChangeIn(db, f, now, l), l)
  {
    if f.Changing? && f.verified {
      GetKeeps(db, f.token, false, now, l);
      var after := GetSession(db, f.token, false, now, l).0;
      if f.user in after.users {
        RowChangeKeeps(after, f.user, after.users[f.user := after.users[f.user].(hash := f.encoded)], l);
      }
    }
  }

  lemma PerformKeeps(w: World, t: Timed, l: Lifetimes)
    requires Inv(w.db, l)
    ensures Inv(Perform(w, t, l).db, l)
  {
    match t.action
    case CommitLogin(i, previous, id, token) =>
        if i < |w.flights| { LoginKeeps(w.db, w.flights[i], previous, id, token, t.now, l); }
    case BeginChange(token, _, _) => GetKeeps(w.db, token, false, t.now, l);
    case CommitChange(i) => if i < |w.flights| { ChangeKeeps(w.db, w.flights[i], t.now, l); }
    case ResetPassword(name, encoded) =>
      if HasName(w.db, name) {
        var u := UserNamed(w.db, name);
        RowChangeKeeps(w.db, u, w.db.users[u := w.db.users[u].(hash := encoded)], l);
      }
    case UpdateUser(u, name, encoded, active) =>
      if u in w.db.users {
        var row := w.db.users[u];
        var next := row.(name := name, hash := if encoded.Some? then encoded.value
                         else row.hash, active := active, revision := row.revision + 1);
        RowChangeKeeps(w.db, u, w.db.users[u := next], l);
      }
    case RemoveUser(u) => RowChangeKeeps(w.db, u, w.db.users - {u}, l);
    case MfaLogin(u, id, token) => if u in w.db.users { CreateKeeps(w.db, u, id, token, None, t.now, l); }
    case Fetch(token, touch) => GetKeeps(w.db, token, touch, t.now, l);
    case RevokeSession(_, _) => RevokeKeeps(w, t, l);
    case RevokeAll(_) => RevokeKeeps(w, t, l);
    case _ =>
  }

  lemma RevokeKeeps(w: World, t: Timed, l: Lifetimes)
    requires Inv(w.db, l) && (t.action.RevokeSession? || t.action.RevokeAll?)
    ensures Inv(Perform(w, t, l).db, l)
  {
    GetKeeps(w.db, t.action.token, false, t.now, l);
    var (db, session) := GetSession(w.db, t.action.token, false, t.now, l);
    if session.Some? {
      if t.action.RevokeAll? {
        DeleteKeeps(db, (s: Session) => s.user == session.value.user, l);
      } else {
        var id := t.action.session;
        DeleteKeeps(db, (s: Session) => s.user == session.value.user && s.id == id, l);
      }
    }
  }

  /**
   In every interleaving of logins, password changes, resets and account updates: each session minted
   by a password alone was verified against the very hash that is stored now, every user has at most
   ten sessions, and every session ends one absolute lifetime after it was created.
   */
  lemma {:induction false} SessionsMatchPasswords(w: World, ts: seq<Timed>, l: Lifetimes)
    requires Inv(w.db, l)
    ensures Inv(Play(w, ts, l).db, l)
    decreases |ts|
  {
    if ts != [] {
      PerformKeeps(w, ts[0], l);
      SessionsMatchPasswords(Perform(w, ts[0], l), ts[1..], l);
    }
  }

  /**
   However often a session is touched, it is only returned before its absolute end, and its idle end
   never lies beyond it.
   */
  lemma TouchNeverExtends(db: Database, token: nat, touch: bool, now: int, l: Lifetimes)
    requires Inv(db, l) && l.idle > 0
    ensures var r := GetSession(db, token, touch, now, l).1;
      (r.Some? ==> now < IdleExpiresAt(r.value, l) <= r.value.createdAt + l.absolute)
    ensures var r, k := GetSession(db, token, touch, now, l).1, FindToken(db.sessions, token);
      (r.Some? ==>
       k.Some? && r.value.createdAt == db.sessions[k.value].createdAt
       && r.value.expiresAt == db.sessions[k.value].expiresAt)
  {
    GetKeeps(db, token, touch, now, l);
    var k := FindToken(db.sessions, token);
    if k.Some? { assert SessionOk(db, db.sessions[k.value], l); }
  }

  // ---- stale logins ----------------------------------------------------------

  function RevisionOf(db: Database, u: Id): Option<nat> { if u in db.users then Some(db.users[u].revision) else None }

  /** An account once removed does not come back, and a revision never falls. */
  predicate NotBefore(later: Option<nat>, earlier: Option<nat>) {
    later.Some? ==> earlier.Some? && later.value >= earlier.value
  }

  lemma RevisionsRise(w: World, t: Timed, l: Lifetimes, u: Id)
    requires !(t.action.AddUser? && t.action.user == u)
    ensures NotBefore(RevisionOf(Perform(w, t, l).db, u), RevisionOf(w.db, u))
  {
    match t.action
    case BeginChange(token, _, _) => UsersKept(w.db, token, false, t.now, l);
    case CommitChange(i) => if i < |w.flights| && w.flights[i].Changing? {
      UsersKept(w.db, w.flights[i].token, false, t.now, l);
    }
    case Fetch(token, touch) => UsersKept(w.db, token, touch, t.now, l);
    case RevokeSession(token, _) => UsersKept(w.db, token, false, t.now, l);
    case RevokeAll(token) => UsersKept(w.db, token, false, t.now, l);
    case _ =>
  }

  lemma UsersKept(db: Database, token: nat, touch: bool, now: int, l: Lifetimes)
    ensures GetSession(db, token, touch, now, l).0.users == db.users
  {
  }

  lemma {:induction false} RevisionsRiseAlong(w: World, ts: seq<Timed>, l: Lifetimes, u: Id)
    requires forall t | t in ts :: !(t.action.AddUser? && t.action.user == u)
    ensures NotBefore(RevisionOf(Play(w, ts, l).db, u), RevisionOf(w.db, u))
    decreases |ts|
  {
    if ts != [] {
      RevisionsRise(w, ts[0], l, u);
      RevisionsRiseAlong(Perform(w, ts[0], l), ts[1..], l, u);
    }
  }

  lemma {:induction false} PlaySplits(w: World, ts: seq<Timed>, k: nat, l: Lifetimes)
    requires k <= |ts|
    ensures Play(w, ts, l) == Play(Play(w, ts[..k], l), ts[k..], l)
    decreases |ts|
  {
    if k > 0 {
      PlaySplits(Perform(w, ts[0], l), ts[1..], k - 1, l);
      assert ts[..k][0] == ts[0] && ts[..k][1..] == ts[1..][..k - 1] && ts[1..][k - 1..] == ts[k..];
    } else {
      assert ts[..0] == [] && ts[0..] == ts;
    }
  }

  /**
   A login is admitted only if nothing was committed about its account since it began: at every point in
   between the account exists at the very revision the login read, and at the end it is active with the verified hash.
   */
  lemma StaleLoginRejected(w: World, ts: seq<Timed>, l: Lifetimes, f: Flight, k: nat)
    requires f.LoggingIn? && RevisionOf(w.db, f.user) == Some(f.revision) && k <= |ts|
    requires forall t | t in ts :: !(t.action.AddUser? && t.action.user == f.user)
    requires Admitted(Play(w, ts, l).db, f)
    ensures RevisionOf(Play(w, ts[..k], l).db, f.user) == Some(f.revision)
    ensures Verifies(f.password, Play(w, ts, l).db.users[f.user].hash)
  {
    PlaySplits(w, ts, k, l);
    RevisionsRiseAlong(w, ts[..k], l, f.user);
    RevisionsRiseAlong(Play(w, ts[..k], l), ts[k..], l, f.user);
  }
}
