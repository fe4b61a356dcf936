/**
 What a password change, a reset and a login do: stated of the tables they leave and of what a later
 login is told.
 */
module AuthEffects {
  import opened Common
  import opened Texts
  import opened Auth

  // ---- changing and resetting a password -------------------------------------

  /**
   The account's hash is the new one and nothing else of any account changes; of its sessions none
   is left, of others all.
   */
  ghost predicate Replaced(db: Database, n: Database, user: Id, hash: Hash) {
    && user in db.users && n.users.Keys == db.users.Keys
    && n.users[user] == User(db.users[user].name, hash, db.users[user].active, db.users[user].mfa,
                             db.users[user].revision)
    && (forall u | u in db.users && u != user :: n.users[u] == db.users[u])
    && (forall s :: s in n.sessions <==> s in db.sessions && s.user != user)
  }

  /** What the fence of a change asks: a live session, and the hash that was verified. */
  predicate ChangeStands(db: Database, f: Flight, now: int, l: Lifetimes) {
    && f.Changing? && f.verified && GetSession(db, f.token, false, now, l).1.Some?
    && f.user in db.users && db.users[f.user].hash == f.expected
  }

  /** A change is accepted exactly when it stands, and then replaces the password; otherwise it does nothing. */
  lemma ChangeReplaces(db: Database, f: Flight, now: int, l: Lifetimes)
    ensures var n := CommitChangeIn(db, f, now, l);
      if ChangeStands(db, f, now, l) then Replaced(db, n, f.user, f.encoded) else n == db
  {
  }

  /** A reset replaces the password of the active account of that name, and does nothing without one. */
  lemma ResetReplaces(w: World, name: Text, encoded: Hash, now: int, l: Lifetimes)
    ensures var n := Perform(w, Timed(ResetPassword(name, encoded), now), l);
      if HasName(w.db, name) && w.db.users[UserNamed(w.db, name)].active
      then Replaced(w.db, n.db, UserNamed(w.db, name), encoded) && n.flights == w.flights
      else n == w
  {
  }

  // ---- the next login --------------------------------------------------------

  /** The call a login of this name and password begins. */
  ghost function Begun(w: World, name: Text, password: Text): Flight
    requires HasName(w.db, name)
  {
    var u := UserNamed(w.db, name);
    LoggingIn(u, w.db.users[u].hash, w.db.users[u].revision, password)
  }

  lemma BeginsSo(w: World, name: Text, password: Text, now: int, l: Lifetimes)
    requires HasName(w.db, name)
    ensures var n := Perform(w, Timed(BeginLogin(name, password), now), l);
      n.db == w.db && n.flights == w.flights + [Begun(w, name, password)]
  {
  }

  /**
   A login is only ever admitted with a password the hash it began with accepts; and it is admitted with
   such a password to an active account if its row still stands when it commits, whatever else happened.
   */
  lemma LoginAnswered(w: World, name: Text, password: Text, ts: seq<Timed>, now: int, l: Lifetimes)
    requires HasName(w.db, name)
    ensures var u := UserNamed(w.db, name);
      var n := Play(Perform(w, Timed(BeginLogin(name, password), now), l), ts, l);
      && (Admitted(n.db, Begun(w, name, password)) ==> Verifies(password, w.db.users[u].hash))
      && (u in n.db.users && n.db.users[u] == w.db.users[u] ==>
            (Admitted(n.db, Begun(w, name, password)) <==>
             Verifies(password, w.db.users[u].hash) && w.db.users[u].active))
  {
  }

  /** After an accepted change or a reset, a login of that account is answered by the new hash. */
  ghost predicate AnsweredBy(w: World, user: Id, hash: Hash, l: Lifetimes) {
    forall name, password, ts, now | HasName(w.db, name) && UserNamed(w.db, name) == user ::
      LoginsFollow(w, user, hash, name, password, ts, now, l)
  }

  ghost predicate LoginsFollow(w: World, user: Id, hash: Hash, name: Text, password: Text, ts: seq<Timed>, now: int,
                               l: Lifetimes)
    requires HasName(w.db, name) && UserNamed(w.db, name) == user
  {
    var n := Play(Perform(w, Timed(BeginLogin(name, password), now), l), ts, l);
    && (Admitted(n.db, Begun(w, name, password)) ==> Verifies(password, hash))
    && (user in n.db.users && n.db.users[user] == w.db.users[user] ==>
          (Admitted(n.db, Begun(w, name, password)) <==> Verifies(password, hash) && w.db.users[user].active))
  }

  lemma StoredHashAnswers(w: World, user: Id, l: Lifetimes)
    requires user in w.db.users
    ensures AnsweredBy(w, user, w.db.users[user].hash, l)
  {
    forall name, password, ts, now | HasName(w.db, name) && UserNamed(w.db, name) == user
      ensures LoginsFollow(w, user, w.db.users[user].hash, name, password, ts, now, l)
    {
      LoginAnswered(w, name, password, ts, now, l);
    }
  }

  /** An accepted change: from then on the new password logs in and no other does. */
  lemma ChangeTakesEffect(w: World, i: nat, now: int, l: Lifetimes)
    requires i < |w.flights| && ChangeStands(w.db, w.flights[i], now, l)
    ensures var n := Perform(w, Timed(CommitChange(i), now), l);
      Replaced(w.db, n.db, w.flights[i].user, w.flights[i].encoded)
      && AnsweredBy(n, w.flights[i].user, w.flights[i].encoded, l)
  {
    ChangeReplaces(w.db, w.flights[i], now, l);
    StoredHashAnswers(Perform(w, Timed(CommitChange(i), now), l), w.flights[i].user, l);
  }

  lemma ResetTakesEffect(w: World, name: Text, encoded: Hash, now: int, l: Lifetimes)
    requires HasName(w.db, name) && w.db.users[UserNamed(w.db, name)].active
    ensures var n := Perform(w, Timed(ResetPassword(name, encoded), now), l);
      Replaced(w.db, n.db, UserNamed(w.db, name), encoded) && AnsweredBy(n, UserNamed(w.db, name), encoded, l)
  {
    ResetReplaces(w, name, encoded, now, l);
    StoredHashAnswers(Perform(w, Timed(ResetPassword(name, encoded), now), l), UserNamed(w.db, name), l);
  }

  /** A login begun before the change is refused after it, unless the new hash is the old one. */
  lemma EarlierLoginsRefused(w: World, i: nat, now: int, l: Lifetimes, f: Flight)
    requires i < |w.flights| && ChangeStands(w.db, w.flights[i], now, l)
    requires f.LoggingIn? && f.user == w.flights[i].user && f.expected != w.flights[i].encoded
    ensures !Admitted(Perform(w, Timed(CommitChange(i), now), l).db, f)
  {
    ChangeReplaces(w.db, w.flights[i], now, l);
  }

  // ---- the session a login mints ---------------------------------------------

  lemma {:induction false} FindsLast(ss: seq<Session>, s: Session)
    requires forall x | x in ss :: x.token != s.token
    ensures FindToken(ss + [s], s.token) == Some(|ss|)
  {
    if ss == [] {
      assert ss + [s] == [s];
    } else {
      assert (ss + [s])[0] == ss[0] && (ss + [s])[1..] == ss[1..] + [s];
      assert ss[0] in ss;
      FindsLast(ss[1..], s);
    }
  }

  /**
   A round trip: with a fresh token, an admitted login without a second factor leaves a session that
   getSession returns for that token, the account's own, dated now; the session it replaces is gone.
   */
  lemma LoginMints(db: Database, f: Flight, previousToken: Option<nat>, id: Id, token: nat, now: int, l: Lifetimes)
    requires Admitted(db, f) && !db.users[f.user].mfa && l.idle > 0 && l.absolute > 0
    requires forall s | s in db.sessions :: s.token != token
    ensures var n := CommitLoginIn(db, f, previousToken, id, token, now, l);
      var r := GetSession(n, token, false, now, l);
      && n.users == db.users && r.0 == n && r.1.Some?
      && r.1.value.id == id && r.1.value.user == f.user && r.1.value.createdAt == now && r.1.value.lastActiveAt == now
      && r.1.value.expiresAt == now + l.absolute && r.1.value.proof == Some(Proof(f.password, f.expected))
      && (previousToken.Some? ==> forall s | s in n.sessions :: s.token != previousToken.value || s.token == token)
  {
    var rotated := if previousToken.Some?
      then db.(sessions := DeleteWhere(db.sessions, (s: Session) => s.token == previousToken.value)) else db;
    var live := DeleteWhere(rotated.sessions, (s: Session) => Expired(s, now, l));
    KeptMembers(live, f.user, |live|);
    var kept := KeepNewest(live, f.user, |live|);
    var minted := Session(id, token, f.user, now, now, now + l.absolute, Some(Proof(f.password, f.expected)));
    forall s | s in kept ensures s in db.sessions && (s in rotated.sessions) {}
    MintedFound(db.users, kept, minted, now, l);
  }

  lemma MintedFound(users: map<Id, User>, kept: seq<Session>, s: Session, now: int, l: Lifetimes)
    requires (forall x | x in kept :: x.token != s.token) && s.user in users && users[s.user].active
    requires !Expired(s, now, l)
    ensures var n := Database(users, kept + [s]); GetSession(n, s.token, false, now, l) == (n, Some(s))
  {
    FindsLast(kept, s);
  }

  // ---- sessions that stay and sessions that end -------------------------------

  lemma {:induction false} FindsToken(ss: seq<Session>, k: nat)
    requires k < |ss| && forall i | 0 <= i < k :: ss[i].token != ss[k].token
    ensures FindToken(ss, ss[k].token) == Some(k)
  {
    if k > 0 { FindsToken(ss[1..], k - 1); }
  }

  predicate TokensDistinct(ss: seq<Session>) { forall i, j | 0 <= i < j < |ss| :: ss[i].token != ss[j].token }

  /** A touched session of an active account is then returned exactly until the idle time from the touch or its end. */
  lemma TouchRenews(db: Database, k: nat, now: int, later: int, l: Lifetimes)
    requires k < |db.sessions| && TokensDistinct(db.sessions)
    requires GetSession(db, db.sessions[k].token, true, now, l).1.Some?
    ensures var s := db.sessions[k];
      var n := GetSession(db, s.token, true, now, l).0;
      && n.users == db.users && |n.sessions| == |db.sessions|
      && (forall i | 0 <= i < |db.sessions| && i != k :: n.sessions[i] == db.sessions[i])
      && (GetSession(n, s.token, false, later, l).1.Some? <==> later < s.expiresAt && later < now + l.idle)
  {
    FindsToken(db.sessions, k);
    FindsToken(GetSession(db, db.sessions[k].token, true, now, l).0.sessions, k);
  }

  /** What an administrator's update leaves: the row given, under the next revision, and none of its sessions. */
  lemma UpdateTakesEffect(w: World, user: Id, name: Text, hash: Hash, active: bool, now: int, l: Lifetimes, f: Flight)
    requires user in w.db.users && f.LoggingIn? && f.user == user && f.revision <= w.db.users[user].revision
    ensures var n := Perform(w, Timed(UpdateUser(user, name, Some(hash), active), now), l);
      && n.db.users == w.db.users[user := User(name, hash, active, w.db.users[user].mfa, w.db.users[user].revision + 1)]
      && (forall s :: s in n.db.sessions <==> s in w.db.sessions && s.user != user)
      && AnsweredBy(n, user, hash, l) && !Admitted(n.db, f)
  {
    StoredHashAnswers(Perform(w, Timed(UpdateUser(user, name, Some(hash), active), now), l), user, l);
  }

  /** Revoking all of one's sessions, while one's own is live, ends exactly those. */
  lemma RevocationEnds(w: World, token: nat, now: int, l: Lifetimes)
    requires GetSession(w.db, token, false, now, l).1.Some?
    ensures var own := GetSession(w.db, token, false, now, l).1.value.user;
      var n := Perform(w, Timed(RevokeAll(token), now), l);
      n.db.users == w.db.users && forall s :: s in n.db.sessions <==> s in w.db.sessions && s.user != own
  {
  }

  /** Revoking one session ends it if it is one's own, and nobody else's with it. */
  lemma RevocationOfOne(w: World, token: nat, id: Id, now: int, l: Lifetimes)
    requires GetSession(w.db, token, false, now, l).1.Some?
    ensures var own := GetSession(w.db, token, false, now, l).1.value.user;
      var n := Perform(w, Timed(RevokeSession(token, id), now), l);
      n.db.users == w.db.users
      && forall s :: s in n.db.sessions <==> s in w.db.sessions && !(s.user == own && s.id == id)
  {
  }

  // ---- which sessions are trimmed --------------------------------------------

  lemma {:induction false} KeptIff(ss: seq<Session>, user: Id, upTo: nat)
    requires upTo <= |ss|
    ensures forall s :: s in KeepNewest(ss, user, upTo) <==>
      exists i :: 0 <= i < upTo && ss[i] == s && (s.user != user || |Beaters(ss, i)| < MAX_OLD_SESSIONS)
  {
    if upTo > 0 { KeptIff(ss, user, upTo - 1); }
  }

  /** Where a session is trimmed, nine at least as new ones of its user survive. */
  lemma {:induction false} NineSurvive(ss: seq<Session>, user: Id, d: nat)
    requires d < |ss| && ss[d].user == user && |Beaters(ss, d)| >= MAX_OLD_SESSIONS
    ensures |KeptPlaces(ss, user, |ss|)| >= MAX_OLD_SESSIONS
    decreases |Beaters(ss, d)|
  {
    if e: nat :| e in Beaters(ss, d) && |Beaters(ss, e)| >= MAX_OLD_SESSIONS {
      RanksDiffer(ss, e, d);
      NineSurvive(ss, user, e);
    } else {
      assert Beaters(ss, d) <= KeptPlaces(ss, user, |ss|);
      SubsetSize(Beaters(ss, d), KeptPlaces(ss, user, |ss|));
    }
  }

  /** One place kept and one trimmed: the kept session is at least as new. */
  lemma KeptBeatsTrimmed(ss: seq<Session>, i: nat, d: nat)
    requires i < |ss| && d < |ss| && ss[i].user == ss[d].user
    requires |Beaters(ss, i)| < MAX_OLD_SESSIONS <= |Beaters(ss, d)|
    ensures ss[i].createdAt >= ss[d].createdAt
  {
    if Beats(ss, d, i) { RanksDiffer(ss, d, i); }
  }

  /**
   Trimming before a new session: other users' sessions all stay; a user's session goes only if exactly nine
   of that user's stay, each at least as new.
   */
  lemma TrimKeepsNewest(ss: seq<Session>, user: Id, gone: Session)
    requires gone in ss && gone !in KeepNewest(ss, user, |ss|)
    ensures gone.user == user && Of(KeepNewest(ss, user, |ss|), user) == MAX_OLD_SESSIONS
    ensures forall s | s in KeepNewest(ss, user, |ss|) && s.user == user :: s.createdAt >= gone.createdAt
  {
    KeptIff(ss, user, |ss|);
    var d :| 0 <= d < |ss| && ss[d] == gone;
    NineSurvive(ss, user, d);
    KeptCount(ss, user, |ss|);
    TrimmedToNine(ss, user);
    forall s | s in KeepNewest(ss, user, |ss|) && s.user == user ensures s.createdAt >= gone.createdAt {
      var i :| 0 <= i < |ss| && ss[i] == s && (s.user != user || |Beaters(ss, i)| < MAX_OLD_SESSIONS);
      KeptBeatsTrimmed(ss, i, d);
    }
  }
}
