/** The authentication tables as an object whose transactions insert, update and delete rows. */
module AuthStore {
  import opened Common
  import opened Texts
  import A = Auth
  import opened Auth
  import opened AuthEffects

  class Store {
    var users: map<Id, User>
    var sessions: seq<Session>
    const lifetimes: Lifetimes

    constructor (lifetimes: Lifetimes)
      ensures users == map[] && sessions == [] && this.lifetimes == lifetimes
      ensures Inv(Database(users, sessions), lifetimes)
    {
      users, sessions, this.lifetimes := map[], [], lifetimes;
    }

    function Rows(): Database
      reads this
    {
      Database(users, sessions)
    }

    method DeleteSessions(drop: Session -> bool)
      modifies this`sessions
      ensures sessions == DeleteWhere(old(sessions), drop)
    {
      var kept: seq<Session> := [];
      for i := 0 to |sessions|
        invariant sessions == old(sessions) && kept == DeleteWhere(sessions[..i], drop)
      {
        assert sessions[..i + 1][..i] == sessions[..i];
        if !drop(sessions[i]) { kept := kept + [sessions[i]]; }
      }
      assert sessions[..|sessions|] == sessions;
      sessions := kept;
    }

    method CreateSession(user: Id, id: Id, token: nat, proof: Option<Proof>, now: int)
      requires Inv(Rows(), lifetimes) && (proof.Some? ==> ProofStands(Rows(), user, proof.value))
      modifies this`sessions
      ensures Rows() == A.CreateSession(old(Rows()), user, id, token, proof, now, lifetimes)
      ensures Inv(Rows(), lifetimes)
    {
      CreateKeeps(Rows(), user, id, token, proof, now, lifetimes);
      var idle, absolute := lifetimes.idle, lifetimes.absolute;
      var l := lifetimes;
      DeleteSessions((s: Session) => Expired(s, now, l));
      sessions := KeepNewest(sessions, user, |sessions|);
      sessions := sessions + [Session(id, token, user, now, now, now + absolute, proof)];
    }

    method GetSession(token: nat, touch: bool, now: int) returns (session: Option<Session>)
      requires Inv(Rows(), lifetimes)
      modifies this`sessions
      ensures (Rows(), session) == A.GetSession(old(Rows()), token, touch, now, lifetimes)
      ensures Inv(Rows(), lifetimes)
    {
      GetKeeps(Rows(), token, touch, now, lifetimes);
      var k := FindToken(sessions, token);
      if k.None? { return None; }
      var row := sessions[k.value];
      if row.user !in users { return None; }
      if !users[row.user].active || Expired(row, now, lifetimes) {
        DeleteSessions((x: Session) => x.id == row.id);
        return None;
      }
      if touch {
        row := row.(lastActiveAt := now);
        sessions := sessions[k.value := row];
      }
      session := Some(row);
    }

    /** The transaction that ends a login: nothing at all unless the fence still holds. */
    method CommitLogin(f: Flight, previousToken: Option<nat>, id: Id, token: nat, now: int) returns (admitted: bool)
      requires Inv(Rows(), lifetimes)
      modifies this`sessions
      ensures Rows() == CommitLoginIn(old(Rows()), f, previousToken, id, token, now, lifetimes)
      ensures admitted == Admitted(old(Rows()), f) && Inv(Rows(), lifetimes)
    {
      LoginKeeps(Rows(), f, previousToken, id, token, now, lifetimes);
      if !f.LoggingIn? || f.user !in users { return false; }
      var current := users[f.user];
      if !Verifies(f.password, f.expected) || !current.active || current.hash != f.expected
          || current.revision != f.revision {
        return false;
      }
      admitted := true;
      if previousToken.Some? {
        var previous := previousToken.value;
        DeleteKeeps(Rows(), (s: Session) => s.token == previous, lifetimes);
        DeleteSessions((s: Session) => s.token == previous);
        assert sessions == DeleteWhere(old(sessions), (s: Session) => s.token == previousToken.value);
      }
      if !current.mfa { CreateSession(f.user, id, token, Some(Proof(f.password, f.expected)), now); }
    }

    /** The transaction that ends a password change; a failed fence rolls back what getSession deleted. */
    method CommitChange(f: Flight, now: int) returns (changed: bool)
      requires Inv(Rows(), lifetimes)
      modifies this
      ensures Rows() == CommitChangeIn(old(Rows()), f, now, lifetimes) && Inv(Rows(), lifetimes)
      ensures changed == ChangeStands(old(Rows()), f, now, lifetimes)
      ensures if changed then Replaced(old(Rows()), Rows(), f.user, f.encoded) else Rows() == old(Rows())
    {
      ChangeKeeps(Rows(), f, now, lifetimes);
      ChangeReplaces(Rows(), f, now, lifetimes);
      if !f.Changing? || !f.verified { return false; }
      var before := sessions;
      var session := GetSession(f.token, false, now);
      if session.None? || f.user !in users || users[f.user].hash != f.expected {
        sessions := before;
        return false;
      }
      users := users[f.user := users[f.user].(hash := f.encoded)];
      var user := f.user;
      DeleteSessions((s: Session) => s.user == user);
      assert sessions == DeleteUserSessions(A.GetSession(old(Rows()), f.token, false, now, lifetimes).0,
                                            f.user).sessions;
      changed := true;
    }
  }
}
