/**
 * The objects behind sessions: the user and refresh-token repositories, the database session of a request, the
 * authentication service and the user service. Each operation is proved to be its step of `TokenRotation`.
 */
module AuthBackend {
  import opened Wrappers
  import opened TokenRotation

  /** What a request has written and not yet committed. */
  class Session {
    var revoked: set<Jti>
    var added: map<Jti, Token>
    var deactivated: set<UserId>

    constructor ()
      ensures Clean()
    {
      revoked, added, deactivated := {}, map[], {};
    }

    predicate Clean()
      reads this
    {
      revoked == {} && added == map[] && deactivated == {}
    }
  }

  class UserRepository {
    var active: map<UserId, bool>

    /** The visible part of a commit. */
    method Publish(session: Session)
      modifies this
      ensures active == map u | u in old(active) :: old(active)[u] && u !in session.deactivated
    {
      active := map u | u in active :: active[u] && u !in session.deactivated;
    }
  }

  class RefreshTokenRepository {
    var tokens: map<Jti, Token>

    method GetByJti(jti: Jti) returns (r: Option<Token>)
      ensures r == if jti in tokens then Some(tokens[jti]) else None
    {
      r := if jti in tokens then Some(tokens[jti]) else None;
    }

    method Create(session: Session, jti: Jti, token: Token, reachable: bool) returns (ok: bool)
      modifies session
      ensures ok == reachable
      ensures session.revoked == old(session.revoked) && session.deactivated == old(session.deactivated)
      ensures session.added == if ok then old(session.added)[jti := token] else old(session.added)
    {
      if reachable {
        session.added := session.added[jti := token];
      }
      ok := reachable;
    }

    /** One conditional UPDATE: true for the one session that finds the token unrevoked. */
    method AtomicRevokeByJti(session: Session, jti: Jti) returns (won: bool)
      modifies session
      ensures won <==> jti in tokens && !tokens[jti].revoked
      ensures session.revoked == if won then old(session.revoked) + {jti} else old(session.revoked)
      ensures session.added == old(session.added) && session.deactivated == old(session.deactivated)
    {
      won := jti in tokens && !tokens[jti].revoked;
      if won {
        session.revoked := session.revoked + {jti};
      }
    }

    /** Selects the user's live tokens and revokes each of them. */
    method RevokeAllForUser(session: Session, user: UserId, now: Time) returns (count: nat)
      modifies session
      ensures var selected := set j | j in tokens && tokens[j].user == user && !tokens[j].revoked
                                      && !Expired(tokens[j], now);
              session.revoked == old(session.revoked) + selected && count == |selected|
      ensures session.added == old(session.added) && session.deactivated == old(session.deactivated)
    {
      var selected := set j | j in tokens && tokens[j].user == user && !tokens[j].revoked && !Expired(tokens[j], now);
      var rest := selected;
      count := 0;
      while rest != {}
        invariant rest <= selected && count + |rest| == |selected|
        invariant session.revoked == old(session.revoked) + (selected - rest)
        invariant session.added == old(session.added) && session.deactivated == old(session.deactivated)
        decreases rest
      {
        var j :| j in rest;
        session.revoked := session.revoked + {j};
        rest := rest - {j};
        count := count + 1;
      }
    }

    /** The visible part of a commit. */
    method Publish(session: Session)
      modifies this
      ensures tokens == RevokeSet(old(tokens), session.revoked) + session.added
    {
      tokens := RevokeSet(tokens, session.revoked) + session.added;
    }
  }

  /** History that no object stores. */
  class Ledger {
    ghost var now: Time
    ghost var requests: map<RequestId, Request>
    ghost var origin: map<Jti, Origin>
    ghost var lineage: map<Jti, seq<Jti>>
    ghost var refreshed: seq<(Jti, Jti)>
  }

  ghost function Snapshot(users: UserRepository, tokens: RefreshTokenRepository, ledger: Ledger): State
    reads users, tokens, ledger
  {
    State(ledger.now, users.active, tokens.tokens, ledger.requests, ledger.origin, ledger.lineage, ledger.refreshed)
  }

  lemma RevokingNothing(tokens: map<Jti, Token>)
    ensures RevokeSet(tokens, {}) == tokens
  {
  }

  lemma RevokingOne(tokens: map<Jti, Token>, jti: Jti)
    requires jti in tokens
    ensures RevokeSet(tokens, {jti}) == tokens[jti := tokens[jti].(revoked := true)]
  {
  }

  class AuthService {
    const users: UserRepository
    const repo: RefreshTokenRepository
    const ledger: Ledger

    constructor (users: UserRepository, repo: RefreshTokenRepository, ledger: Ledger)
      ensures this.users == users && this.repo == repo && this.ledger == ledger
    {
      this.users, this.repo, this.ledger := users, repo, ledger;
    }

    ghost function Now(): State
      reads users, repo, ledger
    {
      Snapshot(users, repo, ledger)
    }

    /** The checks of a login whose password was verified. */
    method CheckLogin(ghost req: RequestId, user: UserId) returns (answer: Answer)
      modifies ledger
      ensures (Now(), answer) == TokenRotation.CheckLogin(old(Now()), req, user)
    {
      if user !in users.active || !users.active[user] {
        return InvalidCredentials;
      }
      ledger.requests := ledger.requests[req := LoggingIn(user)];
      answer := Done;
    }

    /** The insert of a login's token, and the commit of its session. */
    method FinishLogin(ghost req: RequestId, user: UserId, jti: Jti, expiresAt: Time, reachable: bool)
      returns (answer: Answer)
      requires req in ledger.requests && ledger.requests[req] == LoggingIn(user)
      modifies repo, ledger
      ensures (Now(), answer) == TokenRotation.FinishLogin(old(Now()), req, jti, expiresAt, reachable)
    {
      var session := new Session();
      ledger.requests := ledger.requests - {req};
      var created := repo.Create(session, jti, Token(user, false, expiresAt), reachable);
      if !created {
        return StoreFailed;
      }
      RevokingNothing(repo.tokens);
      repo.Publish(session);
      assert repo.tokens == old(repo.tokens)[jti := Token(user, false, expiresAt)];
      ledger.origin := ledger.origin[jti := Origin(jti, 0, None)];
      ledger.lineage := ledger.lineage[jti := [jti]];
      answer := Issued(jti);
    }

    /** A login that no other request interrupts. */
    method Login(req: RequestId, user: UserId, jti: Jti, expiresAt: Time, reachable: bool) returns (answer: Answer)
      requires req !in ledger.requests
      modifies repo, ledger
      ensures answer.Issued? <==> user in users.active && users.active[user] && reachable
      ensures repo.tokens ==
                if answer.Issued? then old(repo.tokens)[jti := Token(user, false, expiresAt)] else old(repo.tokens)
      ensures ledger.requests == old(ledger.requests)
    {
      answer := CheckLogin(req, user);
      if answer == Done {
        answer := FinishLogin(req, user, jti, expiresAt, reachable);
      }
    }

    method CheckUser(req: RequestId, c: Claims, now: Time) returns (answer: Answer)
      requires now == ledger.now
      modifies ledger
      ensures (Now(), answer) == TokenRotation.CheckUser(old(Now()), req, c)
    {
      if c.exp <= now {
        return TokenExpired;
      }
      if c.sub !in users.active || !users.active[c.sub] {
        return UserNotFound;
      }
      ledger.requests := ledger.requests[req := Refreshing(c.jti, c.sub, Checked)];
      answer := Done;
    }

    method ReadToken(ghost req: RequestId, jti: Jti) returns (answer: Answer)
      requires req in ledger.requests && ledger.requests[req].Refreshing? && ledger.requests[req].jti == jti
      modifies ledger
      ensures (Now(), answer) == TokenRotation.ReadToken(old(Now()), req)
    {
      var existing := repo.GetByJti(jti);
      if existing.None? {
        ledger.requests := ledger.requests - {req};
        return InvalidToken;
      }
      if existing.value.revoked {
        ledger.requests := ledger.requests - {req};
        return TokenRevoked;
      }
      ledger.requests := ledger.requests[req := ledger.requests[req].(stage := Read)];
      answer := Done;
    }

    /**
     * The compare-and-set, which here does not wait, and the insert, in one savepoint that a failed insert rolls
     * back. Nothing of it is visible yet.
     */
    method Flush(
      session: Session, ghost req: RequestId, jti: Jti, user: UserId, newJti: Jti, expiresAt: Time, reachable: bool)
      returns (answer: Answer)
      requires session.Clean() && !Locked(Now(), jti) && req in ledger.requests
      requires ledger.requests[req].Refreshing? && ledger.requests[req].jti == jti && ledger.requests[req].user == user
      modifies session, ledger
      ensures (Now(), answer) == TokenRotation.Flush(old(Now()), req, newJti, expiresAt, reachable)
      ensures answer == Done ==>
                && session.revoked == {jti} && session.added == map[newJti := Token(user, false, expiresAt)]
                && session.deactivated == {}
      ensures answer != Done ==> session.Clean()
    {
      var won := repo.AtomicRevokeByJti(session, jti);
      if !won {
        ledger.requests := ledger.requests - {req};
        return TokenAlreadyRotated;
      }
      var created := repo.Create(session, newJti, Token(user, false, expiresAt), reachable);
      if !created {
        session.revoked, session.added := {}, map[];
        ledger.requests := ledger.requests - {req};
        return StoreFailed;
      }
      ledger.requests := ledger.requests[req := ledger.requests[req].(stage := Flushed(newJti, expiresAt))];
      answer := Done;
    }

    /** The commit of a written rotation. */
    method Rotate(session: Session, ghost req: RequestId, jti: Jti, newJti: Jti) returns (answer: Answer)
      requires req in ledger.requests && ledger.requests[req].Refreshing? && ledger.requests[req].jti == jti
      requires ledger.requests[req].stage.Flushed? && ledger.requests[req].stage.newJti == newJti
      requires jti in repo.tokens && session.revoked == {jti} && session.deactivated == {}
      requires var r := ledger.requests[req];
               session.added == map[newJti := Token(r.user, false, r.stage.newExpiry)]
      modifies repo, ledger
      ensures (Now(), answer) == TokenRotation.Rotate(old(Now()), req)
    {
      ghost var root := if jti in ledger.origin then ledger.origin[jti].root else jti;
      ghost var issued := if root in ledger.lineage then ledger.lineage[root] else [];
      ghost var r, before := ledger.requests[req], repo.tokens;
      RevokingOne(repo.tokens, jti);
      repo.Publish(session);
      assert repo.tokens == before[jti := before[jti].(revoked := true)][newJti :=
                                     Token(r.user, false, r.stage.newExpiry)];
      ledger.requests := ledger.requests - {req};
      ledger.origin := ledger.origin[newJti := Origin(root, |issued|, Some(jti))];
      ledger.lineage := ledger.lineage[root := issued + [newJti]];
      ledger.refreshed := ledger.refreshed + [(jti, newJti)];
      answer := Issued(newJti);
    }

    /** A refresh that no other request interrupts. */
    method Refresh(req: RequestId, c: Claims, newJti: Jti, expiresAt: Time, reachable: bool, now: Time)
      returns (answer: Answer)
      requires req !in ledger.requests && now == ledger.now && Genuine(Now(), c) && FreshJti(Now(), newJti)
      requires newJti != c.jti && !Locked(Now(), c.jti)
      modifies repo, ledger
      ensures answer.Issued? <==>
                && c.exp > now && c.sub in users.active && users.active[c.sub] && reachable
                && c.jti in old(repo.tokens) && !old(repo.tokens)[c.jti].revoked
      ensures answer.Issued? ==>
                && answer.jti == newJti
                && repo.tokens == old(repo.tokens)[c.jti := old(repo.tokens)[c.jti].(revoked := true)]
                                                  [newJti := Token(c.sub, false, expiresAt)]
      ensures !answer.Issued? ==> repo.tokens == old(repo.tokens)
    {
      answer := CheckUser(req, c, now);
      if answer != Done {
        return;
      }
      answer := ReadToken(req, c.jti);
      if answer != Done {
        return;
      }
      var session := new Session();
      assert !Locked(Now(), c.jti) by {
        forall q | q in ledger.requests ensures !Locks(ledger.requests[q], c.jti) {
          assert q != req ==> q in old(ledger.requests) && ledger.requests[q] == old(ledger.requests)[q];
        }
      }
      answer := Flush(session, req, c.jti, c.sub, newJti, expiresAt, reachable);
      if answer != Done {
        return;
      }
      answer := Rotate(session, req, c.jti, newJti);
    }

    method Logout(c: Claims, now: Time) returns (answer: Answer)
      requires now == ledger.now && !Locked(Now(), c.jti)
      modifies repo
      ensures (Now(), answer) == TokenRotation.Logout(old(Now()), c)
    {
      answer := Done;
      if c.exp <= now {
        return;
      }
      var stored := repo.GetByJti(c.jti);
      if stored.Some? {
        var session := new Session();
        var won := repo.AtomicRevokeByJti(session, c.jti);
        RevokingNothing(repo.tokens);
        RevokingOne(repo.tokens, c.jti);
        repo.Publish(session);
        assert repo.tokens == old(repo.tokens)[c.jti := old(repo.tokens)[c.jti].(revoked := true)];
      }
    }

    /** A logout of all devices up to its commit. */
    method SelectForLogout(session: Session, ghost req: RequestId, user: UserId, now: Time) returns (answer: Answer)
      requires session.Clean() && now == ledger.now
      modifies session, ledger
      ensures (Now(), answer) == Select(old(Now()), req, user, false)
      ensures session.revoked == LiveTokens(old(Now()), user) && session.added == map[] && session.deactivated == {}
    {
      var _ := repo.RevokeAllForUser(session, user, now);
      ledger.requests := ledger.requests[req := Revoking(user, session.revoked, false)];
      answer := Done;
    }

    /** The commit of a logout of all devices, once the database has let its updates through. */
    method LogoutAll(session: Session, ghost req: RequestId) returns (answer: Answer)
      requires Enabled(Now(), RevokeStep(req)) && !ledger.requests[req].deactivates
      requires session.revoked == ledger.requests[req].selected && session.added == map[] && session.deactivated == {}
      modifies repo, ledger
      ensures (Now(), answer) == RevokeSelected(old(Now()), req)
    {
      repo.Publish(session);
      assert repo.tokens == RevokeSet(old(repo.tokens), session.revoked);
      ledger.requests := ledger.requests - {req};
      answer := Done;
    }
  }

  class UserService {
    const users: UserRepository
    const repo: RefreshTokenRepository
    const ledger: Ledger

    constructor (users: UserRepository, repo: RefreshTokenRepository, ledger: Ledger)
      ensures this.users == users && this.repo == repo && this.ledger == ledger
    {
      this.users, this.repo, this.ledger := users, repo, ledger;
    }

    ghost function Now(): State
      reads users, repo, ledger
    {
      Snapshot(users, repo, ledger)
    }

    /** A deactivation up to its commit: the user's row and then the selected tokens are updated in the session. */
    method DeactivateUser(session: Session, ghost req: RequestId, user: UserId, now: Time) returns (answer: Answer)
      requires session.Clean() && now == ledger.now
      modifies session, ledger
      ensures (Now(), answer) == Select(old(Now()), req, user, true)
      ensures answer == Done ==>
                && session.deactivated == {user} && session.revoked == LiveTokens(old(Now()), user)
                && session.added == map[]
      ensures answer != Done ==> session.Clean()
    {
      if user !in users.active || !users.active[user] {
        return UserNotFound;
      }
      session.deactivated := {user};
      var _ := repo.RevokeAllForUser(session, user, now);
      ledger.requests := ledger.requests[req := Revoking(user, session.revoked, true)];
      answer := Done;
    }

    /** The commit of a deactivation, once the database has let its updates through. */
    method CommitDeactivation(session: Session, ghost req: RequestId, user: UserId) returns (answer: Answer)
      requires Enabled(Now(), RevokeStep(req)) && ledger.requests[req].deactivates
      requires ledger.requests[req].user == user && user in users.active
      requires session.revoked == ledger.requests[req].selected && session.added == map[]
      requires session.deactivated == {user}
      modifies users, repo, ledger
      ensures (Now(), answer) == RevokeSelected(old(Now()), req)
    {
      users.Publish(session);
      repo.Publish(session);
      ledger.requests := ledger.requests - {req};
      answer := Done;
      assert users.active == old(users.active)[user := false];
      assert repo.tokens == RevokeSet(old(repo.tokens), session.revoked);
    }
  }
}
