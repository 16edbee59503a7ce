/**
 * Properties that relate several requests to one another: registration
 * enables login, refresh-token rotation defeats replay, a password reset
 * revokes every session of the user, logout is idempotent, and the two
 * anti-enumeration guarantees.
 */
module AuthProperties {
  import opened Wrappers
  import opened Crypto
  import opened Stores
  import opened AuthFlows

  /** After a successful registration the same credentials log in, as the
      new user. */
  lemma LoginAfterRegister(st: Store, cfg: Config, email: string, password: string,
                           registeredMs: nat, token0: string, loginMs: nat, token1: string)
    requires Valid(st) && !EmailInUse(st.users, email)
    ensures var registered := Register(st, cfg, email, password, registeredMs, token0).next;
            Login(registered, cfg, email, password, loginMs, token1).out.response == Send(200, UserJson(st.nextUserId))
  {
    var registered := Register(st, cfg, email, password, registeredMs, token0).next;
    var uid := st.nextUserId;
    assert registered.users[uid] == User(email, None, Hash(password));
    assert CredentialsMatch(registered.users, email, password) by {
      assert uid in registered.users && registered.users[uid].email == email;
    }
  }

  /** A second registration of the same email is refused and changes nothing. */
  lemma RegisterTwiceConflicts(st: Store, cfg: Config, email: string, password: string, again: string,
                               firstMs: nat, token0: string, secondMs: nat, token1: string)
    requires !EmailInUse(st.users, email)
    ensures var registered := Register(st, cfg, email, password, firstMs, token0).next;
            Register(registered, cfg, email, again, secondMs, token1) == Transition(registered, Failure(400, "Email in use"))
  {
    var registered := Register(st, cfg, email, password, firstMs, token0).next;
    assert st.nextUserId in registered.users && registered.users[st.nextUserId].email == email;
  }

  /** Login with an email nobody registered and login with a known email but
      the wrong password are indistinguishable, and neither changes the store. */
  lemma LoginFailuresIndistinguishable(st: Store, cfg: Config, unknown: string, anyPassword: string,
                                       known: string, wrongPassword: string,
                                       nowMs: nat, laterMs: nat, token0: string, token1: string)
    requires Valid(st)
    requires !EmailInUse(st.users, unknown)
    requires EmailInUse(st.users, known) && !CredentialsMatch(st.users, known, wrongPassword)
    ensures Login(st, cfg, unknown, anyPassword, nowMs, token0) == Login(st, cfg, known, wrongPassword, laterMs, token1)
    ensures Login(st, cfg, unknown, anyPassword, nowMs, token0) == Transition(st, Failure(401, "Invalid credentials"))
  {
  }

  /** Refresh-token rotation: once a (sessionId, refreshToken) pair has been
      used to refresh, presenting it again is refused, at any later time. */
  lemma RefreshReplayRejected(st: Store, cfg: Config, sessionId: SessionId, refreshToken: string,
                              nowMs: nat, newToken: string, laterMs: nat, newToken2: string)
    requires Valid(st)
    requires Refresh(st, cfg, Some(sessionId), Some(refreshToken), nowMs, newToken).out.response.Send?
    ensures var rotated := Refresh(st, cfg, Some(sessionId), Some(refreshToken), nowMs, newToken).next;
            Refresh(rotated, cfg, Some(sessionId), Some(refreshToken), laterMs, newToken2) == Transition(rotated, Failure(401, "Session not found"))
  {
    var rotated := Refresh(st, cfg, Some(sessionId), Some(refreshToken), nowMs, newToken).next;
    assert sessionId !in rotated.sessions;
  }

  /** The session issued by a refresh can itself be refreshed until it expires. */
  lemma RotatedSessionRefreshes(st: Store, cfg: Config, sessionId: SessionId, refreshToken: string,
                                nowMs: nat, newToken: string, laterMs: nat, newToken2: string)
    requires Refresh(st, cfg, Some(sessionId), Some(refreshToken), nowMs, newToken).out.response.Send?
    requires laterMs <= nowMs + cfg.refreshTtl
    ensures var rotated := Refresh(st, cfg, Some(sessionId), Some(refreshToken), nowMs, newToken).next;
            Refresh(rotated, cfg, Some(st.nextSessionId), Some(newToken), laterMs, newToken2).out.response == Send(200, Message("Session refreshed"))
  {
  }

  /** After a successful password reset, every session the user had before
      fails to refresh; the sessions of every other user are untouched. */
  lemma ResetRevokesEverySession(st: Store, cfg: Config, token: Jwt, password: string, nowMs: nat,
                                 sessionId: SessionId, laterMs: nat, newToken: string)
    requires ResetPassword(st, cfg, token, password, nowMs).out.response.Send?
    requires sessionId in st.sessions && st.sessions[sessionId].userId == token.claims.sub
    ensures var reset := ResetPassword(st, cfg, token, password, nowMs).next;
            var presented := Some(st.sessions[sessionId].refreshToken);
            Refresh(reset, cfg, Some(sessionId), presented, laterMs, newToken) == Transition(reset, Failure(401, "Session not found"))
    ensures var reset := ResetPassword(st, cfg, token, password, nowMs).next;
            forall s :: s in st.sessions && st.sessions[s].userId != token.claims.sub ==>
              s in reset.sessions && reset.sessions[s] == st.sessions[s]
  {
    var reset := ResetPassword(st, cfg, token, password, nowMs).next;
    assert sessionId !in SessionsOf(reset.sessions, token.claims.sub);
  }

  /** Logout is idempotent: a second logout with the same cookie changes
      nothing and answers the same. */
  lemma LogoutIdempotent(st: Store, sessionCookie: Option<SessionId>)
    ensures var first := Logout(st, sessionCookie);
            Logout(first.next, sessionCookie) == first
  {
    var first := Logout(st, sessionCookie);
    assert first.next.sessions == Logout(first.next, sessionCookie).next.sessions;
  }

  /** Requesting a reset for an unknown email answers exactly as a reset
      whose mail was sent; only the latter hands a mail to the mailer. */
  lemma ResetRequestIndistinguishable(st: Store, cfg: Config, unknown: string, known: string,
                                      nowMs: nat, laterMs: nat, templateLoads: bool, mailerAccepts: bool)
    requires !EmailInUse(st.users, unknown) && EmailInUse(st.users, known)
    ensures var probe := RequestResetEmail(st, cfg, unknown, nowMs, templateLoads, mailerAccepts);
            var genuine := RequestResetEmail(st, cfg, known, laterMs, true, true);
            && probe.out.response == genuine.out.response
            && probe.out.cookies == genuine.out.cookies
            && probe.next == genuine.next
            && probe.out.mail.None? && genuine.out.mail.Some?
  {
  }

  /** The token in a reset mail resets that user's password, and only that
      user's, for as long as it is less than 15 minutes old. */
  lemma MailedTokenResetsPassword(st: Store, cfg: Config, email: string, sentMs: nat, usedMs: nat, newPassword: string)
    requires Valid(st)
    requires RequestResetEmail(st, cfg, email, sentMs, true, true).out.mail.Some?
    requires Seconds(usedMs) < Seconds(sentMs) + RESET_TOKEN_LIFETIME
    ensures var uid := FindUserByEmail(st.users, email).value;
            var m := RequestResetEmail(st, cfg, email, sentMs, true, true).out.mail.value;
            var reset := ResetPassword(st, cfg, m.html.link.token, newPassword, usedMs);
            && reset.out.response == Send(200, Message("Password reset successfully"))
            && reset.next.users == st.users[uid := st.users[uid].(password := Hash(newPassword))]
  {
    var uid := FindUserByEmail(st.users, email).value;
    var token := IssueResetToken(cfg.jwtSecret, uid, st.users[uid].email, sentMs);
    ResetTokenRoundTrip(cfg.jwtSecret, uid, st.users[uid].email, sentMs, usedMs);
    assert TokenHolder(st.users, token.claims);
  }

  /** The same token, used once its 15 minutes are over, is refused and
      changes nothing. */
  lemma ExpiredResetTokenRejected(st: Store, cfg: Config, email: string, sentMs: nat, usedMs: nat, newPassword: string)
    requires RequestResetEmail(st, cfg, email, sentMs, true, true).out.mail.Some?
    requires Seconds(usedMs) >= Seconds(sentMs) + RESET_TOKEN_LIFETIME
    ensures var m := RequestResetEmail(st, cfg, email, sentMs, true, true).out.mail.value;
            ResetPassword(st, cfg, m.html.link.token, newPassword, usedMs) == Transition(st, Failure(401, "Invalid or expired token"))
  {
    var uid := FindUserByEmail(st.users, email).value;
    ResetTokenRoundTrip(cfg.jwtSecret, uid, st.users[uid].email, sentMs, usedMs);
  }

  /** The end-to-end session life cycle: register, log in (replacing the
      registration session), refresh (the old pair then fails), log out (the
      refreshed pair then fails). */
  lemma SessionLifeCycle(st: Store, cfg: Config, email: string, password: string,
                         t1: nat, r1: string, t2: nat, r2: string, t3: nat, r3: string, t4: nat, r4: string)
    requires Valid(st) && !EmailInUse(st.users, email)
    requires t3 <= t2 + cfg.refreshTtl
    ensures var uid := st.nextUserId;
            var registered := Register(st, cfg, email, password, t1, r1);
            var loggedIn := Login(registered.next, cfg, email, password, t2, r2);
            var s2 := registered.next.nextSessionId;
            var refreshed := Refresh(loggedIn.next, cfg, Some(s2), Some(r2), t3, r3);
            var s3 := loggedIn.next.nextSessionId;
            var loggedOut := Logout(refreshed.next, Some(s3));
            && registered.out.response == Send(201, UserJson(uid))
            && loggedIn.out.response == Send(200, UserJson(uid))
            && SessionsOf(loggedIn.next.sessions, uid) == {s2}
            && refreshed.out.response == Send(200, Message("Session refreshed"))
            && SessionsOf(refreshed.next.sessions, uid) == {s3}
            && Refresh(refreshed.next, cfg, Some(s2), Some(r2), t4, r4).out == Failure(401, "Session not found")
            && loggedOut.out.response == Send(204, NoContent)
            && SessionsOf(loggedOut.next.sessions, uid) == {}
            && Refresh(loggedOut.next, cfg, Some(s3), Some(r3), t4, r4).out == Failure(401, "Session not found")
  {
    var uid := st.nextUserId;
    var registered := Register(st, cfg, email, password, t1, r1);
    LoginAfterRegister(st, cfg, email, password, t1, r1, t2, r2);
    var loggedIn := Login(registered.next, cfg, email, password, t2, r2);
    assert FindUserByEmail(registered.next.users, email) == Some(uid);
    var s2 := registered.next.nextSessionId;
    var refreshed := Refresh(loggedIn.next, cfg, Some(s2), Some(r2), t3, r3);
    assert Presents(loggedIn.next.sessions, Some(s2), Some(r2));
    RefreshReplayRejected(loggedIn.next, cfg, s2, r2, t3, r3, t4, r4);
    var s3 := loggedIn.next.nextSessionId;
    var loggedOut := Logout(refreshed.next, Some(s3));
    assert SessionsOf(loggedOut.next.sessions, uid) == {} by {
      assert SessionsOf(refreshed.next.sessions, uid) == {s3};
    }
  }
}
