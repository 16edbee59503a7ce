/**
 * The authentication controller: each handler is a method that reads and
 * updates the user and session collections in place, one store call at a
 * time. The refresh handler uses the corrected session lookup (both cookies
 * present and matching); the lookup as written is in `AsWrittenRefresh`.
 * Each method is proved to leave the store and to answer exactly as the
 * corresponding handler function of `AuthFlows` prescribes, so every
 * property proved there holds of these methods.
 */
module AuthController {
  import opened Wrappers
  import opened Crypto
  import opened Stores
  import opened AuthFlows

  class Controller {
    var users: map<UserId, User>
    var sessions: map<SessionId, Session>
    var nextUserId: nat
    var nextSessionId: nat
    const config: Config

    function State(): Store
      reads this
    {
      Store(users, sessions, nextUserId, nextSessionId)
    }

    ghost predicate Valid()
      reads this
    {
      Stores.Valid(State())
    }

    constructor (config: Config)
      ensures Valid() && this.config == config
      ensures State() == Store(map[], map[], 0, 0)
    {
      this.config := config;
      users, sessions := map[], map[];
      nextUserId, nextSessionId := 0, 0;
    }

    /** `User.findOne({ email })`. */
    method FindUser(email: string) returns (r: Option<UserId>)
      requires EmailsUnique(users)
      ensures r == FindUserByEmail(users, email)
    {
      if exists u :: u in users && users[u].email == email {
        var u :| u in users && users[u].email == email;
        r := Some(u);
      } else {
        r := None;
      }
    }

    /** `createSession(userId)`: a new session under a fresh id. */
    method CreateSession(userId: UserId, nowMs: nat, refreshToken: string) returns (sid: SessionId)
      modifies this
      ensures sid == old(nextSessionId)
      ensures State() == AddSession(old(State()), Session(userId, refreshToken, nowMs + config.refreshTtl))
    {
      sid := nextSessionId;
      sessions := sessions[sid := Session(userId, refreshToken, nowMs + config.refreshTtl)];
      nextSessionId := nextSessionId + 1;
    }

    /** `Session.deleteOne({ userId })`; which session it removes is decided
        by the invariant that there is at most one. */
    method DeleteSessionOf(userId: UserId)
      requires AtMostOneSessionPerUser(sessions)
      modifies this
      ensures State() == old(State()).(sessions := DeleteOneSessionOf(old(sessions), userId))
    {
      if exists s :: s in sessions && sessions[s].userId == userId {
        var s :| s in sessions && sessions[s].userId == userId;
        sessions := sessions - {s};
      }
    }

    method RegisterUser(email: string, password: string, nowMs: nat, refreshToken: string) returns (out: Outcome)
      requires Valid()
      modifies this
      ensures Valid()
      ensures Transition(State(), out) == Register(old(State()), config, email, password, nowMs, refreshToken)
    {
      var existing := FindUser(email);
      if existing.Some? {
        return Failure(400, "Email in use");
      }
      var hashed := Hash(password);
      var uid := nextUserId;
      users := users[uid := User(email, None, hashed)];
      nextUserId := nextUserId + 1;
      var sid := CreateSession(uid, nowMs, refreshToken);
      out := Outcome(Send(201, UserJson(uid)), [SetSessionCookies(sid, refreshToken)], None);
    }

    method LoginUser(email: string, password: string, nowMs: nat, refreshToken: string) returns (out: Outcome)
      requires Valid()
      modifies this
      ensures Valid()
      ensures Transition(State(), out) == Login(old(State()), config, email, password, nowMs, refreshToken)
    {
      var found := FindUser(email);
      if found.None? {
        return Failure(401, "Invalid credentials");
      }
      var uid := found.value;
      var isValidPassword := Compare(password, users[uid].password);
      if !isValidPassword {
        return Failure(401, "Invalid credentials");
      }
      DeleteSessionOf(uid);
      var sid := CreateSession(uid, nowMs, refreshToken);
      out := Outcome(Send(200, UserJson(uid)), [SetSessionCookies(sid, refreshToken)], None);
    }

    method RefreshUserSession(sessionCookie: Option<SessionId>, tokenCookie: Option<string>, nowMs: nat, refreshToken: string)
      returns (out: Outcome)
      requires Valid()
      modifies this
      ensures Valid()
      ensures Transition(State(), out) == Refresh(old(State()), config, sessionCookie, tokenCookie, nowMs, refreshToken)
    {
      if sessionCookie.None? || tokenCookie.None?
         || sessionCookie.value !in sessions || sessions[sessionCookie.value].refreshToken != tokenCookie.value
      {
        return Failure(401, "Session not found");
      }
      var presented := sessionCookie.value;
      var session := sessions[presented];
      if Expired(session, nowMs) {
        return Failure(401, "Session token expired");
      }
      sessions := sessions - {presented};
      var sid := CreateSession(session.userId, nowMs, refreshToken);
      out := Outcome(Send(200, Message("Session refreshed")), [SetSessionCookies(sid, refreshToken)], None);
    }

    method LogoutUser(sessionCookie: Option<SessionId>) returns (out: Outcome)
      requires Valid()
      modifies this
      ensures Valid()
      ensures Transition(State(), out) == Logout(old(State()), sessionCookie)
    {
      if sessionCookie.Some? {
        sessions := sessions - {sessionCookie.value};
      }
      var cookies := [ClearCookie("sessionId")];
      cookies := cookies + [ClearCookie("accessToken")];
      cookies := cookies + [ClearCookie("refreshToken")];
      out := Outcome(Send(204, NoContent), cookies, None);
    }

    /** Changes no store; `templateLoads` and `mailerAccepts` are the
        outcomes of reading the template file and of `sendMail`. */
    method RequestResetEmail(email: string, nowMs: nat, templateLoads: bool, mailerAccepts: bool) returns (out: Outcome)
      requires Valid()
      ensures Transition(State(), out) == AuthFlows.RequestResetEmail(State(), config, email, nowMs, templateLoads, mailerAccepts)
    {
      var found := FindUser(email);
      if found.None? {
        return Outcome(RESET_EMAIL_SENT, [], None);
      }
      var user := users[found.value];
      var resetToken := IssueResetToken(config.jwtSecret, found.value, user.email, nowMs);
      if !templateLoads {
        return Outcome(Next(Thrown), [], None);
      }
      var html := ResetPasswordEmail(DisplayName(user), ResetLink(config.frontendDomain, resetToken));
      if !mailerAccepts {
        return MAIL_FAILED;
      }
      out := Outcome(RESET_EMAIL_SENT, [], Some(Mail(config.smtpFrom, email, "Password reset", html)));
    }

    method ResetUserPassword(token: Jwt, password: string, nowMs: nat) returns (out: Outcome)
      requires Valid()
      modifies this
      ensures Valid()
      ensures Transition(State(), out) == ResetPassword(old(State()), config, token, password, nowMs)
    {
      var payload := Verify(config.jwtSecret, token, nowMs);
      if payload.None? {
        return Failure(401, "Invalid or expired token");
      }
      var claims := payload.value;
      if !(claims.sub in users && users[claims.sub].email == claims.email) {
        return Failure(404, "User not found");
      }
      var uid := claims.sub;
      var hashed := Hash(password);
      users := users[uid := users[uid].(password := hashed)];
      sessions := map s | s in sessions && sessions[s].userId != uid :: sessions[s];
      out := Outcome(Send(200, Message("Password reset successfully")), [], None);
    }
  }
}
