/**
 * The six request handlers of the authentication controller, each as a
 * function from the store before the request (and the request's inputs) to
 * the store after it and the observable outcome: the HTTP response, the
 * cookies set or cleared, and the mail handed to the mailer.
 *
 * Inputs the handlers take from the environment are parameters: the clock
 * (`nowMs`, milliseconds), the fresh refresh token `createSession` draws,
 * whether the mail template could be read, and whether the mailer accepted
 * the message.
 */
module AuthFlows {
  import opened Wrappers
  import opened Crypto
  import opened Stores

  /** Process-wide configuration: `JWT_SECRET`, `FRONTEND_DOMAIN`,
      `SMTP_FROM`, and the refresh-token lifetime used by `createSession`. */
  datatype Config = Config(jwtSecret: string, frontendDomain: string, smtpFrom: string, refreshTtl: nat)

  /** The JSON body of a response sent by the handler itself. */
  datatype Body = UserJson(id: UserId) | Message(text: string) | NoContent

  /** What a handler passes to `next`: an error made by `createHttpError`,
      or an exception caught by the handler's outer `try`. */
  datatype HttpError = HttpError(status: nat, message: string) | Thrown

  datatype Response = Send(status: nat, body: Body) | Next(error: HttpError)

  /** `setSessionCookies(res, session)` for a session, or `res.clearCookie(name)`. */
  datatype CookieOp = SetSessionCookies(sessionId: SessionId, refreshToken: string) | ClearCookie(name: string)

  /** The text `${frontendDomain}/reset-password?token=${token}`. */
  datatype ResetLink = ResetLink(frontendDomain: string, token: Jwt)

  /** The reset-password template rendered with `{ name, link }`. */
  datatype Html = ResetPasswordEmail(name: string, link: ResetLink)

  datatype Mail = Mail(from: string, to: string, subject: string, html: Html)

  /** `mail` is the message the mailer accepted, if any. */
  datatype Outcome = Outcome(response: Response, cookies: seq<CookieOp>, mail: Option<Mail>)

  datatype Transition = Transition(next: Store, out: Outcome)

  function Failure(status: nat, message: string): Outcome
  {
    Outcome(Next(HttpError(status, message)), [], None)
  }

  const RESET_EMAIL_SENT: Response := Send(200, Message("Password reset email sent successfully"))
  const MAIL_FAILED: Outcome := Failure(500, "Failed to send the email, please try again later.")
  const LOGGED_OUT: Outcome :=
    Outcome(Send(204, NoContent), [ClearCookie("sessionId"), ClearCookie("accessToken"), ClearCookie("refreshToken")], None)

  /** `new Date() > new Date(session.refreshTokenValidUntil)`: strictly after. */
  predicate Expired(s: Session, nowMs: nat)
  {
    nowMs > s.refreshTokenValidUntil
  }

  /** `user.username || user.email`: an empty username falls back too. */
  function DisplayName(user: User): (name: string)
    ensures name == user.email || user.username == Some(name)
    ensures user.username.Some? && user.username.value != "" ==> name == user.username.value
    ensures name == "" ==> user.email == ""
  {
    if user.username.Some? && user.username.value != "" then user.username.value else user.email
  }

  /** `createSession(userId)` followed by `setSessionCookies`. */
  function StartSession(st: Store, cfg: Config, userId: UserId, nowMs: nat, refreshToken: string, response: Response): Transition
  {
    Transition(
      AddSession(st, Session(userId, refreshToken, nowMs + cfg.refreshTtl)),
      Outcome(response, [SetSessionCookies(st.nextSessionId, refreshToken)], None))
  }

  // ---------------------------------------------------------------- register

  ghost function Register(st: Store, cfg: Config, email: string, password: string, nowMs: nat, refreshToken: string): (t: Transition)
    ensures EmailInUse(st.users, email) ==> t == Transition(st, Failure(400, "Email in use"))
    ensures !EmailInUse(st.users, email) ==>
              var uid, sid := st.nextUserId, st.nextSessionId;
              && t.out == Outcome(Send(201, UserJson(uid)), [SetSessionCookies(sid, refreshToken)], None)
              && t.next.users == st.users[uid := User(email, None, Hash(password))]
              && t.next.sessions.Keys == st.sessions.Keys + {sid}
              && t.next.sessions[sid] == Session(uid, refreshToken, nowMs + cfg.refreshTtl)
              && (Valid(st) ==> uid !in st.users && SessionsOf(t.next.sessions, uid) == {sid})
              && (Valid(st) ==> forall s :: s in st.sessions ==> s in t.next.sessions && t.next.sessions[s] == st.sessions[s])
    ensures Valid(st) ==> Valid(t.next)
  {
    if EmailInUse(st.users, email) then
      Transition(st, Failure(400, "Email in use"))
    else
      var uid := st.nextUserId;
      var withUser := st.(users := st.users[uid := User(email, None, Hash(password))], nextUserId := uid + 1);
      var t := StartSession(withUser, cfg, uid, nowMs, refreshToken, Send(201, UserJson(uid)));
      assert Valid(st) ==> Valid(t.next) by {
        if Valid(st) {
          assert forall s :: s in st.sessions ==> st.sessions[s].userId != uid;
        }
      }
      t
  }

  // ------------------------------------------------------------------- login

  ghost predicate CredentialsMatch(users: map<UserId, User>, email: string, password: string)
  {
    exists u :: u in users && users[u].email == email && Compare(password, users[u].password)
  }

  ghost function Login(st: Store, cfg: Config, email: string, password: string, nowMs: nat, refreshToken: string): (t: Transition)
    // an unknown email and a wrong password are answered identically
    ensures t.out.response.Send? || t == Transition(st, Failure(401, "Invalid credentials"))
    ensures Valid(st) ==> (t.out.response.Send? <==> CredentialsMatch(st.users, email, password))
    ensures t.out.response.Send? ==>
              && FindUserByEmail(st.users, email).Some?
              && var uid, sid := FindUserByEmail(st.users, email).value, st.nextSessionId;
              && t.out == Outcome(Send(200, UserJson(uid)), [SetSessionCookies(sid, refreshToken)], None)
              && t.next.users == st.users
              && sid in t.next.sessions
              && t.next.sessions[sid] == Session(uid, refreshToken, nowMs + cfg.refreshTtl)
              && (Valid(st) ==>
                    && SessionsOf(t.next.sessions, uid) == {sid}
                    && t.next.sessions.Keys == st.sessions.Keys - SessionsOf(st.sessions, uid) + {sid})
              && (Valid(st) ==> forall s :: s in st.sessions && s in t.next.sessions ==> t.next.sessions[s] == st.sessions[s])
    ensures Valid(st) ==> Valid(t.next)
  {
    match FindUserByEmail(st.users, email)
    case None => Transition(st, Failure(401, "Invalid credentials"))
    case Some(uid) =>
      if !Compare(password, st.users[uid].password) then
        Transition(st, Failure(401, "Invalid credentials"))
      else
        var cleared := st.(sessions := DeleteOneSessionOf(st.sessions, uid));
        StartSession(cleared, cfg, uid, nowMs, refreshToken, Send(200, UserJson(uid)))
  }

  // ----------------------------------------------------------------- refresh

  /** Some session has the presented id AND the presented refresh token. */
  ghost predicate Presents(sessions: map<SessionId, Session>, sessionCookie: Option<SessionId>, tokenCookie: Option<string>)
  {
    && sessionCookie.Some? && tokenCookie.Some?
    && sessionCookie.value in sessions
    && sessions[sessionCookie.value].refreshToken == tokenCookie.value
  }

  ghost function Refresh(st: Store, cfg: Config, sessionCookie: Option<SessionId>, tokenCookie: Option<string>, nowMs: nat, refreshToken: string): (t: Transition)
    ensures !Presents(st.sessions, sessionCookie, tokenCookie) ==> t == Transition(st, Failure(401, "Session not found"))
    // an expired session is refused and left in place
    ensures Presents(st.sessions, sessionCookie, tokenCookie) && Expired(st.sessions[sessionCookie.value], nowMs) ==>
              t == Transition(st, Failure(401, "Session token expired"))
    ensures t.out.response.Send? <==>
              Presents(st.sessions, sessionCookie, tokenCookie) && nowMs <= st.sessions[sessionCookie.value].refreshTokenValidUntil
    ensures t.out.response.Send? ==>
              var presented, sid := sessionCookie.value, st.nextSessionId;
              var owner := st.sessions[presented].userId;
              && t.out == Outcome(Send(200, Message("Session refreshed")), [SetSessionCookies(sid, refreshToken)], None)
              && t.next.users == st.users
              && sid in t.next.sessions
              && t.next.sessions[sid] == Session(owner, refreshToken, nowMs + cfg.refreshTtl)
              && t.next.sessions.Keys == st.sessions.Keys - {presented} + {sid}
              && (Valid(st) ==> presented !in t.next.sessions && SessionsOf(t.next.sessions, owner) == {sid})
              && (Valid(st) ==> forall s :: s in st.sessions && s in t.next.sessions ==> t.next.sessions[s] == st.sessions[s])
    ensures Valid(st) ==> Valid(t.next)
  {
    if !Presents(st.sessions, sessionCookie, tokenCookie) then
      Transition(st, Failure(401, "Session not found"))
    else
      var presented := sessionCookie.value;
      var session := st.sessions[presented];
      if Expired(session, nowMs) then
        Transition(st, Failure(401, "Session token expired"))
      else
        var removed := st.(sessions := st.sessions - {presented});
        StartSession(removed, cfg, session.userId, nowMs, refreshToken, Send(200, Message("Session refreshed")))
  }

  // ------------------------------------------------------------------ logout

  function Logout(st: Store, sessionCookie: Option<SessionId>): (t: Transition)
    ensures t.out == LOGGED_OUT
    ensures t.next.users == st.users
    ensures t.next.sessions.Keys == if sessionCookie.Some? then st.sessions.Keys - {sessionCookie.value} else st.sessions.Keys
    ensures forall s :: s in t.next.sessions ==> t.next.sessions[s] == st.sessions[s]
    ensures Valid(st) ==> Valid(t.next)
  {
    var sessions := if sessionCookie.Some? then st.sessions - {sessionCookie.value} else st.sessions;
    Transition(st.(sessions := sessions), LOGGED_OUT)
  }

  // ------------------------------------------------------- reset email request

  ghost function RequestResetEmail(st: Store, cfg: Config, email: string, nowMs: nat, templateLoads: bool, mailerAccepts: bool): (t: Transition)
    ensures t.next == st && t.out.cookies == []
    // an unknown email gets the same answer as a successful send, and no mail
    ensures !EmailInUse(st.users, email) ==> t.out == Outcome(RESET_EMAIL_SENT, [], None)
    ensures EmailInUse(st.users, email) && !templateLoads ==> t.out == Outcome(Next(Thrown), [], None)
    ensures EmailInUse(st.users, email) && templateLoads && !mailerAccepts ==> t.out == MAIL_FAILED
    ensures EmailInUse(st.users, email) && templateLoads && mailerAccepts ==>
              t.out.response == RESET_EMAIL_SENT && t.out.mail.Some?
    ensures t.out.mail.Some? ==>
              && FindUserByEmail(st.users, email).Some?
              && var uid, m := FindUserByEmail(st.users, email).value, t.out.mail.value;
              && m.from == cfg.smtpFrom && m.to == email && m.subject == "Password reset"
              && m.html.name == DisplayName(st.users[uid])
              && m.html.link.frontendDomain == cfg.frontendDomain
              && m.html.link.token == IssueResetToken(cfg.jwtSecret, uid, st.users[uid].email, nowMs)
  {
    match FindUserByEmail(st.users, email)
    case None => Transition(st, Outcome(RESET_EMAIL_SENT, [], None))
    case Some(uid) =>
      var user := st.users[uid];
      var token := IssueResetToken(cfg.jwtSecret, uid, user.email, nowMs);
      if !templateLoads then
        Transition(st, Outcome(Next(Thrown), [], None))
      else
        var html := ResetPasswordEmail(DisplayName(user), ResetLink(cfg.frontendDomain, token));
        if !mailerAccepts then
          Transition(st, MAIL_FAILED)
        else
          Transition(st, Outcome(RESET_EMAIL_SENT, [], Some(Mail(cfg.smtpFrom, email, "Password reset", html))))
  }

  // ---------------------------------------------------------- password reset

  /** `User.findOne({ _id: claims.sub, email: claims.email })` finds a user. */
  ghost predicate TokenHolder(users: map<UserId, User>, c: Claims)
  {
    c.sub in users && users[c.sub].email == c.email
  }

  ghost function ResetPassword(st: Store, cfg: Config, token: Jwt, password: string, nowMs: nat): (t: Transition)
    ensures Verify(cfg.jwtSecret, token, nowMs).None? ==> t == Transition(st, Failure(401, "Invalid or expired token"))
    ensures Verify(cfg.jwtSecret, token, nowMs).Some? && !TokenHolder(st.users, token.claims) ==>
              t == Transition(st, Failure(404, "User not found"))
    ensures t.out.response.Send? <==> Verify(cfg.jwtSecret, token, nowMs).Some? && TokenHolder(st.users, token.claims)
    ensures t.out.response.Send? ==>
              var uid := token.claims.sub;
              && t.out == Outcome(Send(200, Message("Password reset successfully")), [], None)
              && t.next.users == st.users[uid := st.users[uid].(password := Hash(password))]
              && SessionsOf(t.next.sessions, uid) == {}
              && (forall s :: s in st.sessions && st.sessions[s].userId != uid ==> s in t.next.sessions)
              && (forall s :: s in t.next.sessions ==> s in st.sessions && t.next.sessions[s] == st.sessions[s])
              && t.next.nextUserId == st.nextUserId && t.next.nextSessionId == st.nextSessionId
    ensures Valid(st) ==> Valid(t.next)
  {
    match Verify(cfg.jwtSecret, token, nowMs)
    case None => Transition(st, Failure(401, "Invalid or expired token"))
    case Some(claims) =>
      if !TokenHolder(st.users, claims) then
        Transition(st, Failure(404, "User not found"))
      else
        var uid := claims.sub;
        var next := st.(users := st.users[uid := st.users[uid].(password := Hash(password))],
                        sessions := DeleteAllSessionsOf(st.sessions, uid));
        Transition(next, Outcome(Send(200, Message("Password reset successfully")), [], None))
  }
}
