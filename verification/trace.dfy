/**
 * Any sequence of requests, each handled atomically by one of the six
 * handlers: the store invariant (in particular, at most one session per
 * user) holds after every request, and no user record is ever removed nor
 * has its email changed.
 */
module Trace {
  import opened Wrappers
  import opened Crypto
  import opened Stores
  import opened AuthFlows

  /** One request, with the inputs its handler takes from the environment. */
  datatype Request =
    | RegisterRequest(email: string, password: string, nowMs: nat, refreshToken: string)
    | LoginRequest(email: string, password: string, nowMs: nat, refreshToken: string)
    | RefreshRequest(sessionCookie: Option<SessionId>, tokenCookie: Option<string>, nowMs: nat, refreshToken: string)
    | LogoutRequest(sessionCookie: Option<SessionId>)
    | ResetEmailRequest(email: string, nowMs: nat, templateLoads: bool, mailerAccepts: bool)
    | ResetPasswordRequest(token: Jwt, password: string, nowMs: nat)

  /** Users are kept, with their emails, by one request. */
  ghost predicate UsersKept(before: map<UserId, User>, after: map<UserId, User>)
  {
    forall u :: u in before ==> u in after && after[u].email == before[u].email
  }

  ghost function Handle(st: Store, cfg: Config, req: Request): (t: Transition)
    ensures Valid(st) ==> Valid(t.next) && UsersKept(st.users, t.next.users)
  {
    match req
    case RegisterRequest(email, password, nowMs, token) => Register(st, cfg, email, password, nowMs, token)
    case LoginRequest(email, password, nowMs, token) => Login(st, cfg, email, password, nowMs, token)
    case RefreshRequest(sc, tc, nowMs, token) => Refresh(st, cfg, sc, tc, nowMs, token)
    case LogoutRequest(sc) => Logout(st, sc)
    case ResetEmailRequest(email, nowMs, loads, accepts) => RequestResetEmail(st, cfg, email, nowMs, loads, accepts)
    case ResetPasswordRequest(token, password, nowMs) => ResetPassword(st, cfg, token, password, nowMs)
  }

  /** The store after handling `reqs` in order. */
  ghost function Run(st: Store, cfg: Config, reqs: seq<Request>): Store
    decreases |reqs|
  {
    if reqs == [] then st else Run(Handle(st, cfg, reqs[0]).next, cfg, reqs[1..])
  }

  lemma {:induction false} RunPreservesValid(st: Store, cfg: Config, reqs: seq<Request>)
    requires Valid(st)
    ensures Valid(Run(st, cfg, reqs))
    ensures AtMostOneSessionPerUser(Run(st, cfg, reqs).sessions)
    decreases |reqs|
  {
    if reqs != [] {
      RunPreservesValid(Handle(st, cfg, reqs[0]).next, cfg, reqs[1..]);
    }
  }

  lemma {:induction false} RunKeepsUsers(st: Store, cfg: Config, reqs: seq<Request>)
    requires Valid(st)
    ensures UsersKept(st.users, Run(st, cfg, reqs).users)
    decreases |reqs|
  {
    if reqs != [] {
      var mid := Handle(st, cfg, reqs[0]).next;
      RunKeepsUsers(mid, cfg, reqs[1..]);
    }
  }

  /** A session id that was handed out and has since been deleted. Ids come
      from a counter, so no later request can bring it back. */
  ghost predicate Retired(st: Store, sid: SessionId)
  {
    sid < st.nextSessionId && sid !in st.sessions
  }

  lemma HandleKeepsRetired(st: Store, cfg: Config, req: Request, sid: SessionId)
    requires Valid(st) && Retired(st, sid)
    ensures Retired(Handle(st, cfg, req).next, sid)
  {
  }

  lemma {:induction false} RunKeepsRetired(st: Store, cfg: Config, reqs: seq<Request>, sid: SessionId)
    requires Valid(st) && Retired(st, sid)
    ensures Retired(Run(st, cfg, reqs), sid)
    decreases |reqs|
  {
    if reqs != [] {
      HandleKeepsRetired(st, cfg, reqs[0], sid);
      RunKeepsRetired(Handle(st, cfg, reqs[0]).next, cfg, reqs[1..], sid);
    }
  }

  /** Refresh-token rotation: once a (sessionId, refreshToken) pair has been
      used to refresh, presenting it again is refused after any sequence of
      later requests, at any later time. */
  lemma ReplayRejectedEverAfter(st: Store, cfg: Config, sessionId: SessionId, refreshToken: string,
                                nowMs: nat, newToken: string, reqs: seq<Request>, laterMs: nat, newToken2: string)
    requires Valid(st)
    requires Refresh(st, cfg, Some(sessionId), Some(refreshToken), nowMs, newToken).out.response.Send?
    ensures var later := Run(Refresh(st, cfg, Some(sessionId), Some(refreshToken), nowMs, newToken).next, cfg, reqs);
            Refresh(later, cfg, Some(sessionId), Some(refreshToken), laterMs, newToken2) == Transition(later, Failure(401, "Session not found"))
  {
    var rotated := Refresh(st, cfg, Some(sessionId), Some(refreshToken), nowMs, newToken).next;
    assert Retired(rotated, sessionId);
    RunKeepsRetired(rotated, cfg, reqs, sessionId);
  }

  /** After a successful password reset, every session the user had before
      stays refused after any sequence of later requests. */
  lemma ResetRevokedEverAfter(st: Store, cfg: Config, token: Jwt, password: string, nowMs: nat,
                              sessionId: SessionId, reqs: seq<Request>, laterMs: nat, newToken: string)
    requires Valid(st)
    requires ResetPassword(st, cfg, token, password, nowMs).out.response.Send?
    requires sessionId in st.sessions && st.sessions[sessionId].userId == token.claims.sub
    ensures var later := Run(ResetPassword(st, cfg, token, password, nowMs).next, cfg, reqs);
            var presented := Some(st.sessions[sessionId].refreshToken);
            Refresh(later, cfg, Some(sessionId), presented, laterMs, newToken) == Transition(later, Failure(401, "Session not found"))
  {
    var reset := ResetPassword(st, cfg, token, password, nowMs).next;
    assert sessionId !in SessionsOf(reset.sessions, token.claims.sub);
    assert Retired(reset, sessionId);
    RunKeepsRetired(reset, cfg, reqs, sessionId);
  }
}
