/**
 * The refresh handler as written looks the session up with
 * `Session.findOne({ _id: sessionId, refreshToken })` straight from the
 * cookies. Mongoose drops a filter key whose value is `undefined` (its
 * documentation: `findOne({ _id: undefined })` is `findOne({})`), so a
 * missing cookie widens the match instead of failing it: without a
 * `refreshToken` cookie the session id alone suffices, and without either
 * cookie any session matches. `deleteOne` is built from the same filter.
 *
 * `RefreshAsWritten` models that lookup; `AuthFlows.Refresh` is the
 * intended behaviour (both cookies present and both matching), used by the
 * rest of the model.
 */
module AsWrittenRefresh {
  import opened Wrappers
  import opened Crypto
  import opened Stores
  import opened AuthFlows

  /** The session with id `sid` satisfies the filter built from the cookies,
      absent cookies contributing no condition. */
  predicate MatchesAsWritten(sid: SessionId, s: Session, sessionCookie: Option<SessionId>, tokenCookie: Option<string>)
  {
    && (sessionCookie.Some? ==> sid == sessionCookie.value)
    && (tokenCookie.Some? ==> s.refreshToken == tokenCookie.value)
  }

  ghost function RefreshAsWritten(st: Store, cfg: Config, sessionCookie: Option<SessionId>, tokenCookie: Option<string>,
                                  nowMs: nat, refreshToken: string): (t: Transition)
    ensures Presents(st.sessions, sessionCookie, tokenCookie) ==> t == Refresh(st, cfg, sessionCookie, tokenCookie, nowMs, refreshToken)
    ensures Valid(st) ==> Valid(t.next)
  {
    if exists sid :: sid in st.sessions && MatchesAsWritten(sid, st.sessions[sid], sessionCookie, tokenCookie) then
      var sid :| sid in st.sessions && MatchesAsWritten(sid, st.sessions[sid], sessionCookie, tokenCookie);
      var session := st.sessions[sid];
      if Expired(session, nowMs) then
        Transition(st, Failure(401, "Session token expired"))
      else
        var removed := st.(sessions := st.sessions - {sid});
        StartSession(removed, cfg, session.userId, nowMs, refreshToken, Send(200, Message("Session refreshed")))
    else
      Transition(st, Failure(401, "Session not found"))
  }

  /** A client with no cookies at all, against a store holding one live
      session of user 0, is handed a new session of user 0 by the code as
      written; the intended handler refuses it. */
  lemma NoCookiesTakesOverASession()
    ensures var st := Store(map[0 := User("a@x.com", None, Hash("pw1"))], map[7 := Session(0, "r", 100)], 1, 8);
            var cfg := Config("secret", "https://app", "noreply@app", 1000);
            && Valid(st)
            && RefreshAsWritten(st, cfg, None, None, 50, "attacker").out
               == Outcome(Send(200, Message("Session refreshed")), [SetSessionCookies(8, "attacker")], None)
            && RefreshAsWritten(st, cfg, None, None, 50, "attacker").next.sessions[8].userId == 0
            && Refresh(st, cfg, None, None, 50, "attacker") == Transition(st, Failure(401, "Session not found"))
  {
    var st := Store(map[0 := User("a@x.com", None, Hash("pw1"))], map[7 := Session(0, "r", 100)], 1, 8);
    assert MatchesAsWritten(7, st.sessions[7], None, None);
    assert forall sid :: sid in st.sessions ==> sid == 7;
  }

  /** A known session id without its refresh token is enough for the code as
      written; the intended handler demands the token. */
  lemma SessionIdAloneRefreshes(st: Store, cfg: Config, sid: SessionId, nowMs: nat, refreshToken: string)
    requires Valid(st)
    requires sid in st.sessions && !Expired(st.sessions[sid], nowMs)
    ensures RefreshAsWritten(st, cfg, Some(sid), None, nowMs, refreshToken).out.response == Send(200, Message("Session refreshed"))
    ensures Refresh(st, cfg, Some(sid), None, nowMs, refreshToken) == Transition(st, Failure(401, "Session not found"))
  {
    assert MatchesAsWritten(sid, st.sessions[sid], Some(sid), None);
  }
}
