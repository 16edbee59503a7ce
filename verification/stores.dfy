/**
 * The two Mongoose collections the authentication controller works on,
 * as maps from document id to document, together with the invariant that
 * every handler keeps.
 */
module Stores {
  import opened Wrappers
  import opened Crypto

  type UserId = nat
  type SessionId = nat

  /** A user document: `email`, an optional `username` and the bcrypt
      `password` digest. */
  datatype User = User(email: string, username: Option<string>, password: Digest)

  /** A session document, as far as the controller reads it. */
  datatype Session = Session(userId: UserId, refreshToken: string, refreshTokenValidUntil: nat)

  /** Both collections, and the next fresh document id of each (the model's
      stand-in for ObjectId generation). */
  datatype Store = Store(
    users: map<UserId, User>,
    sessions: map<SessionId, Session>,
    nextUserId: nat,
    nextSessionId: nat)

  ghost predicate EmailsUnique(users: map<UserId, User>)
  {
    forall a, b :: a in users && b in users && users[a].email == users[b].email ==> a == b
  }

  ghost predicate AtMostOneSessionPerUser(sessions: map<SessionId, Session>)
  {
    forall a, b :: a in sessions && b in sessions && sessions[a].userId == sessions[b].userId ==> a == b
  }

  /** The store invariant: ids below the fresh-id counters, every session
      owned by an existing user, emails unique, at most one session per user. */
  ghost predicate Valid(st: Store)
  {
    && (forall u :: u in st.users ==> u < st.nextUserId)
    && (forall s :: s in st.sessions ==> s < st.nextSessionId && st.sessions[s].userId in st.users)
    && EmailsUnique(st.users)
    && AtMostOneSessionPerUser(st.sessions)
  }

  ghost predicate EmailInUse(users: map<UserId, User>, email: string)
  {
    exists u :: u in users && users[u].email == email
  }

  /** `User.findOne({ email })`. */
  ghost function FindUserByEmail(users: map<UserId, User>, email: string): (r: Option<UserId>)
    ensures r.Some? ==> r.value in users && users[r.value].email == email
    ensures r.None? <==> !EmailInUse(users, email)
    ensures EmailsUnique(users) ==> forall u :: u in users && users[u].email == email ==> r == Some(u)
  {
    if EmailInUse(users, email) then
      Some(var u :| u in users && users[u].email == email; u)
    else
      None
  }

  /** The ids of the sessions a user owns. */
  function SessionsOf(sessions: map<SessionId, Session>, userId: UserId): set<SessionId>
  {
    set s | s in sessions && sessions[s].userId == userId
  }

  /** `createSession(userId)` (src/services/auth.js, not part of this model):
      inserts `session` under a fresh id. */
  function AddSession(st: Store, session: Session): (next: Store)
    ensures next.users == st.users && next.nextUserId == st.nextUserId
    ensures st.nextSessionId in next.sessions && next.sessions[st.nextSessionId] == session
    ensures next.nextSessionId > st.nextSessionId
    ensures st.nextSessionId !in st.sessions ==>
              forall s :: s in st.sessions ==> s in next.sessions && next.sessions[s] == st.sessions[s]
    ensures next.sessions.Keys == st.sessions.Keys + {st.nextSessionId}
  {
    st.(sessions := st.sessions[st.nextSessionId := session], nextSessionId := st.nextSessionId + 1)
  }

  /** `Session.deleteOne({ userId })`: removes one session of the user, if
      there is one. Under the one-session invariant it removes all of them. */
  ghost function DeleteOneSessionOf(sessions: map<SessionId, Session>, userId: UserId): (r: map<SessionId, Session>)
    ensures r.Keys <= sessions.Keys && forall s :: s in r ==> r[s] == sessions[s]
    ensures forall s :: s in sessions && sessions[s].userId != userId ==> s in r
    ensures AtMostOneSessionPerUser(sessions) ==> SessionsOf(r, userId) == {}
  {
    if exists s :: s in sessions && sessions[s].userId == userId then
      var s :| s in sessions && sessions[s].userId == userId;
      sessions - {s}
    else
      sessions
  }

  /** `Session.deleteMany({ userId })`. */
  function DeleteAllSessionsOf(sessions: map<SessionId, Session>, userId: UserId): (r: map<SessionId, Session>)
    ensures SessionsOf(r, userId) == {}
    ensures r.Keys <= sessions.Keys && forall s :: s in r ==> r[s] == sessions[s]
    ensures forall s :: s in sessions && sessions[s].userId != userId ==> s in r
  {
    map s | s in sessions && sessions[s].userId != userId :: sessions[s]
  }
}
