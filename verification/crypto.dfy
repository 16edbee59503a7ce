/**
 * The two cryptographic collaborators of the authentication controller,
 * modelled as ideal primitives:
 *  - bcrypt password hashing (`bcrypt.hash`, `bcrypt.compare`), and
 *  - HS256 JSON Web Tokens (`jwt.sign`, `jwt.verify`) used as reset tokens.
 * Their internals (salt, cost factor, HMAC, base64url layout) are not modelled;
 * only the contracts the controller relies on are.
 */
module Crypto {
  import opened Wrappers

  /** A bcrypt digest. Its only use is `Compare`; a digest has a type of its
      own, so a stored password can never be a plaintext string. */
  datatype Digest = Bcrypt(preimage: string)

  function Hash(password: string): (d: Digest)
    ensures forall attempt :: Compare(attempt, d) <==> attempt == password
  {
    Bcrypt(password)
  }

  /** `bcrypt.compare(password, digest)`. */
  function Compare(password: string, d: Digest): (ok: bool)
  {
    d.preimage == password
  }

  /** Lifetime of a reset token: `expiresIn: "15m"`, in seconds. */
  const RESET_TOKEN_LIFETIME: nat := 15 * 60

  /** JWT timestamps are whole seconds: `Math.floor(Date.now() / 1000)`. */
  function Seconds(nowMs: nat): nat
  {
    nowMs / 1000
  }

  /** The payload of a reset token: `{ sub, email }` plus the `iat` and `exp`
      claims that `jwt.sign` adds. */
  datatype Claims = Claims(sub: nat, email: string, iat: nat, exp: nat)

  /** An ideal message authentication code: only a holder of `key` can produce
      `Hs256(key, c)`, and it authenticates exactly the claims `c`. */
  datatype Signature = Hs256(key: string, claims: Claims)

  /** A token as presented by a client: either a well-formed signed token or
      any other text. */
  datatype Jwt = Signed(claims: Claims, signature: Signature) | Malformed(text: string)

  function Sign(secret: string, c: Claims): (t: Jwt)
    ensures t.Signed? && t.claims == c && t.signature == Hs256(secret, c)
  {
    Signed(c, Hs256(secret, c))
  }

  /** `jwt.sign({ sub, email }, secret, { expiresIn: "15m" })` at time `nowMs`. */
  function IssueResetToken(secret: string, sub: nat, email: string, nowMs: nat): (t: Jwt)
    ensures t.Signed? && t.claims.sub == sub && t.claims.email == email
    ensures t.claims.exp == Seconds(nowMs) + RESET_TOKEN_LIFETIME
    ensures t == Sign(secret, t.claims) && t.claims.iat == Seconds(nowMs)
  {
    Sign(secret, Claims(sub, email, Seconds(nowMs), Seconds(nowMs) + RESET_TOKEN_LIFETIME))
  }

  /** `jwt.verify(token, secret)` at time `nowMs`: a bad signature, a malformed
      token and an expired token all collapse into `None`. As in the
      jsonwebtoken library, a token is expired once the current second
      reaches `exp`. */
  function Verify(secret: string, t: Jwt, nowMs: nat): (r: Option<Claims>)
    ensures r.Some? ==> t == Sign(secret, r.value) && Seconds(nowMs) < r.value.exp
    ensures t.Signed? && t == Sign(secret, t.claims) && Seconds(nowMs) < t.claims.exp ==> r == Some(t.claims)
  {
    match t
    case Malformed(_) => None
    case Signed(c, sig) =>
      if sig == Hs256(secret, c) && Seconds(nowMs) < c.exp then Some(c) else None
  }

  /** A reset token verifies, with the claims it was issued with, exactly
      while it is less than 15 minutes old. */
  lemma ResetTokenRoundTrip(secret: string, sub: nat, email: string, issuedMs: nat, nowMs: nat)
    ensures var t := IssueResetToken(secret, sub, email, issuedMs);
            Verify(secret, t, nowMs) == if Seconds(nowMs) < Seconds(issuedMs) + RESET_TOKEN_LIFETIME then Some(t.claims) else None
  {
  }

  /** A token signed with any other key never verifies. */
  lemma ForeignSignatureRejected(secret: string, other: string, c: Claims, nowMs: nat)
    requires other != secret
    ensures Verify(secret, Sign(other, c), nowMs).None?
  {
  }
}
