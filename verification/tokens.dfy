/** The token issuer of `AuthService`: access and refresh tokens signed with two
    different private keys.  RS256 signatures, keys and expirations are
    abstracted: a token is the claim set it carries plus the kind of key that
    signed it. */
module Tokens {
  import opened Wrappers

  /** Which private key signed a token. */
  datatype TokenKind = Access | Refresh

  /** The signed claim set `{ userId, role }`.  The role is a plain string,
      because one issuance path emits "admin" where the others use "Admin". */
  datatype TokenPayload = TokenPayload(userId: string, role: string)

  datatype Token = Token(kind: TokenKind, userId: string, role: string)

  /** What the sign-in and sign-up flows hand back to the caller. */
  datatype TokenPair = TokenPair(accessToken: Token, refreshToken: Token)

  /** Checking a token's signature with the public key of `kind` and reading
      its claims back.  A token only verifies under the key it was signed
      with. */
  function Verify(kind: TokenKind, t: Token): (r: Option<TokenPayload>)
    ensures r.Some? <==> t.kind == kind
    ensures r.Some? ==> r.value.userId == t.userId && r.value.role == t.role
  {
    if t.kind == kind then Some(TokenPayload(t.userId, t.role)) else None
  }

  /** The start of the JSON claim set that `jsonwebtoken` signs,
      `{"userId":"…","role":"…"`; the `iat` and `exp` claims follow it. */
  function ClaimsPrefix(t: Token): (s: string)
    ensures |s| == 22 + |t.userId| + |t.role|
    ensures s[11..11 + |t.userId|] == t.userId
  {
    "{\"userId\":\"" + t.userId + "\",\"role\":\"" + t.role + "\""
  }

  /** `generateAccessToken`: sign the payload with the access-token key. */
  function GenerateAccessToken(payload: TokenPayload): (t: Token)
    ensures Verify(Access, t) == Some(payload)
    ensures Verify(Refresh, t) == None
  {
    Token(Access, payload.userId, payload.role)
  }

  /** `generateRefreshToken`: sign the payload with the refresh-token key. */
  function GenerateRefreshToken(payload: TokenPayload): (t: Token)
    ensures Verify(Refresh, t) == Some(payload)
    ensures Verify(Access, t) == None
  {
    Token(Refresh, payload.userId, payload.role)
  }

  /** The two keys are independent: no access token is ever a refresh token. */
  lemma AccessNeverRefresh(p: TokenPayload, q: TokenPayload)
    ensures GenerateAccessToken(p) != GenerateRefreshToken(q)
  {
  }
}
