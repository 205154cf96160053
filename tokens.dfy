/**
 * The token service behind `jwt.sign` and `jwt.verify`. Signing and
 * signature checking are abstract: `sign` stands for signing with the
 * server's private key, and a `Keyring` maps every token that carries a
 * valid signature to the payload it was signed over. Times are seconds.
 */
module Tokens {
  import opened Wrappers

  /** A compact token is never empty and holds no space (it is base64url and dots). */
  type Token = t: string | t != "" && ' ' !in t witness "jwt"

  /** Lifetime given to issued tokens: '24h'. */
  const DAY_IN_SECONDS: int := 24 * 60 * 60

  /** The payload of a token: the email claim (absent when signed over `undefined`),
      issue time and expiry time. */
  datatype Claims = Claims(email: Option<string>, iat: int, exp: int)

  /** The tokens bearing a valid signature of the server's key, with their payloads. */
  type Keyring = map<Token, Claims>

  datatype Verdict = Invalid | Expired | Valid(claims: Claims)

  /** The payload `jwt.sign({ email }, key, { expiresIn: '24h' })` signs at time `now`. */
  function IssueClaims(email: Option<string>, now: int): (c: Claims)
    ensures c.email == email && c.iat == now && c.exp == now + DAY_IN_SECONDS
  {
    Claims(email, now, now + DAY_IN_SECONDS)
  }

  /** `jwt.verify` at time `now`: a missing or empty token and a token without a valid
      signature are invalid; a signed token is expired from its `exp` instant on. */
  function Verify(keys: Keyring, token: Option<string>, now: int): (v: Verdict)
    ensures v.Valid? <==> token.Some? && token.value in keys && now < keys[token.value].exp
    ensures v.Valid? ==> v.claims == keys[token.value]
    ensures v == Expired <==> token.Some? && token.value in keys && keys[token.value].exp <= now
  {
    match token
    case None => Invalid
    case Some(t) =>
      if t == "" || t !in keys then Invalid
      else if now >= keys[t].exp then Expired
      else Valid(keys[t])
  }

  /** The keyring recognises what `sign` produced for `c`. */
  predicate Recognises(keys: Keyring, sign: Claims -> Token, c: Claims)
  {
    sign(c) in keys && keys[sign(c)] == c
  }

  /** A token issued for `email` at `issuedAt` verifies to that email for 24 hours. */
  lemma IssuedTokenValidForADay(keys: Keyring, sign: Claims -> Token, email: Option<string>, issuedAt: int, now: int)
    requires Recognises(keys, sign, IssueClaims(email, issuedAt))
    requires issuedAt <= now < issuedAt + DAY_IN_SECONDS
    ensures Verify(keys, Some(sign(IssueClaims(email, issuedAt))), now).Valid?
    ensures Verify(keys, Some(sign(IssueClaims(email, issuedAt))), now).claims.email == email
  {
  }

  /** From 24 hours after issue on, the same token is rejected as expired. */
  lemma IssuedTokenExpiresAfterADay(keys: Keyring, sign: Claims -> Token, email: Option<string>, issuedAt: int, now: int)
    requires Recognises(keys, sign, IssueClaims(email, issuedAt))
    requires issuedAt + DAY_IN_SECONDS <= now
    ensures Verify(keys, Some(sign(IssueClaims(email, issuedAt))), now) == Expired
  {
  }
}
