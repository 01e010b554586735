// Token claims: the claim sets an administrator may edit at approval, and the
// claims the server puts on top of them when it signs a token.
module Claims {
  import opened Lists
  import opened Scopes

  const SECOND: int := 1_000_000_000 // clock readings and durations are in nanoseconds

  datatype Name =
    | Sub | Iss | Aud | Iat | Exp | Csid | Nonce | Azp | TokenUse | ScopeClaim
    | FullName | PreferredUsername | Picture | Email | EmailVerified
    | Custom(name: string)

  datatype Value = Str(s: string) | Num(n: int) | Strs(items: seq<string>) | Flag(b: bool) | Json(raw: string)

  type ClaimSet = map<Name, Value>

  /** claims[name].(string), with "" for a missing or non-string claim */
  function StringClaim(claims: ClaimSet, name: Name): string {
    if name in claims && claims[name].Str? then claims[name].s else ""
  }

  /** issueToken: the claims as signed. */
  function Sign(issuer: string, subject: string, audience: seq<string>, claims: ClaimSet, now: int,
                expiry: int): ClaimSet {
    (if Sub in claims then claims else claims[Sub := Str(subject)])
      [Iss := Str(issuer)][Aud := Strs(audience)][Iat := Num(now / SECOND)][Exp := Num(expiry / SECOND)]
  }

  /** issueToken's second result: what is remembered of a token. */
  function Remembered(signed: ClaimSet): ClaimSet {
    signed - {Iat}
  }

  /** Everything in a token that does not depend on when it was signed. */
  function Timeless(claims: ClaimSet): ClaimSet {
    claims - {Iat, Exp}
  }

  /** The server's own claims cannot be edited: whatever the claim set says, a signed
      token names this issuer and this audience, and keeps every other edited claim. */
  lemma SignOverrides(issuer: string, subject: string, audience: seq<string>, claims: ClaimSet, now: int, expiry: int)
    ensures var t := Sign(issuer, subject, audience, claims, now, expiry);
            && Iss in t && t[Iss] == Str(issuer) && Aud in t && t[Aud] == Strs(audience)
            && (forall n :: n in claims && n !in {Iss, Aud, Iat, Exp} ==> n in t && t[n] == claims[n])
            && (forall n :: n in t ==> n in claims || n in {Sub, Iss, Aud, Iat, Exp})
            && Sub in t
  {}

  /** Signing what was remembered of an earlier token reproduces that token, up to the
      clock, whatever subject the second signing is asked for. */
  lemma ResignFixed(issuer: string, subject: string, subject': string, audience: seq<string>, claims: ClaimSet,
                    now: int, expiry: int, now': int, expiry': int)
    ensures var first := Sign(issuer, subject, audience, claims, now, expiry);
            Timeless(Sign(issuer, subject', audience, Remembered(first), now', expiry')) == Timeless(first)
  {
    var first := Sign(issuer, subject, audience, claims, now, expiry);
    assert Sub in Remembered(first);
  }

  method IssueToken(issuer: string, subject: string, audience: seq<string>, claims: ClaimSet, now: int, expiry: int)
    returns (signed: ClaimSet, issued: ClaimSet)
    ensures signed == Sign(issuer, subject, audience, claims, now, expiry)
    ensures signed[Iat] == Num(now / SECOND) && signed[Exp] == Num(expiry / SECOND)
    ensures signed[Sub] == if Sub in claims then claims[Sub] else Str(subject)
    ensures issued == Remembered(signed)
  {
    signed := claims;
    if Sub !in signed { signed := signed[Sub := Str(subject)]; }
    signed := signed[Iss := Str(issuer)];
    signed := signed[Aud := Strs(audience)];
    signed := signed[Iat := Num(now / SECOND)];
    signed := signed[Exp := Num(expiry / SECOND)];
    issued := signed - {Iat};
  }
}
