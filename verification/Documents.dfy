// Client ID metadata documents: validation of a fetched document, how long it may
// be cached, and the keys it publishes.
module Documents {
  import opened Lists
  import opened Scopes
  import opened Claims
  import opened Registration
  import opened Idp

  // ---------------------------------------------------------------- validation

  /** A fetched body, decoded twice: as a raw object and as typed client metadata.
      `NotJson` covers a body that is not a JSON object. */
  datatype Document =
    | NotJson
    | Decoded(clientID: string, namesSecret: bool, namesSecretExpiry: bool, typed: Option<Registration>)

  datatype DocumentError =
    | Malformed | MissingClientID | OtherClientID | ForbiddenMember | Rejected(why: RegistrationError) | NoKeys

  /** What every registration taken from a document satisfies. */
  ghost predicate DocumentRules(cfg: Config, clientID: string, reg: Registration) {
    && reg.clientID == clientID
    && reg.secret == "" && reg.secretExpiresAt == None
    && reg.registeredBy == MetadataDocument
    && (reg.authMethod == NoAuth || (reg.authMethod == PrivateKeyJwt && (reg.jwks != "" || reg.jwksURI != "")))
    && Canonical(cfg.validURI, reg, DOCUMENT_AUTH_METHODS, NoAuth)
  }

  method ValidateClientIDMetadata(cfg: Config, clientID: string, doc: Document, now: int)
    returns (result: Result<Registration, DocumentError>)
    ensures result == Validate(cfg, clientID, doc, now)
  {
    if doc.NotJson? { return Err(Malformed); }
    if doc.clientID == "" { return Err(MissingClientID); }
    if doc.clientID != clientID { return Err(OtherClientID); }
    if doc.namesSecret || doc.namesSecretExpiry { return Err(ForbiddenMember); }
    if doc.typed.None? { return Err(Malformed); }
    var normalized := NormalizeRegistration(cfg.validURI, doc.typed.value, DOCUMENT_AUTH_METHODS, NoAuth);
    if normalized.Err? { return Err(Rejected(normalized.error)); }
    var reg := normalized.value;
    if reg.authMethod == PrivateKeyJwt && reg.jwks == "" && reg.jwksURI == "" { return Err(NoKeys); }
    reg := reg.(clientID := clientID);
    reg := reg.(issuedAt := now / SECOND);
    reg := reg.(secret := "", secretExpiresAt := None);
    reg := reg.(registeredBy := MetadataDocument);
    return Ok(reg);
  }

  function Validate(cfg: Config, clientID: string, doc: Document, now: int): Result<Registration, DocumentError> {
    if doc.NotJson? then Err(Malformed)
    else if doc.clientID == "" then Err(MissingClientID)
    else if doc.clientID != clientID then Err(OtherClientID)
    else if doc.namesSecret || doc.namesSecretExpiry then Err(ForbiddenMember)
    else if doc.typed.None? then Err(Malformed)
    else
      match Normalize(cfg.validURI, doc.typed.value, DOCUMENT_AUTH_METHODS, NoAuth)
      case Err(e) => Err(Rejected(e))
      case Ok(reg) =>
        if reg.authMethod == PrivateKeyJwt && reg.jwks == "" && reg.jwksURI == "" then Err(NoKeys)
        else Ok(reg.(clientID := clientID, issuedAt := now / SECOND, secret := "", secretExpiresAt := None,
                     registeredBy := MetadataDocument))
  }

  /** A document that is accepted describes its own URL, holds no secret and authenticates
      with nothing or with keys, whatever its author wrote into the server's own fields. */
  lemma ValidatedDocument(cfg: Config, clientID: string, doc: Document, now: int)
    requires Validate(cfg, clientID, doc, now).Ok?
    ensures var reg := Validate(cfg, clientID, doc, now).value;
            DocumentRules(cfg, clientID, reg) && reg.issuedAt == now / SECOND
            && doc.clientID == clientID && !doc.namesSecret && !doc.namesSecretExpiry
  {
    NormalizeCanonical(cfg.validURI, doc.typed.value, DOCUMENT_AUTH_METHODS, NoAuth);
    var plain := Normalize(cfg.validURI, doc.typed.value, DOCUMENT_AUTH_METHODS, NoAuth).value;
    var reg := Validate(cfg, clientID, doc, now).value;
    var ws :| AllTokens(ws) && NoDup(ws) && plain.scope == Join(ws);
    assert AllTokens(ws) && NoDup(ws) && reg.scope == Join(ws);
  }

  /** A document is accepted if and only if it is one, for the URL it came from, without secrets, with
      metadata that can be normalized, and with keys if it asks for them. */
  lemma ValidExactly(cfg: Config, clientID: string, doc: Document, now: int)
    ensures Validate(cfg, clientID, doc, now).Ok?
            <==> && doc.Decoded? && clientID != "" && doc.clientID == clientID
                 && !doc.namesSecret && !doc.namesSecretExpiry && doc.typed.Some?
                 && var n := Normalize(cfg.validURI, doc.typed.value, DOCUMENT_AUTH_METHODS, NoAuth);
                    n.Ok? && (n.value.authMethod == PrivateKeyJwt ==> n.value.jwks != "" || n.value.jwksURI != "")
    ensures Validate(cfg, clientID, doc, now).Ok? ==>
              var n := Normalize(cfg.validURI, doc.typed.value, DOCUMENT_AUTH_METHODS, NoAuth).value;
              var reg := Validate(cfg, clientID, doc, now).value;
              && reg.redirectURIs == n.redirectURIs && reg.authMethod == n.authMethod && reg.grantTypes == n.grantTypes
              && reg.responseTypes == n.responseTypes && reg.scope == n.scope && reg.jwks == n.jwks
                  && reg.jwksURI == n.jwksURI
  {
    hide Normalize;
  }

  // ---------------------------------------------------------------- cache lifetime

  const MIN_TTL: int := 60 * SECOND
  const MAX_TTL: int := 86400 * SECOND
  const DEFAULT_TTL: int := 900 * SECOND

  const INT64_LIMIT: int := 0x8000_0000_0000_0000

  /** Two's-complement int64. */
  function Wrap64(n: int): (r: int)
    ensures -INT64_LIMIT <= r < INT64_LIMIT
    ensures -INT64_LIMIT <= n < INT64_LIMIT ==> r == n
  {
    (n + INT64_LIMIT) % (2 * INT64_LIMIT) - INT64_LIMIT
  }

  /** One Cache-Control directive; `seconds` is None when Atoi fails. */
  datatype Directive = Directive(isMaxAge: bool, seconds: Option<int>)

  predicate Usable(d: Directive) {
    d.isMaxAge && d.seconds.Some? && 0 < d.seconds.value
  }

  function Fallback(cfg: Config): (ttl: int)
    ensures ttl > 0
  {
    if cfg.metadataTTL <= 0 then DEFAULT_TTL else cfg.metadataTTL
  }

  function Clamp(ttl: int): int {
    var low := if ttl < MIN_TTL then MIN_TTL else ttl;
    if low > MAX_TTL then MAX_TTL else low
  }

  /** The lifetime the first usable max-age asks for, in int64 arithmetic. */
  function TtlFrom(cfg: Config, directives: seq<Directive>): int {
    if directives == [] then Fallback(cfg)
    else if Usable(directives[0]) then Clamp(Wrap64(directives[0].seconds.value * SECOND))
    else TtlFrom(cfg, directives[1..])
  }

  method ClientIDMetadataTTLFrom(cfg: Config, directives: seq<Directive>) returns (ttl: int)
    ensures ttl == TtlFrom(cfg, directives)
  {
    var fallback := cfg.metadataTTL;
    if fallback <= 0 { fallback := DEFAULT_TTL; }
    for i := 0 to |directives|
      invariant TtlFrom(cfg, directives) == TtlFrom(cfg, directives[i..])
    {
      if !directives[i].isMaxAge { continue; }
      if directives[i].seconds.None? || directives[i].seconds.value <= 0 { continue; }
      return Clamp(Wrap64(directives[i].seconds.value * SECOND));
    }
    return fallback;
  }

  function MaxAge(cfg: Config): int {
    if Fallback(cfg) > MAX_TTL then Fallback(cfg) else MAX_TTL
  }

  /** No header, however hostile, makes a document live longer than a day or the
      configured fallback, or for no time at all - wrap-around included. */
  lemma {:induction false} TtlBounds(cfg: Config, directives: seq<Directive>)
    ensures 0 < TtlFrom(cfg, directives) <= MaxAge(cfg)
    ensures (exists i :: 0 <= i < |directives| && Usable(directives[i]))
              ==> MIN_TTL <= TtlFrom(cfg, directives) <= MAX_TTL
    ensures (forall i :: 0 <= i < |directives| ==> !Usable(directives[i])) ==> TtlFrom(cfg, directives) == Fallback(cfg)
  {
    if directives != [] && !Usable(directives[0]) {
      TtlBounds(cfg, directives[1..]);
      if i :| 0 <= i < |directives| && Usable(directives[i]) {
        assert Usable(directives[1..][i - 1]);
      }
    }
  }

  /** The first usable max-age decides; directives before it that cannot be used do not. */
  lemma {:induction false} TtlFirstUsable(cfg: Config, directives: seq<Directive>, i: nat)
    requires i < |directives| && Usable(directives[i])
    requires forall j :: 0 <= j < i ==> !Usable(directives[j])
    ensures TtlFrom(cfg, directives) == Clamp(Wrap64(directives[i].seconds.value * SECOND))
  {
    if i > 0 { TtlFirstUsable(cfg, directives[1..], i - 1); }
  }

  /** The lifetime a header gives, in seconds and said out: that of its first usable max-age, no less
      than a minute and no more than a day, as long as int64 holds it. */
  lemma TtlExactly(cfg: Config, directives: seq<Directive>, i: nat)
    requires i < |directives| && Usable(directives[i])
    requires forall j :: 0 <= j < i ==> !Usable(directives[j])
    ensures var s, ttl := directives[i].seconds.value, TtlFrom(cfg, directives);
            && (s <= 60 ==> ttl == 60 * SECOND)
            && (60 <= s <= 86400 ==> ttl == s * SECOND)
            && (86400 <= s <= 9223372036 ==> ttl == 86400 * SECOND)
  {
    TtlFirstUsable(cfg, directives, i);
  }

  /** Without one it is the configured lifetime, or a quarter of an hour. */
  lemma TtlWithout(cfg: Config, directives: seq<Directive>)
    requires forall i :: 0 <= i < |directives| ==> !Usable(directives[i])
    ensures TtlFrom(cfg, directives) == if cfg.metadataTTL > 0 then cfg.metadataTTL else 900 * SECOND
  {
    TtlBounds(cfg, directives);
  }

  /** The wrap-around is harmless exactly when the product fits or wraps to a day or more. */
  lemma MaxAgeExactly(seconds: int)
    requires 0 < seconds < INT64_LIMIT
    ensures Clamp(Wrap64(seconds * SECOND)) == Clamp(seconds * SECOND)
            <==> seconds <= 9223372036 || MAX_TTL <= Wrap64(seconds * SECOND)
  {}

  /** One second past the limit, a request for three centuries is cached for one minute. */
  lemma MaxAgeWraps()
    ensures Clamp(Wrap64(9223372037 * SECOND)) == MIN_TTL && Clamp(9223372037 * SECOND) == MAX_TTL
  {}

  // ---------------------------------------------------------------- published keys

  /** Where the keys of a registration come from. */
  function SourceOf(reg: Registration): Option<KeySource> {
    if reg.jwks != "" then Some(Inline(reg.jwks))
    else if reg.jwksURI != "" then Some(Fetched(reg.jwksURI))
    else None
  }

  predicate Suitable(k: Jwk, kid: string, alg: string) {
    && (kid == "" || k.kid == kid)
    && (k.use == "" || k.use == "sig")
    && (k.alg == "" || k.alg == alg)
    && k.kind != OtherKey
  }

  /** The published keys an assertion with this header may be checked with, in order. */
  function Candidates(ks: seq<Jwk>, kid: string, alg: string): (out: seq<Jwk>)
    ensures forall k :: k in out <==> k in ks && Suitable(k, kid, alg)
  {
    if ks == [] then []
    else
      var front, last := ks[..|ks| - 1], ks[|ks| - 1];
      assert ks == front + [last];
      Candidates(front, kid, alg) + if Suitable(last, kid, alg) then [last] else []
  }

  /** verificationKeys: narrowed by kid first, then by use, algorithm and key type. */
  method VerificationKeys(ks: seq<Jwk>, kid: string, alg: string) returns (out: seq<Jwk>)
    ensures out == Candidates(ks, kid, alg)
  {
    out := [];
    for i := 0 to |ks|
      invariant out == Candidates(ks[..i], kid, alg)
    {
      assert ks[..i + 1][..i] == ks[..i];
      if kid != "" && ks[i].kid != kid { continue; }
      if ks[i].use != "" && ks[i].use != "sig" { continue; }
      if ks[i].alg != "" && ks[i].alg != alg { continue; }
      match ks[i].kind {
        case Rsa => out := out + [ks[i]];
        case Ec => out := out + [ks[i]];
        case OtherKey =>
      }
    }
    assert ks[..|ks|] == ks;
  }
}
