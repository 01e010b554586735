// The identity provider's shared state, and the effect of each critical section on it.
module IdpState {
  import opened Lists
  import opened Scopes
  import opened Claims
  import opened Registration
  import opened Idp
  import opened Documents
  import opened Replay

  datatype State = State(
    authContext: map<string, AuthContext>,
    codeMeta: map<string, CodeMeta>,
    sessions: map<string, Session>,
    clients: map<string, Registration>,
    metadata: map<string, MetadataEntry>,
    jtis: map<string, int>)

  const EMPTY_STATE := State(map[], map[], map[], map[], map[], map[])

  // ---------------------------------------------------------------- clients

  /** What /register stores: every server-controlled field is the server's. */
  function NewDynamic(reg: Registration, id: string, secret: string, now: int): Registration {
    var reg := reg.(clientID := id, issuedAt := now / SECOND, registeredBy := Dynamic);
    if reg.authMethod == NoAuth then reg else reg.(secret := secret, secretExpiresAt := Some(0))
  }

  function PutClient(s: State, reg: Registration): State {
    s.(clients := s.clients[reg.clientID := reg])
  }

  /** registerClientLocked */
  function SeeClient(s: State, clientID: string, o: Observation, now: int): State {
    if clientID == "" || (clientID in s.clients && s.clients[clientID].registeredBy != Automatic) then s
    else
      var reg := if clientID in s.clients then s.clients[clientID] else FirstSight(clientID, now / SECOND);
      s.(clients := s.clients[clientID := Observe(reg, o)])
  }

  /** The issue time a re-fetched document keeps. */
  function KeepIssueTime(s: State, clientID: string, reg: Registration): Registration {
    if clientID in s.clients && s.clients[clientID].registeredBy == MetadataDocument
        && s.clients[clientID].issuedAt != 0
    then reg.(issuedAt := s.clients[clientID].issuedAt) else reg
  }

  /** The storing half of resolveClientIDMetadata. */
  function StoreDocument(s: State, clientID: string, reg: Registration, ttl: int, now: int): State {
    var reg := KeepIssueTime(s, clientID, reg);
    s.(metadata := s.metadata[clientID := MetadataEntry(reg, None, now + ttl)],
       clients := s.clients[clientID := reg])
  }

  predicate Live(s: State, clientID: string, now: int) {
    clientID in s.metadata && now < s.metadata[clientID].expiresAt
  }

  /** The writing half of clientKeySet: onto whichever entry is live. */
  function PutKeys(s: State, clientID: string, keys: KeySet, now: int): State {
    if Live(s, clientID, now)
    then s.(metadata := s.metadata[clientID := s.metadata[clientID].(keys := Some(keys))]) else s
  }

  // ---------------------------------------------------------------- logins and codes

  function PutContext(s: State, reqID: string, ctx: AuthContext): State {
    s.(authContext := s.authContext[reqID := ctx])
  }

  /** login: an unknown request ID starts from Go's zero value. */
  function LoginContext(s: State, reqID: string, username: string): AuthContext {
    var ctx := if reqID in s.authContext then s.authContext[reqID] else ZERO_CONTEXT;
    ctx.(username := username, sub := InternalSub(username))
  }

  function TouchSession(s: State, key: string, clientID: string, challenge: string, challengeMethod: PkceMethod,
                        redirectURI: string): State
    requires key in s.sessions
  {
    s.(sessions := s.sessions[key := Touch(s.sessions[key], clientID, challenge, challengeMethod, redirectURI)])
  }

  function BaseSession(s: State, ctx: AuthContext, found: Option<string>, cookie: string): Session
    requires found.Some? ==> found.value in s.sessions
  {
    if found.Some? then s.sessions[found.value] else Session(ctx.username, ctx.sub, cookie, [])
  }

  /** The csid an approval uses: the one this client already has in this session, or a new one. */
  function CsidFor(sess: Session, clientID: string, drawn: string): string {
    var i := FindClient(sess.clientSessions, clientID);
    if i < |sess.clientSessions| && sess.clientSessions[i].sessionID != "" then sess.clientSessions[i].sessionID
        else drawn
  }

  function ApprovedClient(cfg: Config, ctx: AuthContext, csid: string, idc: Option<ClaimSet>,
                          acc: Option<ClaimSet>): ClientSession {
    ClientSession(csid, ctx.clientID, AdvertisedSub(cfg, ctx.sub, cfg.sector(ctx.redirectURI, ctx.clientID)), ctx.scope,
                  ctx.redirectURI, ctx.challenge, ctx.challengeMethod, idc, acc, None)
  }

  /** The session as the second critical section of approve leaves it. */
  function ApprovedSession(cfg: Config, s: State, ctx: AuthContext, found: Option<string>, cookie: string, csid: string,
                           idc: Option<ClaimSet>, acc: Option<ClaimSet>): Session
    requires found.Some? ==> found.value in s.sessions
  {
    var base := BaseSession(s, ctx, found, cookie);
    base.(clientSessions := Upsert(base.clientSessions,
                                   ApprovedClient(cfg, ctx, CsidFor(base, ctx.clientID, csid), idc, acc)))
  }

  function CommitApproval(s: State, reqID: string, sess: Session): State {
    s.(authContext := s.authContext - {reqID}, sessions := s.sessions[sess.cookieID := sess])
  }

  function PutCode(s: State, code: string, sess: Session, clientID: string, nonce: string): State {
    s.(codeMeta := s.codeMeta[code := CodeMeta(sess.cookieID, clientID, nonce)])
  }

  function TakeCode(s: State, code: string): State {
    s.(codeMeta := s.codeMeta - {code})
  }

  function DropSession(s: State, cookieID: string): State {
    s.(sessions := s.sessions - {cookieID})
  }

  // ---------------------------------------------------------------- token grants

  /** The locals of a token request once its grant is established. */
  datatype Grant = Grant(
    cookieID: string,
    clientID: string,
    csid: string,
    advertisedSub: string,
    scope: string,
    idTokenClaims: ClaimSet,
    accessClaims: ClaimSet)

  function DefaultIDTokenClaims(cfg: Config, sess: Session, cs: ClientSession, nonce: string): ClaimSet {
    map[Sub := Str(AdvertisedSub(cfg, sess.sub, cfg.sector(cs.redirectURI, cs.clientID))), Azp := Str(cs.clientID)]
    + (if nonce == "" then map[] else map[Nonce := Str(nonce)])
    + (if HasScope(cs.scope, "profile")
       then map[FullName := Str(cfg.displayName(sess.username)), PreferredUsername := Str(sess.username),
                Picture := Str(cfg.picture(sess.username))]
       else map[])
    + (if sess.username != "" && HasScope(cs.scope, "email")
       then map[Email := Str(cfg.email(sess.username)), EmailVerified := Flag(true)] else map[])
  }

  function DefaultAccessTokenClaims(scope: string): ClaimSet {
    map[TokenUse := Str("access"), ScopeClaim := Str(scope)]
  }

  function GrantOf(cfg: Config, key: string, sess: Session, cs: ClientSession, nonce: string): Grant {
    Grant(key, cs.clientID, cs.sessionID, cs.advertisedSub, cs.scope,
          if cs.idTokenClaims.Some? then cs.idTokenClaims.value else DefaultIDTokenClaims(cfg, sess, cs, nonce),
          (if cs.accessTokenClaims.Some? then cs.accessTokenClaims.value else DefaultAccessTokenClaims(cs.scope))
            [Csid := Str(cs.sessionID)])
  }

  /** A Go map is shared, not copied: setting csid in a grant's access claims also sets
      it in the session's stored claims, when there are any. */
  function StampCsid(cs: ClientSession): ClientSession {
    if cs.accessTokenClaims.Some?
    then cs.(accessTokenClaims := Some(cs.accessTokenClaims.value[Csid := Str(cs.sessionID)])) else cs
  }

  function StampSession(s: State, key: string, i: nat): State
    requires key in s.sessions && i < |s.sessions[key].clientSessions|
  {
    var sess := s.sessions[key];
    var stamped := sess.clientSessions[i := StampCsid(sess.clientSessions[i])];
    s.(sessions := s.sessions[key := sess.(clientSessions := stamped)])
  }

  /** The PKCE switch of the token endpoint. */
  predicate PkceAccepts(cfg: Config, challenge: string, challengeMethod: PkceMethod, verifier: string) {
    challenge == "" ||
    match challengeMethod
    case Plain => verifier == challenge
    case S256 => cfg.s256(verifier) == challenge
    case _ => false
  }

  datatype Issued = Issued(access: ClaimSet, refresh: Option<ClaimSet>, id: Option<ClaimSet>)

  function AccessAudience(cfg: Config): seq<string> {
    Dedupe([cfg.externalURL + "/userinfo"] + cfg.extraAudiences)
  }

  /** The tokens of one response. */
  function IssueFor(cfg: Config, g: Grant, now: int): Issued {
    Issued(
      Sign(cfg.externalURL, g.advertisedSub, AccessAudience(cfg), g.accessClaims, now,
          now + cfg.accessLifetime * SECOND),
      if HasScope(g.scope, "offline_access")
      then Some(Sign(cfg.externalURL, g.advertisedSub, [cfg.externalURL + "/token"],
                     map[TokenUse := Str("refresh"), Csid := Str(g.csid)], now, now + cfg.refreshLifetime * SECOND))
      else None,
      if HasScope(g.scope, "openid")
      then Some(Sign(cfg.externalURL, g.advertisedSub, [g.clientID], g.idTokenClaims, now, now + 3600 * SECOND))
      else None)
  }

  function MapRemembered(c: Option<ClaimSet>): Option<ClaimSet> {
    if c.Some? then Some(Remembered(c.value)) else None
  }

  function WithIssued(cs: ClientSession, g: Grant, issued: Issued): ClientSession {
    cs.(advertisedSub := g.advertisedSub,
        accessTokenClaims := Some(Remembered(issued.access)),
        refreshTokenClaims := MapRemembered(issued.refresh),
        idTokenClaims := if issued.id.Some? then MapRemembered(issued.id) else cs.idTokenClaims)
  }

  /** The last critical section of token. */
  function StoreIssued(s: State, g: Grant, issued: Issued): State {
    if g.cookieID !in s.sessions then s
    else
      var sess := s.sessions[g.cookieID];
      var i := FindCsid(sess.clientSessions, g.csid);
      if i == |sess.clientSessions| then s
      else s.(sessions := s.sessions[g.cookieID :=
                sess.(clientSessions := sess.clientSessions[i := WithIssued(sess.clientSessions[i], g, issued)])])
  }

  // ---------------------------------------------------------------- client authentication

  datatype Assertion = Assertion(
    kid: string,
    alg: string,
    signer: string,            // the key that made the signature
    iss: string,
    sub: string,
    aud: seq<string>,
    exp: Option<int>,
    notBefore: Option<int>,
    jti: string)

  datatype Credentials = Credentials(clientID: string, secret: string, how: AuthMethod, assertion: Option<Assertion>)

  datatype Decision = Admit | Deny | NeedsAssertion

  /** authenticateClient once the registration to hold the client to is known. */
  function Decide(reg: Registration, clientID: string, creds: Credentials): Decision {
    if reg.authMethod == Unset || reg.authMethod == NoAuth then Admit
    else if creds.how != reg.authMethod then Deny
    else if reg.authMethod == PrivateKeyJwt then
      if creds.clientID != "" && creds.clientID != clientID then Deny
      else if creds.assertion.None? then Deny else NeedsAssertion
    else if creds.clientID != clientID then Deny
    else if reg.secret == "" then Deny
    else if creds.secret == reg.secret then Admit else Deny
  }

  const ASSERTION_ALGORITHMS: seq<string> :=
    ["RS256", "RS384", "RS512", "PS256", "PS384", "PS512", "ES256", "ES384", "ES512"]

  /** An ideal signature check: some suitable published key made the signature. */
  predicate Signed(keys: seq<Jwk>, a: Assertion) {
    exists k :: k in Candidates(keys, a.kid, a.alg) && k.key == a.signer
  }

  /** The checks of verifyPrivateKeyJWT before the jti is consumed. */
  predicate AssertionValid(cfg: Config, keys: seq<Jwk>, clientID: string, a: Assertion, now: int) {
    && a.alg in ASSERTION_ALGORITHMS
    && Signed(keys, a)
    && a.exp.Some? && now < a.exp.value + LEEWAY
    && (a.notBefore.Some? ==> a.notBefore.value - LEEWAY <= now)
    && a.iss == clientID && a.sub == clientID
    && (cfg.externalURL + "/token" in a.aud || cfg.externalURL in a.aud)
    && a.exp.value <= now + MAX_LIFETIME
    && a.jti != ""
  }
}
