// What holds in every reachable world. Most of it is said of one item at a time - a
// stored request, a client session, a grant in flight - and depends on the history
// only through facts that never stop holding. Evolves collects those facts.
module Invariants {
  import opened Lists
  import opened Scopes
  import opened Claims
  import opened Registration
  import opened Idp
  import opened Documents
  import opened Replay
  import opened IdpState
  import opened Machine

  /** What net/url guarantees of Client Identifier URLs. */
  ghost predicate UrlsSane(cfg: Config) {
    !cfg.isURL("") && forall c :: cfg.isURL(c) ==> NulFree(c)
  }

  // ---------------------------------------------------------------- progress

  ghost predicate Extends<K(!new), V>(m: map<K, V>, m': map<K, V>) {
    forall k :: k in m ==> k in m' && m'[k] == m[k]
  }

  ghost predicate SameRegistrant(r: Registration, r': Registration) {
    && r'.registeredBy == r.registeredBy
    && (r.registeredBy == Dynamic ==> r' == r)
    && (r.registeredBy == MetadataDocument ==> r'.issuedAt == r.issuedAt)
  }

  ghost predicate ClientsEvolve(seen: set<string>, cs: map<string, Registration>, cs': map<string, Registration>) {
    && (forall c :: c in cs ==> c in cs' && SameRegistrant(cs[c], cs'[c]))
    && (forall c :: c in cs' && c !in cs && cs'[c].registeredBy == Dynamic ==> c !in seen)
  }

  /** Sessions stay dead, and die no earlier than now. */
  ghost predicate DeadEvolve(grants: nat, dead: map<string, nat>, dead': map<string, nat>) {
    Extends(dead, dead') && forall k :: k in dead' && k !in dead ==> grants <= dead'[k]
  }

  ghost predicate PastEvolves(seen: set<string>, p: Past, p': Past) {
    && p.received <= p'.received && p.done <= p'.done && p.logins <= p'.logins
    && Extends(p.asked, p'.asked) && Extends(p.registered, p'.registered)
    && (forall r :: r in p'.asked && r !in p.asked ==> r !in seen)
  }

  /** What never goes back, from one world to any later one. */
  ghost predicate Evolves(w: World, w': World) {
    && w.now <= w'.now
    && ClientsEvolve(w.seen, w.srv.clients, w'.srv.clients)
    && w.seen <= w'.seen
    && Extends(w.cookies, w'.cookies) && Extends(w.csids, w'.csids) && Extends(w.issued, w'.issued)
    && DeadEvolve(|w.granted|, w.dead, w'.dead) && w.granted <= w'.granted && w.approvals <= w'.approvals
    && w.consumed <= w'.consumed && w.sectors <= w'.sectors
    && w.fetched <= w'.fetched && w.stored <= w'.stored && w.minted <= w'.minted && w.redirects <= w'.redirects
    && w.accepted <= w'.accepted && w.responses <= w'.responses && PastEvolves(w.seen, w.past, w'.past)
  }

  lemma PastIdle(w: World)
    ensures PastEvolves(w.seen, w.past, w.past)
  {}

  lemma EvolvesTransitive(w0: World, w1: World, w2: World)
    requires Evolves(w0, w1) && Evolves(w1, w2)
    ensures Evolves(w0, w2)
  {}

  // ---------------------------------------------------------------- items

  /** Some document cached for this client lists this redirect URI. */
  ghost predicate Asserted(w: World, c: string, uri: string) {
    exists d :: d in w.stored && d.clientID == c && uri in d.reg.redirectURIs
  }

  /** Some document cached for this client asked for key authentication. */
  ghost predicate Keyed(w: World, c: string) {
    exists d :: d in w.stored && d.clientID == c && d.reg.authMethod == PrivateKeyJwt
  }

  ghost predicate RedirectAllowed(cfg: Config, w: World, c: string, uri: string) {
    && c in w.seen && (c == "" || c in w.srv.clients)
    && (c in w.srv.clients && w.srv.clients[c].registeredBy == Dynamic ==> uri in w.srv.clients[c].redirectURIs)
    && (cfg.isURL(c) ==> Asserted(w, c, uri))
  }

  ghost predicate PkceHeld(cfg: Config, w: World, c: string, challenge: string, how: PkceMethod) {
    PkceSupported(challenge, how) && (cfg.isURL(c) ==> challenge != "" || Keyed(w, c))
  }

  /** A client, redirect URI and challenge that passed resolveAuthorizeClient. */
  ghost predicate Admitted(cfg: Config, w: World, c: string, uri: string, challenge: string, how: PkceMethod) {
    RedirectAllowed(cfg, w, c, uri) && PkceHeld(cfg, w, c, challenge, how)
  }

  ghost predicate SubjectKnown(cfg: Config, w: World, sub: string, advertised: string) {
    exists sector :: sector in w.sectors && advertised == AdvertisedSub(cfg, sub, sector)
  }

  ghost predicate ClientSessionOk(cfg: Config, w: World, cookie: string, sub: string, cs: ClientSession) {
    && cs.sessionID != "" && cs.sessionID in w.csids && w.csids[cs.sessionID] == Owner(cookie, cs.clientID)
    && Admitted(cfg, w, cs.clientID, cs.redirectURI, cs.challenge, cs.challengeMethod)
    && SubjectKnown(cfg, w, sub, cs.advertisedSub)
  }

  ghost predicate SessionOk(cfg: Config, w: World, sess: Session) {
    && sess.cookieID in w.cookies && w.cookies[sess.cookieID] == sess.sub && IsSubject(sess.sub)
    && DistinctClients(sess.clientSessions)
    && (forall i :: 0 <= i < |sess.clientSessions| ==>
          ClientSessionOk(cfg, w, sess.cookieID, sess.sub, sess.clientSessions[i]))
  }

  ghost predicate ContextOk(cfg: Config, w: World, ctx: AuthContext) {
    Admitted(cfg, w, ctx.clientID, ctx.redirectURI, ctx.challenge, ctx.challengeMethod) && IsSubject(ctx.sub)
  }

  /** The request of someone, with nothing changed but the challenge method RFC 7636 section 4.3 implies. */
  ghost predicate Heard(w: World, req: Request) {
    exists raw :: raw in w.past.received
      && (req == raw || (raw.challenge != "" && raw.challengeMethod == NoMethod
          && req == raw.(challengeMethod := Plain)))
  }

  ghost predicate RequestOk(cfg: Config, w: World, req: Request) {
    Admitted(cfg, w, req.clientID, req.redirectURI, req.challenge, req.challengeMethod) && Heard(w, req)
  }

  /** A context says what this request asked for. */
  ghost predicate Asks(ctx: AuthContext, req: Request) {
    && ctx.clientID == req.clientID && ctx.scope == req.scope && ctx.redirectURI == req.redirectURI
    && ctx.state == req.state && ctx.nonce == req.nonce
    && ctx.challenge == req.challenge && ctx.challengeMethod == req.challengeMethod
  }

  ghost predicate AsksNothing(ctx: AuthContext) {
    && ctx.clientID == "" && ctx.scope == "" && ctx.redirectURI == "" && ctx.state == "" && ctx.nonce == ""
    && ctx.challenge == "" && ctx.challengeMethod == NoMethod
  }

  /** A context under a request id says what was asked under it - or nothing, if nothing was or it is
      approved already - and its user has logged in on it, if it has one. */
  ghost predicate FromRequest(w: World, r: string, ctx: AuthContext) {
    && r in w.seen
    && ((r in w.past.asked && Asks(ctx, w.past.asked[r])) || (AsksNothing(ctx)
        && (r !in w.past.asked || r in w.past.done)))
    && ((ctx.username == "" && ctx.sub == "")
        || (LoginRecord(r, ctx.username) in w.past.logins && ctx.sub == SUBJECT_PREFIX + ctx.username))
  }

  /** The user in a stored context is the last one to log in on it. */
  ghost predicate LastLoggedIn(w: World, r: string, ctx: AuthContext) {
    if r in w.past.lastLogin then ctx.username == w.past.lastLogin[r] && ctx.sub == SUBJECT_PREFIX + w.past.lastLogin[r]
    else ctx.username == "" && ctx.sub == ""
  }

  ghost predicate ContextHere(cfg: Config, w: World, r: string, ctx: AuthContext) {
    ContextOk(cfg, w, ctx) && FromRequest(w, r, ctx) && LastLoggedIn(w, r, ctx)
  }

  ghost predicate PastOk(w: World) {
    && w.past.asked.Keys <= w.seen && w.past.lastLogin.Keys <= w.seen && w.past.done <= w.seen
    && w.past.registered.Keys <= w.seen
    && forall r :: r in w.past.asked ==> Heard(w, w.past.asked[r])
  }

  /** A request on its way to resolveAuthorizeClient's checks. */
  ghost predicate RequestPending(w: World, req: Request) {
    req.clientID in w.seen && PkceSupported(req.challenge, req.challengeMethod) && Heard(w, req)
  }

  ghost predicate GrantOk(cfg: Config, w: World, g: Grant) {
    && g.csid in w.csids && w.csids[g.csid] == Owner(g.cookieID, g.clientID)
    && g.cookieID in w.cookies
    && SubjectKnown(cfg, w, w.cookies[g.cookieID], g.advertisedSub)
    && Csid in g.accessClaims && g.accessClaims[Csid] == Str(g.csid)
    && g.clientID in w.seen && (g.clientID == "" || g.clientID in w.srv.clients)
  }

  /** A token carries the server's own issuer, audience and client session. */
  ghost predicate TokenOk(cfg: Config, w: World, token: Token) {
    && token.csid in w.csids && w.csids[token.csid].cookie in w.cookies
    && Iss in token.claims && token.claims[Iss] == Str(cfg.externalURL)
    && Aud in token.claims
    && token.claims[Aud] == Strs(match token.kind
                                 case AccessKind => AccessAudience(cfg)
                                 case RefreshKind => [cfg.externalURL + "/token"]
                                 case IDKind => [w.csids[token.csid].clientID])
    && (!token.kind.IDKind? ==> StringClaim(token.claims, Csid) == token.csid)
  }

  ghost predicate OriginOk(cfg: Config, w: World, g: Grant, origin: Origin) {
    match origin
    case FromCode(code, challenge, how, verifier) =>
      && code in w.consumed && code in w.issued
      && w.issued[code].cookie == g.cookieID && w.issued[code].clientID == g.clientID
      && g.cookieID in w.cookies && w.issued[code].sub == w.cookies[g.cookieID]
      && PkceHeld(cfg, w, g.clientID, challenge, how)
      && PkceAccepts(cfg, challenge, how, verifier)
    case FromToken(token) => token in w.minted && StringClaim(token.claims, Csid) == g.csid
  }

  /** A grant from a session that is logged out was made before the logout. */
  ghost predicate SerialOk(w: World, ticket: Ticket) {
    && ticket.serial < |w.granted| && w.granted[ticket.serial] == ticket.g
    && (ticket.g.cookieID in w.dead ==> ticket.serial < w.dead[ticket.g.cookieID])
  }

  ghost predicate TicketOk(cfg: Config, w: World, ticket: Ticket) {
    GrantOk(cfg, w, ticket.g) && OriginOk(cfg, w, ticket.g, ticket.origin) && SerialOk(w, ticket)
  }

  ghost predicate BasisOk(cfg: Config, w: World, c: string, basis: Basis) {
    match basis
    case NoRegistration => c == ""
    case AutomaticClient(reg) => c in w.srv.clients && w.srv.clients[c].registeredBy == Automatic
    case DynamicClient(reg) => c in w.srv.clients && w.srv.clients[c] == reg && reg.registeredBy == Dynamic
    case FreshDocument(reg, storedAt, resolvedAt) =>
      && c in w.srv.clients && w.srv.clients[c].registeredBy == MetadataDocument
      && StoredDocument(c, reg, storedAt) in w.stored && DocumentRules(cfg, c, reg)
      && storedAt <= resolvedAt <= w.now && resolvedAt - storedAt < MaxAge(cfg)
    case StaleDocument(reg) =>
      c in w.srv.clients && w.srv.clients[c].registeredBy == MetadataDocument && reg.authMethod == NoAuth
  }

  /** A document of this client, at some time cached, names this key source. */
  ghost predicate Named(w: World, c: string, source: KeySource) {
    exists d :: d in w.stored && d.clientID == c && SourceOf(d.reg) == Some(source)
  }

  /** Keys the client published: a document of its own names their source, and they are what is
      there - the ones in the document itself, or what its key URL once answered with. */
  ghost predicate Published(cfg: Config, w: World, c: string, keys: KeySet) {
    && Named(w, c, keys.source)
    && match keys.source
       case Inline(jwks) => keys.keys == cfg.parseKeys(jwks)
       case Fetched(uri) => Fetch(uri, keys.keys) in w.fetched
  }

  /** The nine signature algorithms an assertion may be signed with. */
  predicate KnownAlgorithm(alg: string) {
    alg in {"RS256", "RS384", "RS512", "PS256", "PS384", "PS512", "ES256", "ES384", "ES512"}
  }

  /** This published key is the one that signed this assertion, and is meant for it. */
  predicate Vouches(k: Jwk, a: Assertion) {
    && k.key == a.signer
    && (a.kid == "" || k.kid == a.kid)
    && (k.use == "" || k.use == "sig")
    && (k.alg == "" || k.alg == a.alg)
    && (k.kind == Rsa || k.kind == Ec)
  }

  /** Everything RFC 7523 section 3 and this server ask of an assertion besides its signature. */
  predicate InOrder(cfg: Config, c: string, a: Assertion, now: int) {
    && KnownAlgorithm(a.alg)
    && a.iss == c && a.sub == c
    && (cfg.externalURL + "/token" in a.aud || cfg.externalURL in a.aud)
    && a.exp.Some? && now < a.exp.value + 60 * SECOND && a.exp.value <= now + 600 * SECOND
    && (a.notBefore.Some? ==> a.notBefore.value <= now + 60 * SECOND)
    && a.jti != ""
  }

  /** An assertion passes if and only if it is in order and a published key vouches for it. */
  lemma AssertionPassesExactly(cfg: Config, keys: seq<Jwk>, c: string, a: Assertion, now: int)
    ensures AssertionValid(cfg, keys, c, a, now) <==> InOrder(cfg, c, a, now) && exists k :: k in keys && Vouches(k, a)
  {
    if AssertionValid(cfg, keys, c, a, now) {
      var k :| k in Candidates(keys, a.kid, a.alg) && k.key == a.signer;
      assert k in keys && Vouches(k, a);
    }
    if k :| k in keys && Vouches(k, a) {
      assert k in Candidates(keys, a.kid, a.alg) && k.key == a.signer;
    }
  }

  /** The assertion was in order at this reading, and signed by a key its client published. */
  ghost predicate VerifiedWith(cfg: Config, w: World, c: string, a: Assertion, at: int) {
    InOrder(cfg, c, a, at) && exists keys, k :: Published(cfg, w, c, keys) && k in keys.keys && Vouches(k, a)
  }

  /** The presented credentials meet the registration they were checked against. */
  ghost predicate CredentialsMeet(cfg: Config, w: World, c: string, creds: Credentials, basis: Basis,
                                  proof: Option<nat>) {
    match basis
    case NoRegistration => true
    case AutomaticClient(_) => true
    case _ =>
      match basis.reg.authMethod
      case Unset => true
      case NoAuth => true
      case PrivateKeyJwt =>
        && creds.how == PrivateKeyJwt && proof.Some? && proof.value < |w.accepted|
        && creds.assertion.Some? && w.accepted[proof.value].clientID == c
        && w.accepted[proof.value].jti == creds.assertion.value.jti
        && creds.assertion.value.exp == Some(w.accepted[proof.value].exp)
        && VerifiedWith(cfg, w, c, creds.assertion.value, w.accepted[proof.value].verifiedAt)
      case how => creds.how == how && creds.clientID == c && creds.secret == basis.reg.secret && creds.secret != ""
  }

  ghost predicate AssertionPending(cfg: Config, w: World, ticket: Ticket, basis: Basis) {
    && TicketOk(cfg, w, ticket) && BasisOk(cfg, w, ticket.g.clientID, basis)
    && !basis.NoRegistration? && !basis.AutomaticClient? && basis.reg.authMethod == PrivateKeyJwt
    && ticket.creds.how == PrivateKeyJwt && ticket.creds.assertion.Some?
  }

  ghost predicate Authenticated(cfg: Config, w: World, ticket: Ticket, basis: Basis, proof: Option<nat>) {
    && TicketOk(cfg, w, ticket)
    && BasisOk(cfg, w, ticket.g.clientID, basis)
    && CredentialsMeet(cfg, w, ticket.g.clientID, ticket.creds, basis, proof)
    && (proof.Some? ==> proof.value < |w.accepted|)
  }

  ghost predicate ResponseOk(cfg: Config, w: World, r: Response) {
    Authenticated(cfg, w, r.ticket, r.basis, r.proof)
  }

  ghost predicate ContOk(cfg: Config, w: World, c: string, cont: Cont) {
    && cfg.isURL(c)
    && match cont
       case ForAuthorize(req) => req.clientID == c && RequestPending(w, req)
       case ForToken(ticket, known) =>
         && ticket.g.clientID == c && TicketOk(cfg, w, ticket)
         && c in w.srv.clients && (known.authMethod == NoAuth || known.authMethod == PrivateKeyJwt)
  }

  ghost predicate PcOk(cfg: Config, w: World, pc: PC) {
    match pc
    case Registering(req) => !cfg.isURL(req.clientID) && RequestPending(w, req)
    case Resolving(c, cont) => ContOk(cfg, w, c, cont)
    case Fetching(c, cont) => ContOk(cfg, w, c, cont)
    case Storing(c, reg, ttl, got, cont) =>
      && ContOk(cfg, w, c, cont) && DocumentRules(cfg, c, reg) && reg.issuedAt != 0 && c in w.seen
      && ttl == TtlFrom(cfg, got.header) && AsFetched(cfg, c, reg, got)
    case LookingUpSession(req) => RequestOk(cfg, w, req)
    case LookingUpHint(req, _) => RequestOk(cfg, w, req)
    case SavingContext(req) => RequestOk(cfg, w, req)
    case IssuingCode(sess, c, _, _) => SessionOk(cfg, w, sess) && c in w.seen
    case Approving(r, ctx, _, _) => ContextOk(cfg, w, ctx) && FromRequest(w, r, ctx)
    case CodeTaken(code, meta, _, _) =>
      && code in w.consumed && code in w.issued
      && meta == CodeMeta(w.issued[code].cookie, w.issued[code].clientID, w.issued[code].nonce)
    case Authenticating(ticket) => TicketOk(cfg, w, ticket)
    case FindingKeys(ticket, basis) => AssertionPending(cfg, w, ticket, basis)
    case FetchingKeys(ticket, basis) => AssertionPending(cfg, w, ticket, basis)
    case Verifying(ticket, basis, keys) => AssertionPending(cfg, w, ticket, basis)
        && Published(cfg, w, ticket.g.clientID, keys)
    case Consuming(ticket, basis, verifiedAt) =>
      && AssertionPending(cfg, w, ticket, basis) && verifiedAt <= w.now && ticket.creds.assertion.value.exp.Some?
      && ticket.creds.assertion.value.exp.value <= verifiedAt + MAX_LIFETIME
      && verifiedAt < ticket.creds.assertion.value.exp.value + LEEWAY
      && VerifiedWith(cfg, w, ticket.g.clientID, ticket.creds.assertion.value, verifiedAt)
    case Responding(ticket, basis, proof) => Authenticated(cfg, w, ticket, basis, proof)
  }

  /** The code a request in flight has taken out of circulation. */
  function CodeOf(pc: PC): Option<string> {
    match pc
    case CodeTaken(code, _, _, _) => Some(code)
    case Authenticating(ticket) => TicketCode(ticket)
    case Resolving(_, cont) => ContCode(cont)
    case Fetching(_, cont) => ContCode(cont)
    case Storing(_, _, _, _, cont) => ContCode(cont)
    case FindingKeys(ticket, _) => TicketCode(ticket)
    case FetchingKeys(ticket, _) => TicketCode(ticket)
    case Verifying(ticket, _, _) => TicketCode(ticket)
    case Consuming(ticket, _, _) => TicketCode(ticket)
    case Responding(ticket, _, _) => TicketCode(ticket)
    case _ => None
  }

  function TicketCode(ticket: Ticket): Option<string> {
    if ticket.origin.FromCode? then Some(ticket.origin.code) else None
  }

  function ContCode(cont: Cont): Option<string> {
    if cont.ForToken? then TicketCode(cont.ticket) else None
  }

  // ---------------------------------------------------------------- the whole world

  /** Every session ever created is either live or logged out for good. */
  ghost predicate SessionKeys(w: World) {
    && w.cookies.Keys <= w.seen && w.csids.Keys <= w.seen
    && w.cookies.Keys == w.dead.Keys + w.srv.sessions.Keys && w.dead.Keys !! w.srv.sessions.Keys
    && (forall c :: c in w.csids ==> w.csids[c].cookie in w.cookies)
  }

  ghost predicate SessionsInv(cfg: Config, w: World) {
    && SessionKeys(w)
    && (forall k :: k in w.srv.sessions ==> w.srv.sessions[k].cookieID == k && SessionOk(cfg, w, w.srv.sessions[k]))
    && (forall k, k' ::
          k in w.srv.sessions && k' in w.srv.sessions && w.srv.sessions[k].sub == w.srv.sessions[k'].sub ==> k == k')
  }

  ghost predicate ContextsInv(cfg: Config, w: World) {
    && PastOk(w)
    && (forall r :: r in w.srv.authContext ==> ContextHere(cfg, w, r, w.srv.authContext[r]))
    && (forall r :: r in w.past.asked ==> r in w.srv.authContext || r in w.past.done)
  }

  /** Codes ever issued: the live ones and the consumed ones, and no other. */
  ghost predicate CodesInv(w: World) {
    && w.issued.Keys <= w.seen
    && w.issued.Keys == w.srv.codeMeta.Keys + w.consumed && w.srv.codeMeta.Keys !! w.consumed
    && (forall c :: c in w.srv.codeMeta ==>
          w.srv.codeMeta[c] == CodeMeta(w.issued[c].cookie, w.issued[c].clientID, w.issued[c].nonce))
    && (forall c :: c in w.issued ==>
          && w.issued[c].cookie in w.cookies && w.issued[c].sub == w.cookies[w.issued[c].cookie]
          && w.issued[c].clientID in w.seen)
  }

  /** A dynamic registration is what was sent, normalized, with the server's own fields: the drawn
      secret, unless the client authenticates with nothing, for good. */
  ghost predicate AsRegistered(cfg: Config, reg: Registration, asked: Registered) {
    match Normalize(cfg.validURI, asked.raw, REGISTER_AUTH_METHODS, ClientSecretBasic)
    case Err(_) => false
    case Ok(n) =>
      && reg.registeredBy == Dynamic && reg.issuedAt == asked.at / SECOND
      && (reg.authMethod != NoAuth ==> reg.secret == asked.secret && reg.secretExpiresAt == Some(0))
      && (reg.authMethod == NoAuth ==> reg.secret == n.secret && reg.secretExpiresAt == n.secretExpiresAt)
      && SameMetadata(reg, n)
  }

  /** The same metadata, whatever the server's own fields say. */
  ghost predicate SameMetadata(reg: Registration, n: Registration) {
    && reg.redirectURIs == n.redirectURIs && reg.authMethod == n.authMethod && reg.grantTypes == n.grantTypes
    && reg.responseTypes == n.responseTypes && reg.scope == n.scope && reg.jwks == n.jwks && reg.jwksURI == n.jwksURI
  }

  /** A registration is what this document said when it came. */
  ghost predicate AsFetched(cfg: Config, c: string, reg: Registration, got: DocumentFetch) {
    && Validate(cfg, c, got.doc, got.at).Ok?
    && SameMetadata(reg, Validate(cfg, c, got.doc, got.at).value)
  }

  ghost predicate RegistrationOk(cfg: Config, w: World, c: string, reg: Registration) {
    && c in w.seen && c != ""
    && reg.clientID == c
    && (reg.registeredBy == MetadataDocument <==> cfg.isURL(c))
    && match reg.registeredBy
       case Unregistered => false
       case Automatic =>
         c in w.observed && w.observed[c] != [] && reg == ObserveAll(c, reg.issuedAt, w.observed[c])
       case Dynamic =>
         && Canonical(cfg.validURI, reg, REGISTER_AUTH_METHODS, ClientSecretBasic)
         && (reg.authMethod != NoAuth ==> reg.secret != "")
         && c in w.past.registered && AsRegistered(cfg, reg, w.past.registered[c])
       case MetadataDocument =>
         && DocumentRules(cfg, c, reg) && reg.issuedAt != 0
         && c in w.srv.metadata && w.srv.metadata[c].reg == reg
  }

  ghost predicate EntryOk(cfg: Config, w: World, c: string, entry: MetadataEntry) {
    && c in w.srv.clients && w.srv.clients[c].registeredBy == MetadataDocument
    && c in w.storedAt && w.storedAt[c] <= w.now
    && StoredDocument(c, entry.reg, w.storedAt[c]) in w.stored
    && c in w.past.documents && entry.expiresAt == w.storedAt[c] + TtlFrom(cfg, w.past.documents[c].header)
    && AsFetched(cfg, c, entry.reg, w.past.documents[c])
    && (entry.keys.Some? ==> Published(cfg, w, c, entry.keys.value))
  }

  ghost predicate RegistryInv(cfg: Config, w: World) {
    && (forall c :: c in w.srv.clients ==> RegistrationOk(cfg, w, c, w.srv.clients[c]))
    && (forall c :: c in w.srv.metadata ==> EntryOk(cfg, w, c, w.srv.metadata[c]))
  }

  ghost predicate ThreadsInv(cfg: Config, w: World) {
    forall t :: t in w.threads ==> PcOk(cfg, w, w.threads[t])
  }

  /** The acceptance a request about to be answered rests on. */
  function ProofOf(pc: PC): Option<nat> {
    if pc.Responding? then pc.proof else None
  }

  /** No acceptance is behind two requests, a request and a response, or two responses. */
  ghost predicate ProofsApart(threads: map<nat, PC>, responses: seq<Response>) {
    && (forall t, t' :: (t in threads && t' in threads && t != t' && ProofOf(threads[t]).Some?) ==>
          ProofOf(threads[t]) != ProofOf(threads[t']))
    && (forall i, t :: (0 <= i < |responses| && t in threads && responses[i].proof.Some?) ==>
          ProofOf(threads[t]) != responses[i].proof)
    && (forall i, j :: (0 <= i < j < |responses| && responses[i].proof.Some?) ==>
          responses[i].proof != responses[j].proof)
  }

  /** No code is with two requests, with a request and a response, or with two responses. */
  ghost predicate CodesApart(threads: map<nat, PC>, responses: seq<Response>) {
    && (forall t, t' :: (t in threads && t' in threads && t != t' && CodeOf(threads[t]).Some?) ==>
          CodeOf(threads[t]) != CodeOf(threads[t']))
    && (forall i, t :: (0 <= i < |responses| && t in threads && TicketCode(responses[i].ticket).Some?) ==>
          CodeOf(threads[t]) != TicketCode(responses[i].ticket))
    && (forall i, j :: (0 <= i < j < |responses| && TicketCode(responses[i].ticket).Some?) ==>
          TicketCode(responses[i].ticket) != TicketCode(responses[j].ticket))
  }

  ghost predicate OutputsInv(cfg: Config, w: World) {
    && (forall r :: r in w.redirects ==> RedirectAllowed(cfg, w, r.clientID, r.uri))
    && (forall token :: token in w.minted ==> TokenOk(cfg, w, token))
    && (forall i :: 0 <= i < |w.responses| ==>
          ResponseOk(cfg, w, w.responses[i]) && Given(cfg, w.responses[i]) <= w.minted)
  }

  /** Only documents lead to key authentication, and only an assertion still in time is consumed. */
  ghost predicate AcceptedOk(cfg: Config, accepted: seq<Acceptance>) {
    forall i :: 0 <= i < |accepted| ==>
      cfg.isURL(accepted[i].clientID) && accepted[i].verifiedAt < accepted[i].exp + LEEWAY
  }

  ghost predicate Inv(cfg: Config, w: World) {
    && SECOND <= w.now && "" in w.seen
    && SessionsInv(cfg, w)
    && ContextsInv(cfg, w)
    && CodesInv(w)
    && RegistryInv(cfg, w)
    && ThreadsInv(cfg, w) && CodesApart(w.threads, w.responses) && ProofsApart(w.threads, w.responses)
    && OutputsInv(cfg, w)
    && ReplayInv(w.srv.jtis, w.accepted, w.now) && AcceptedOk(cfg, w.accepted)
  }

  // ---------------------------------------------------------------- items outlive steps

  lemma RedirectLasts(cfg: Config, w: World, w': World, c: string, uri: string)
    requires Evolves(w, w') && RedirectAllowed(cfg, w, c, uri)
    ensures RedirectAllowed(cfg, w', c, uri)
  {
    if cfg.isURL(c) {
      var d :| d in w.stored && d.clientID == c && uri in d.reg.redirectURIs;
      assert d in w'.stored;
    }
  }

  lemma PkceLasts(cfg: Config, w: World, w': World, c: string, challenge: string, how: PkceMethod)
    requires Evolves(w, w') && PkceHeld(cfg, w, c, challenge, how)
    ensures PkceHeld(cfg, w', c, challenge, how)
  {
    if cfg.isURL(c) && challenge == "" {
      var d :| d in w.stored && d.clientID == c && d.reg.authMethod == PrivateKeyJwt;
      assert d in w'.stored;
    }
  }

  lemma AdmittedLasts(cfg: Config, w: World, w': World, c: string, uri: string, challenge: string, how: PkceMethod)
    requires Evolves(w, w') && Admitted(cfg, w, c, uri, challenge, how)
    ensures Admitted(cfg, w', c, uri, challenge, how)
  {
    RedirectLasts(cfg, w, w', c, uri);
    PkceLasts(cfg, w, w', c, challenge, how);
  }

  lemma HeardLasts(w: World, w': World, req: Request)
    requires Evolves(w, w') && Heard(w, req)
    ensures Heard(w', req)
  {
    var raw :| raw in w.past.received
      && (req == raw || (raw.challenge != "" && raw.challengeMethod == NoMethod
          && req == raw.(challengeMethod := Plain)));
    assert raw in w'.past.received;
  }

  lemma RequestLasts(cfg: Config, w: World, w': World, req: Request)
    requires Evolves(w, w') && RequestOk(cfg, w, req)
    ensures RequestOk(cfg, w', req)
  {
    hide Evolves, Admitted, Heard;
    AdmittedLasts(cfg, w, w', req.clientID, req.redirectURI, req.challenge, req.challengeMethod);
    HeardLasts(w, w', req);
  }

  lemma FromRequestLasts(w: World, w': World, r: string, ctx: AuthContext)
    requires Evolves(w, w') && FromRequest(w, r, ctx)
    ensures FromRequest(w', r, ctx)
  {}

  /** What a step of one request leaves true for every other. */
  lemma SeenLasts(w: World, w': World)
    requires Evolves(w, w')
    ensures w.seen <= w'.seen && w.now <= w'.now && w.consumed <= w'.consumed && Extends(w.issued, w'.issued)
    ensures w.stored <= w'.stored && w.fetched <= w'.fetched
    ensures forall c :: c in w.srv.clients ==> c in w'.srv.clients
  {}

  lemma SubjectLasts(cfg: Config, w: World, w': World, sub: string, advertised: string)
    requires w.sectors <= w'.sectors && SubjectKnown(cfg, w, sub, advertised)
    ensures SubjectKnown(cfg, w', sub, advertised)
  {
    var sector :| sector in w.sectors && advertised == AdvertisedSub(cfg, sub, sector);
    assert sector in w'.sectors;
  }

  lemma SessionLasts(cfg: Config, w: World, w': World, sess: Session)
    requires Evolves(w, w') && SessionOk(cfg, w, sess)
    ensures SessionOk(cfg, w', sess)
  {
    forall i | 0 <= i < |sess.clientSessions|
      ensures ClientSessionOk(cfg, w', sess.cookieID, sess.sub, sess.clientSessions[i])
    {
      var cs := sess.clientSessions[i];
      assert ClientSessionOk(cfg, w, sess.cookieID, sess.sub, cs);
      AdmittedLasts(cfg, w, w', cs.clientID, cs.redirectURI, cs.challenge, cs.challengeMethod);
      SubjectLasts(cfg, w, w', sess.sub, cs.advertisedSub);
    }
  }

  lemma TicketLasts(cfg: Config, w: World, w': World, ticket: Ticket)
    requires Evolves(w, w') && TicketOk(cfg, w, ticket)
    ensures TicketOk(cfg, w', ticket)
  {
    SubjectLasts(cfg, w, w', w.cookies[ticket.g.cookieID], ticket.g.advertisedSub);
    match ticket.origin
    case FromCode(code, challenge, how, verifier) => PkceLasts(cfg, w, w', ticket.g.clientID, challenge, how);
    case FromToken(_) =>
  }

  lemma BasisLasts(cfg: Config, w: World, w': World, c: string, basis: Basis)
    requires Evolves(w, w') && BasisOk(cfg, w, c, basis)
    ensures BasisOk(cfg, w', c, basis)
  {}

  lemma PublishedLasts(cfg: Config, w: World, w': World, c: string, keys: KeySet)
    requires w.stored <= w'.stored && w.fetched <= w'.fetched && Published(cfg, w, c, keys)
    ensures Published(cfg, w', c, keys)
  {
    var d :| d in w.stored && d.clientID == c && SourceOf(d.reg) == Some(keys.source);
    assert d in w'.stored;
  }

  lemma VerifiedLasts(cfg: Config, w: World, w': World, c: string, a: Assertion, at: int)
    requires w.stored <= w'.stored && w.fetched <= w'.fetched && VerifiedWith(cfg, w, c, a, at)
    ensures VerifiedWith(cfg, w', c, a, at)
  {
    hide InOrder, Vouches, Published;
    var keys, k :| Published(cfg, w, c, keys) && k in keys.keys && Vouches(k, a);
    PublishedLasts(cfg, w, w', c, keys);
  }

  /** A cached document that is left alone stays good. */
  lemma EntryLasts(cfg: Config, w: World, w': World, c: string, entry: MetadataEntry)
    requires Evolves(w, w') && EntryOk(cfg, w, c, entry) && c in w'.storedAt && w'.storedAt[c] == w.storedAt[c]
    requires c in w'.past.documents && w'.past.documents[c] == w.past.documents[c]
    ensures EntryOk(cfg, w', c, entry)
  {
    hide Published, AsFetched, TtlFrom;
    if entry.keys.Some? { PublishedLasts(cfg, w, w', c, entry.keys.value); }
  }

  lemma CredentialsLast(cfg: Config, w: World, w': World, c: string, creds: Credentials, basis: Basis,
                        proof: Option<nat>)
    requires w.accepted <= w'.accepted && w.stored <= w'.stored && w.fetched <= w'.fetched
    requires CredentialsMeet(cfg, w, c, creds, basis, proof)
    ensures CredentialsMeet(cfg, w', c, creds, basis, proof)
  {
    hide VerifiedWith;
    if !basis.NoRegistration? && !basis.AutomaticClient? && basis.reg.authMethod == PrivateKeyJwt {
      VerifiedLasts(cfg, w, w', c, creds.assertion.value, w.accepted[proof.value].verifiedAt);
    }
  }

  lemma ContLasts(cfg: Config, w: World, w': World, c: string, cont: Cont)
    requires Evolves(w, w') && ContOk(cfg, w, c, cont)
    ensures ContOk(cfg, w', c, cont)
  {
    hide Heard, TicketOk, Evolves;
    SeenLasts(w, w');
    match cont
    case ForAuthorize(req) => HeardLasts(w, w', req);
    case ForToken(ticket, _) => TicketLasts(cfg, w, w', ticket);
  }

  lemma AuthenticatedLasts(cfg: Config, w: World, w': World, ticket: Ticket, basis: Basis, proof: Option<nat>)
    requires Evolves(w, w') && Authenticated(cfg, w, ticket, basis, proof)
    ensures Authenticated(cfg, w', ticket, basis, proof)
  {
    TicketLasts(cfg, w, w', ticket);
    BasisLasts(cfg, w, w', ticket.g.clientID, basis);
    CredentialsLast(cfg, w, w', ticket.g.clientID, ticket.creds, basis, proof);
  }

  lemma PendingLasts(cfg: Config, w: World, w': World, ticket: Ticket, basis: Basis)
    requires Evolves(w, w') && AssertionPending(cfg, w, ticket, basis)
    ensures AssertionPending(cfg, w', ticket, basis)
  {
    TicketLasts(cfg, w, w', ticket);
    BasisLasts(cfg, w, w', ticket.g.clientID, basis);
  }

  lemma PcLasts(cfg: Config, w: World, w': World, pc: PC)
    requires Evolves(w, w') && PcOk(cfg, w, pc)
    ensures PcOk(cfg, w', pc)
  {
    hide ContOk, SessionOk, TicketOk, AssertionPending, Authenticated, Admitted, DocumentRules, Published, VerifiedWith;
    hide Heard, FromRequest, AsFetched, Evolves;
    SeenLasts(w, w');
    match pc
    case Registering(req) => HeardLasts(w, w', req);
    case Resolving(c, cont) => ContLasts(cfg, w, w', c, cont);
    case Fetching(c, cont) => ContLasts(cfg, w, w', c, cont);
    case Storing(c, _, _, _, cont) => ContLasts(cfg, w, w', c, cont);
    case LookingUpSession(req) => RequestLasts(cfg, w, w', req);
    case LookingUpHint(req, _) => RequestLasts(cfg, w, w', req);
    case SavingContext(req) => RequestLasts(cfg, w, w', req);
    case IssuingCode(sess, _, _, _) => SessionLasts(cfg, w, w', sess);
    case Approving(r, ctx, _, _) =>
      AdmittedLasts(cfg, w, w', ctx.clientID, ctx.redirectURI, ctx.challenge, ctx.challengeMethod);
      FromRequestLasts(w, w', r, ctx);
    case CodeTaken(_, _, _, _) =>
    case Authenticating(ticket) => TicketLasts(cfg, w, w', ticket);
    case FindingKeys(ticket, basis) => PendingLasts(cfg, w, w', ticket, basis);
    case FetchingKeys(ticket, basis) => PendingLasts(cfg, w, w', ticket, basis);
    case Verifying(ticket, basis, keys) =>
      PendingLasts(cfg, w, w', ticket, basis);
      PublishedLasts(cfg, w, w', ticket.g.clientID, keys);
    case Consuming(ticket, basis, at) =>
      PendingLasts(cfg, w, w', ticket, basis);
      VerifiedLasts(cfg, w, w', ticket.g.clientID, ticket.creds.assertion.value, at);
    case Responding(ticket, basis, proof) => AuthenticatedLasts(cfg, w, w', ticket, basis, proof);
  }
}
