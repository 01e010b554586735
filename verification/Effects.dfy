// What the steps come to, said without the functions that compute it: what an issued token
// says, when a registration, a pending login, a cached document or an assertion is what.
module Effects {
  import opened Lists
  import opened Scopes
  import opened Claims
  import opened Registration
  import opened Idp
  import opened Documents
  import opened Replay
  import opened IdpState
  import opened Machine
  import opened Invariants
  import opened Steps
  import opened TokenSteps
  import opened Theorems

  // ---------------------------------------------------------------- tokens

  function Lifetime(cfg: Config, kind: Kind): int {
    match kind
    case AccessKind => cfg.accessLifetime
    case RefreshKind => cfg.refreshLifetime
    case IDKind => 3600
  }

  /** The claims a token of this kind starts from. */
  function Basic(g: Grant, kind: Kind): ClaimSet {
    match kind
    case AccessKind => g.accessClaims
    case RefreshKind => map[TokenUse := Str("refresh"), Csid := Str(g.csid)]
    case IDKind => g.idTokenClaims
  }

  /** Every token given out says when it was issued and until when it is good, names the subject its
      claims were edited to or else the advertised one, keeps every other claim it started from and
      adds none but the server's own. */
  lemma TokenContents(cfg: Config, w: World, n: nat, token: Token)
    requires UrlsSane(cfg) && Reachable(cfg, w) && n < |w.responses| && token in Given(cfg, w.responses[n])
    ensures var r, said, base := w.responses[n], token.claims, Basic(w.responses[n].ticket.g, token.kind);
            && token in w.minted
            && Iat in said && said[Iat] == Num(r.at / SECOND)
            && Exp in said && said[Exp] == Num(r.at / SECOND + Lifetime(cfg, token.kind))
            && Sub in said && said[Sub] == (if Sub in base then base[Sub] else Str(r.ticket.g.advertisedSub))
            && (forall c :: c in base && c !in {Iss, Aud, Iat, Exp} ==> c in said && said[c] == base[c])
            && (forall c :: c in said ==> c in base || c in {Sub, Iss, Aud, Iat, Exp})
  {
    hide Inv, Reachable, UrlsSane, AccessAudience, HasScope;
    ReachableOk(cfg, w);
    GivenMinted(cfg, w, n);
    var at := w.responses[n].at;
    forall s: int ensures (at + s * SECOND) / SECOND == at / SECOND + s {}
  }

  lemma GivenMinted(cfg: Config, w: World, n: nat)
    requires Inv(cfg, w) && n < |w.responses|
    ensures Given(cfg, w.responses[n]) <= w.minted
  {
    hide Given, ResponseOk;
  }

  /** One access token in every answer, one refresh token if and only if offline_access was granted,
      one ID token if and only if openid was, and nothing else. */
  lemma TokensGiven(cfg: Config, r: Response)
    ensures var given := Given(cfg, r);
            && (exists token :: token in given && token.kind == AccessKind)
            && ((exists token :: token in given && token.kind == RefreshKind)
                <==> HasScope(r.ticket.g.scope, "offline_access"))
            && ((exists token :: token in given && token.kind == IDKind) <==> HasScope(r.ticket.g.scope, "openid"))
            && (forall a, b :: a in given && b in given && a.kind == b.kind ==> a == b)
            && (forall token :: token in given ==> token.csid == r.ticket.g.csid)
  {
    hide HasScope, Sign;
    var issued := IssueFor(cfg, r.ticket.g, r.at);
    assert Token(AccessKind, issued.access, r.ticket.g.csid) in Given(cfg, r);
    if issued.refresh.Some? { assert Token(RefreshKind, issued.refresh.value, r.ticket.g.csid) in Given(cfg, r); }
    if issued.id.Some? { assert Token(IDKind, issued.id.value, r.ticket.g.csid) in Given(cfg, r); }
  }

  /** What is kept of a token is all of it but the time of issue. */
  lemma RememberedExactly(signed: ClaimSet, c: Name)
    ensures c in Remembered(signed) <==> c in signed && c != Iat
    ensures c in Remembered(signed) ==> Remembered(signed)[c] == signed[c]
  {}

  /** The claims a login offers to approve, and a grant falls back to: subject and client always, the
      nonce of the request if it had one, name and address if asked for and to be had. */
  lemma DefaultClaims(cfg: Config, key: string, sess: Session, cs: ClientSession, nonce: string)
    requires cs.idTokenClaims.None? && cs.accessTokenClaims.None?
    ensures var g := GrantOf(cfg, key, sess, cs, nonce);
            var id, profile := g.idTokenClaims, HasScope(cs.scope, "profile");
            && Sub in id && id[Sub] == Str(AdvertisedSub(cfg, sess.sub, cfg.sector(cs.redirectURI, cs.clientID)))
            && Azp in id && id[Azp] == Str(cs.clientID)
            && (Nonce in id <==> nonce != "") && (Nonce in id ==> id[Nonce] == Str(nonce))
            && (FullName in id <==> profile) && (profile ==> id[FullName] == Str(cfg.displayName(sess.username)))
            && (PreferredUsername in id <==> profile) && (profile ==> id[PreferredUsername] == Str(sess.username))
            && (Picture in id <==> profile) && (profile ==> id[Picture] == Str(cfg.picture(sess.username)))
    ensures var g := GrantOf(cfg, key, sess, cs, nonce);
            var id, email := g.idTokenClaims, sess.username != "" && HasScope(cs.scope, "email");
            && (Email in id <==> email) && (email ==> id[Email] == Str(cfg.email(sess.username)))
            && (EmailVerified in id <==> email) && (email ==> id[EmailVerified] == Flag(true))
            && id.Keys <= {Sub, Azp, Nonce, FullName, PreferredUsername, Picture, Email, EmailVerified}
    ensures GrantOf(cfg, key, sess, cs, nonce).accessClaims
         == map[TokenUse := Str("access"), ScopeClaim := Str(cs.scope), Csid := Str(cs.sessionID)]
  {
    hide HasScope, AdvertisedSub, DefaultIDTokenClaims;
    DefaultNames(cfg, sess, cs, nonce);
    DefaultEmail(cfg, sess, cs, nonce);
  }

  lemma DefaultNames(cfg: Config, sess: Session, cs: ClientSession, nonce: string)
    ensures var id, profile := DefaultIDTokenClaims(cfg, sess, cs, nonce), HasScope(cs.scope, "profile");
            && Sub in id && id[Sub] == Str(AdvertisedSub(cfg, sess.sub, cfg.sector(cs.redirectURI, cs.clientID)))
            && Azp in id && id[Azp] == Str(cs.clientID)
            && (Nonce in id <==> nonce != "") && (Nonce in id ==> id[Nonce] == Str(nonce))
            && (FullName in id <==> profile) && (profile ==> id[FullName] == Str(cfg.displayName(sess.username)))
            && (PreferredUsername in id <==> profile) && (profile ==> id[PreferredUsername] == Str(sess.username))
            && (Picture in id <==> profile) && (profile ==> id[Picture] == Str(cfg.picture(sess.username)))
  {
    hide HasScope, AdvertisedSub;
  }

  lemma DefaultEmail(cfg: Config, sess: Session, cs: ClientSession, nonce: string)
    ensures var id, email := DefaultIDTokenClaims(cfg, sess, cs, nonce), sess.username != ""
              && HasScope(cs.scope, "email");
            && (Email in id <==> email) && (email ==> id[Email] == Str(cfg.email(sess.username)))
            && (EmailVerified in id <==> email) && (email ==> id[EmailVerified] == Flag(true))
            && id.Keys <= {Sub, Azp, Nonce, FullName, PreferredUsername, Picture, Email, EmailVerified}
  {
    hide HasScope, AdvertisedSub;
  }

  /** Claims on file are what a grant carries, with the csid put in for good. */
  lemma FiledClaims(cfg: Config, key: string, sess: Session, cs: ClientSession, nonce: string)
    ensures var g := GrantOf(cfg, key, sess, cs, nonce);
            && g.cookieID == key && g.clientID == cs.clientID && g.csid == cs.sessionID
            && g.advertisedSub == cs.advertisedSub && g.scope == cs.scope
            && (cs.idTokenClaims.Some? ==> g.idTokenClaims == cs.idTokenClaims.value)
            && Csid in g.accessClaims && g.accessClaims[Csid] == Str(cs.sessionID)
            && (cs.accessTokenClaims.Some? ==> forall c :: c != Csid ==>
                  (c in g.accessClaims <==> c in cs.accessTokenClaims.value)
                  && (c in g.accessClaims ==> g.accessClaims[c] == cs.accessTokenClaims.value[c]))
  {
    hide DefaultIDTokenClaims;
  }

  // ---------------------------------------------------------------- assertions

  /** A request goes on from verification if and only if its assertion is in order and one of the
      keys it holds vouches for it; otherwise it ends. */
  lemma VerifiedExactly(cfg: Config, w: World, t: nat)
    requires t in w.threads && w.threads[t].Verifying?
    ensures var pc, w' := w.threads[t], Verify(cfg, w, t);
            var passes := && pc.ticket.creds.assertion.Some?
                          && InOrder(cfg, pc.ticket.g.clientID, pc.ticket.creds.assertion.value, w.now)
                          && exists k :: k in pc.keys.keys && Vouches(k, pc.ticket.creds.assertion.value);
            && (t in w'.threads <==> passes)
            && (passes ==> w'.threads[t] == Consuming(pc.ticket, pc.basis, w.now))
  {
    hide AssertionValid, InOrder, Vouches;
    var pc := w.threads[t];
    if pc.ticket.creds.assertion.Some? {
      AssertionPassesExactly(cfg, pc.keys.keys, pc.ticket.g.clientID, pc.ticket.creds.assertion.value, w.now);
    }
  }

  /** An answer to a client whose document asks for keys, said out: the assertion shown was signed by
      a key the client had published, fit for it, and was in order at the reading it was verified at. */
  lemma KeyAnswersProven(cfg: Config, w: World, n: nat)
    requires UrlsSane(cfg) && Reachable(cfg, w) && n < |w.responses|
    requires w.responses[n].basis.FreshDocument? && w.responses[n].basis.reg.authMethod == PrivateKeyJwt
    ensures var r := w.responses[n];
            && r.proof.Some? && r.proof.value < |w.accepted| && r.ticket.creds.assertion.Some?
            && var c, a := r.ticket.g.clientID, r.ticket.creds.assertion.value;
               && InOrder(cfg, c, a, w.accepted[r.proof.value].verifiedAt)
               && exists keys, k :: Published(cfg, w, c, keys) && k in keys.keys && Vouches(k, a)
  {
    hide Inv, Reachable, BasisOk, InOrder, Vouches, Published;
    ReachableOk(cfg, w);
    ResponseHolds(cfg, w, n);
  }

  // ---------------------------------------------------------------- registrations

  /** Every dynamic client is registered as it asked to be, normalized, under the time it asked at;
      its secret, if it authenticates with one, is exactly the one drawn for it, and never expires. */
  lemma RegisteredAsAsked(cfg: Config, w: World, c: string)
    requires UrlsSane(cfg) && Reachable(cfg, w) && c in w.srv.clients && w.srv.clients[c].registeredBy == Dynamic
    ensures var reg := w.srv.clients[c];
            && c in w.past.registered && reg.clientID == c
            && var asked := w.past.registered[c];
               var n := Normalize(cfg.validURI, asked.raw, REGISTER_AUTH_METHODS, ClientSecretBasic);
               && n.Ok? && reg.issuedAt == asked.at / SECOND
               && (reg.authMethod != NoAuth ==> reg.secret == asked.secret && reg.secretExpiresAt == Some(0))
               && (reg.authMethod == NoAuth ==>
                     reg.secret == n.value.secret && reg.secretExpiresAt == n.value.secretExpiresAt)
               && SameMetadata(reg, n.value)
  {
    hide Inv, Reachable, ObserveAll, DocumentRules, Normalize, Canonical, AsFetched;
    ReachableOk(cfg, w);
    ClientAt(cfg, w, c);
  }

  /** A first sight is registered as of now, a later one keeps its time; nobody else changes, and
      neither does a client that registered itself or has a document. */
  lemma SeenExactly(s: State, c: string, o: Observation, now: int)
    ensures var s' := SeeClient(s, c, o, now);
            && s' == s.(clients := s'.clients)
            && (forall d :: d != c ==>
                  (d in s'.clients <==> d in s.clients) && (d in s.clients ==> s'.clients[d] == s.clients[d]))
            && (c in s'.clients <==> c in s.clients || c != "")
            && (c in s.clients && (c == "" || s.clients[c].registeredBy != Automatic) ==> s'.clients[c] == s.clients[c])
            && (c in s.clients && c in s'.clients ==> s'.clients[c].issuedAt == s.clients[c].issuedAt)
            && (c !in s.clients && c != "" ==>
                  s'.clients[c].clientID == c && s'.clients[c].issuedAt == now / SECOND
                  && s'.clients[c].registeredBy == Automatic && s'.clients[c].authMethod == NoAuth)
  {
    hide Dedupe, Fields, Join, HasScope;
  }

  // ---------------------------------------------------------------- authentication with a document

  /** What a document asks of its client: nothing, or an assertion - presented as one, and for no
      other client id if it names one. */
  lemma DocumentAdmittedExactly(cfg: Config, w: World, c: string, creds: Credentials)
    requires UrlsSane(cfg) && Reachable(cfg, w) && c in w.srv.metadata
    ensures var reg := w.srv.metadata[c].reg;
            && (Decide(reg, c, creds) == Admit <==> reg.authMethod == NoAuth)
            && (Decide(reg, c, creds) == NeedsAssertion
                <==> reg.authMethod == PrivateKeyJwt && creds.how == PrivateKeyJwt
                     && (creds.clientID == "" || creds.clientID == c) && creds.assertion.Some?)
  {
    hide Inv, Reachable, Canonical, UrlsSane;
    CacheIsRegistry(cfg, w, c);
  }

  // ---------------------------------------------------------------- cached documents

  /** A cached document is what its last fetch brought, and is live exactly until its storing time
      plus the lifetime that fetch's header gave. */
  lemma DocumentLivesExactly(cfg: Config, w: World, c: string, now: int)
    requires UrlsSane(cfg) && Reachable(cfg, w) && c in w.srv.metadata
    ensures c in w.storedAt && c in w.past.documents
    ensures Live(w.srv, c, now) <==> now < w.storedAt[c] + TtlFrom(cfg, w.past.documents[c].header)
    ensures var got := w.past.documents[c];
            && Validate(cfg, c, got.doc, got.at).Ok?
            && SameMetadata(w.srv.metadata[c].reg, Validate(cfg, c, got.doc, got.at).value)
  {
    hide Inv, Reachable, Validate, TtlFrom, SameMetadata, Published;
    ReachableOk(cfg, w);
    EntryHere(cfg, w, c);
  }

  // ---------------------------------------------------------------- from /authorize to the code

  /** A request waiting for its user: while it is not approved it waits, and says what was asked - the
      client, scope, redirect URI, state, nonce and challenge of a request that was received - and who
      logged in on it last. A request id nobody asked under, or approved already, holds no request. */
  lemma PendingLogins(cfg: Config, w: World, r: string)
    requires UrlsSane(cfg) && Reachable(cfg, w)
    ensures r in w.past.asked && r !in w.past.done ==>
              r in w.srv.authContext && Asks(w.srv.authContext[r], w.past.asked[r]) && Heard(w, w.past.asked[r])
    ensures r in w.srv.authContext ==>
              var ctx := w.srv.authContext[r];
              && ((r in w.past.asked && Asks(ctx, w.past.asked[r]))
                  || (AsksNothing(ctx) && (r !in w.past.asked || r in w.past.done)))
              && ctx.username == (if r in w.past.lastLogin then w.past.lastLogin[r] else "")
              && ctx.sub == (if r in w.past.lastLogin then "internal|" + w.past.lastLogin[r] else "")
  {
    hide Inv, Reachable, Heard;
    ReachableOk(cfg, w);
    PendingHere(cfg, w, r);
  }

  lemma PendingHere(cfg: Config, w: World, r: string)
    requires Inv(cfg, w)
    ensures PastOk(w) && (r in w.srv.authContext ==> ContextHere(cfg, w, r, w.srv.authContext[r]))
    ensures r in w.past.asked ==> r in w.srv.authContext || r in w.past.done
  {
    hide SessionsInv, CodesInv, RegistryInv, ThreadsInv, OutputsInv, ReplayInv, AcceptedOk, CodesApart, ProofsApart;
    hide ContextHere, PastOk;
  }

  /** A login changes nothing of what was asked, under its own request id or any other. */
  lemma LoginKeepsRequest(cfg: Config, w: World, r: string, username: string, q: string)
    requires UrlsSane(cfg) && Reachable(cfg, w) && q in w.srv.authContext
    ensures var w' := Login(w, r, username);
            && q in w'.srv.authContext
            && var before, after := w.srv.authContext[q], w'.srv.authContext[q];
               && after.clientID == before.clientID && after.scope == before.scope
                   && after.redirectURI == before.redirectURI
               && after.state == before.state && after.nonce == before.nonce
               && after.challenge == before.challenge && after.challengeMethod == before.challengeMethod
               && after.username == (if q == r then username else before.username)
               && after.sub == (if q == r then "internal|" + username else before.sub)
  {}

  /** What an approval under way will commit: the request asked for under its id - or nothing, if that
      was approved before - for a user who logged in on it. */
  lemma ApprovalUnderWay(cfg: Config, w: World, t: nat)
    requires UrlsSane(cfg) && Reachable(cfg, w) && t in w.threads && w.threads[t].Approving?
    ensures var r, ctx := w.threads[t].reqID, w.threads[t].ctx;
            && ((r in w.past.asked && Asks(ctx, w.past.asked[r]))
                || (AsksNothing(ctx) && (r !in w.past.asked || r in w.past.done)))
            && ((ctx.username == "" && ctx.sub == "")
                || (LoginRecord(r, ctx.username) in w.past.logins && ctx.sub == "internal|" + ctx.username))
  {
    hide Inv, Reachable;
    ReachableOk(cfg, w);
    ThreadOk(cfg, w, t);
  }

  /** And what the commit does with it: the request is done with; the user's session has an entry for
      the client that asked, saying what it asked; and a code is on its way for that client, with that
      state and nonce. */
  lemma ApprovalCommits(cfg: Config, w: World, t: nat, found: Option<string>, cookie: string, csid: string)
    requires UrlsSane(cfg) && Reachable(cfg, w) && t in w.threads && w.threads[t].Approving?
    requires Unused(cfg, w, cookie) && Unused(cfg, w, csid) && cookie != csid
    requires FoundBySub(w.srv.sessions, w.threads[t].ctx.sub, found)
    ensures var pc, w' := w.threads[t], Commit(cfg, w, t, found, cookie, csid);
            var ctx, key := pc.ctx, if found.Some? then found.value else cookie;
            && pc.reqID !in w'.srv.authContext
            && (forall r :: r != pc.reqID ==> (r in w'.srv.authContext <==> r in w.srv.authContext)
                                              && (r in w.srv.authContext
                                                  ==> w'.srv.authContext[r] == w.srv.authContext[r]))
            && key in w'.srv.sessions && w'.srv.sessions[key].sub == ctx.sub
            && w'.srv.sessions[key].username
                 == (if found.Some? then w.srv.sessions[found.value].username else ctx.username)
            && (forall k :: k != key ==> (k in w'.srv.sessions <==> k in w.srv.sessions)
                                         && (k in w.srv.sessions ==> w'.srv.sessions[k] == w.srv.sessions[k]))
            && var entry := Entry(w'.srv.sessions[key].clientSessions, ctx.clientID);
               && entry.Some? && entry.value.scope == ctx.scope && entry.value.redirectURI == ctx.redirectURI
               && entry.value.challenge == ctx.challenge && entry.value.challengeMethod == ctx.challengeMethod
               && entry.value.advertisedSub == AdvertisedSub(cfg, ctx.sub, cfg.sector(ctx.redirectURI, ctx.clientID))
               && entry.value.idTokenClaims == pc.idc && entry.value.accessTokenClaims == pc.acc
               && entry.value.refreshTokenClaims == None
               && t in w'.threads && w'.threads[t] == IssuingCode(w'.srv.sessions[key], ctx.clientID, ctx.state,
                   ctx.nonce)
  {
    hide Inv, Reachable, UrlsSane, Unused, CsidFor, Upsert, AdvertisedSub;
    ReachableOk(cfg, w);
    var pc := w.threads[t];
    var base := BaseSession(w.srv, pc.ctx, found, cookie);
    if found.Some? { SessionAt(cfg, w, found.value); }
    EntryAfterUpsert(base.clientSessions, ApprovedClient(cfg, pc.ctx, CsidFor(base, pc.ctx.clientID, csid), pc.idc,
        pc.acc),
                     pc.ctx.clientID);
  }

  /** A code on its way goes out once, to the redirect URI of the entry it is for, with the state it was
      asked with, and is on record for that session, client and nonce. */
  lemma CodeGoesOut(cfg: Config, w: World, t: nat, code: string)
    requires t in w.threads && w.threads[t].IssuingCode? && Unused(cfg, w, code)
    ensures var pc, w' := w.threads[t], IssueCode(cfg, w, t, code);
            var entry := Entry(pc.sess.clientSessions, pc.codeClient);
            && t !in w'.threads && code in w'.issued && code in w'.srv.codeMeta
            && w'.issued[code] == CodeRecord(pc.sess.cookieID, pc.codeClient, pc.sess.sub, pc.nonce)
            && w'.srv.codeMeta[code] == CodeMeta(pc.sess.cookieID, pc.codeClient, pc.nonce)
            && w'.redirects == w.redirects
                 + if entry.Some? then {Redirect(pc.codeClient, entry.value.redirectURI, Some(code), pc.state)} else {}
  {
    hide FindClient, Unused;
  }

  /** /authorize with a session: its entry for the client, if it has one, now says this request's
      challenge and redirect URI and is otherwise as before; nothing else changes; and a code is on its
      way with this request's state and nonce. */
  lemma AuthorizeShows(cfg: Config, w: World, t: nat, other: string)
    requires t in w.threads && w.threads[t].LookingUpSession? && w.threads[t].req.cookie in w.srv.sessions
    ensures var req, w' := w.threads[t].req, LookUpSession(w, t);
            var key := req.cookie;
            && key in w'.srv.sessions && TouchShown(w.srv.sessions[key], w'.srv.sessions[key], req, other)
            && (forall k :: k != key ==> (k in w'.srv.sessions <==> k in w.srv.sessions)
                                         && (k in w.srv.sessions ==> w'.srv.sessions[k] == w.srv.sessions[k]))
            && t in w'.threads && w'.threads[t] == IssuingCode(w'.srv.sessions[key], req.clientID, req.state, req.nonce)
  {
    hide Touch;
    var req := w.threads[t].req;
    TouchShows(w.srv.sessions[req.cookie], req, other);
  }

  lemma HintShows(cfg: Config, w: World, t: nat, found: Option<string>, other: string)
    requires t in w.threads && w.threads[t].LookingUpHint? && FoundByHint(w.srv.sessions, w.threads[t].hintSub, found)
    requires found.Some?
    ensures var req, w', key := w.threads[t].req, LookUpHint(w, t, found), found.value;
            && key in w'.srv.sessions && TouchShown(w.srv.sessions[key], w'.srv.sessions[key], req, other)
            && (forall k :: k != key ==> (k in w'.srv.sessions <==> k in w.srv.sessions)
                                         && (k in w.srv.sessions ==> w'.srv.sessions[k] == w.srv.sessions[k]))
            && t in w'.threads && w'.threads[t] == IssuingCode(w'.srv.sessions[key], req.clientID, req.state, req.nonce)
  {
    hide Touch;
    TouchShows(w.srv.sessions[found.value], w.threads[t].req, other);
  }

  /** Read after write, for the entry of any client: only the request's own changes. */
  ghost predicate TouchShown(before: Session, after: Session, req: Request, other: string) {
    && after.sub == before.sub && after.username == before.username && after.cookieID == before.cookieID
    && var b, a := Entry(before.clientSessions, other), Entry(after.clientSessions, other);
       && (a.Some? <==> b.Some?)
       && (b.Some? && other != req.clientID ==> a == b)
       && (b.Some? && other == req.clientID ==>
             && a.value.challenge == req.challenge && a.value.challengeMethod == req.challengeMethod
             && a.value.redirectURI == req.redirectURI
             && a.value == b.value.(challenge := a.value.challenge, challengeMethod := a.value.challengeMethod,
                                    redirectURI := a.value.redirectURI))
  }

  lemma TouchShows(sess: Session, req: Request, other: string)
    ensures TouchShown(sess, Touch(sess, req.clientID, req.challenge, req.challengeMethod, req.redirectURI), req, other)
  {
    EntryAfterTouch(sess, req.clientID, req.challenge, req.challengeMethod, req.redirectURI, other);
  }

  /** RFC 7636 section 4.3: a challenge without a method means plain; nothing else of a request changes. */
  lemma ReceivedAs(raw: Request)
    ensures var req := WithPkceDefault(raw);
            && req == raw.(challengeMethod := req.challengeMethod)
            && req.challengeMethod == (if raw.challenge != ""
                && raw.challengeMethod == NoMethod then Plain else raw.challengeMethod)
  {}

  /** A request of a known client goes on to the session look-up if and only if its redirect URI is one
      the client asserted, if it asserted any, and it brings a challenge if its document says so. */
  lemma AuthorizeGoesOn(w: World, t: nat, req: Request, reg: Registration)
    ensures var w' := AuthorizeWith(w, t, req, reg);
            var asserts := reg.registeredBy == MetadataDocument || reg.registeredBy == Dynamic;
            var public := reg.registeredBy == MetadataDocument && reg.authMethod == NoAuth;
            && (t in w'.threads
                <==> (asserts ==> req.redirectURI in reg.redirectURIs) && (public ==> req.challenge != ""))
            && (t in w'.threads ==> w'.threads[t] == LookingUpSession(req))
            && w'.srv == w.srv
  {
    hide Goto, End;
    MovesShow(w, t, LookingUpSession(req));
  }

  lemma MovesShow(w: World, t: nat, pc: PC)
    ensures t !in End(w, t).threads && End(w, t).srv == w.srv && End(w, t).redirects == w.redirects
    ensures t in Goto(w, t, pc).threads && Goto(w, t, pc).threads[t] == pc
    ensures Goto(w, t, pc).srv == w.srv && Goto(w, t, pc).redirects == w.redirects
    ensures End(w, t).accepted == w.accepted && Goto(w, t, pc).accepted == w.accepted
  {}

  // ---------------------------------------------------------------- what an answer leaves on file

  /** The entry shows the tokens given, without their time of issue, and is otherwise as before. */
  ghost predicate Shows(before: ClientSession, after: ClientSession, g: Grant, issued: Issued) {
    && after == before.(advertisedSub := g.advertisedSub, accessTokenClaims := after.accessTokenClaims,
                        refreshTokenClaims := after.refreshTokenClaims, idTokenClaims := after.idTokenClaims)
    && after.accessTokenClaims == Some(Remembered(issued.access))
    && (after.refreshTokenClaims.Some? <==> issued.refresh.Some?)
    && (issued.refresh.Some? ==> after.refreshTokenClaims.value == Remembered(issued.refresh.value))
    && after.idTokenClaims == (if issued.id.Some? then Some(Remembered(issued.id.value)) else before.idTokenClaims)
  }

  lemma IssuedShows(before: ClientSession, g: Grant, issued: Issued)
    ensures Shows(before, WithIssued(before, g, issued), g, issued)
  {
    hide Remembered;
  }

  /** The grant's own entry: the first with its csid in its session. */
  predicate OwnEntry(s: State, g: Grant, k: string, i: nat)
    requires k in s.sessions && i < |s.sessions[k].clientSessions|
  {
    && k == g.cookieID && s.sessions[k].clientSessions[i].sessionID == g.csid
    && forall j :: 0 <= j < i ==> s.sessions[k].clientSessions[j].sessionID != g.csid
  }

  lemma OwnEntryFound(s: State, g: Grant, k: string, i: nat)
    requires k in s.sessions && i < |s.sessions[k].clientSessions|
    ensures OwnEntry(s, g, k, i) <==> k == g.cookieID && i == FindCsid(s.sessions[k].clientSessions, g.csid)
  {}

  /** After an answer its entry shows the tokens given; no other entry and no other session changes. */
  lemma AnswerFiled(cfg: Config, s: State, g: Grant, now: int, k: string, i: nat)
    requires k in s.sessions && i < |s.sessions[k].clientSessions|
    ensures var s', issued := StoreIssued(s, g, IssueFor(cfg, g, now)), IssueFor(cfg, g, now);
            && s' == s.(sessions := s'.sessions) && k in s'.sessions
            && s'.sessions[k] == s.sessions[k].(clientSessions := s'.sessions[k].clientSessions)
            && |s'.sessions[k].clientSessions| == |s.sessions[k].clientSessions|
            && var before, after := s.sessions[k].clientSessions[i], s'.sessions[k].clientSessions[i];
               if OwnEntry(s, g, k, i) then Shows(before, after, g, issued) else after == before
  {
    hide IssueFor, WithIssued, FindCsid, Shows, OwnEntry;
    IssuedShows(s.sessions[k].clientSessions[i], g, IssueFor(cfg, g, now));
    OwnEntryFound(s, g, k, i);
  }

  /** The shared claim map: a grant's csid shows in the entry's own access claims, if it has any. */
  lemma StampShows(cs: ClientSession)
    ensures var after := StampCsid(cs);
            && after == cs.(accessTokenClaims := after.accessTokenClaims)
            && (after.accessTokenClaims.Some? <==> cs.accessTokenClaims.Some?)
            && (cs.accessTokenClaims.Some? ==>
                  && Csid in after.accessTokenClaims.value && after.accessTokenClaims.value[Csid] == Str(cs.sessionID)
                  && forall c :: c != Csid ==>
                       (c in after.accessTokenClaims.value <==> c in cs.accessTokenClaims.value)
                       && (c in cs.accessTokenClaims.value ==>
                             after.accessTokenClaims.value[c] == cs.accessTokenClaims.value[c]))
  {}

  // ---------------------------------------------------------------- which way a request goes

  /** Without a session of its own a request is sent to log in; unless it may not be, and then its hint
      is looked up if it has one, and otherwise it is turned away at its own redirect URI. */
  lemma WithoutSession(w: World, t: nat)
    requires t in w.threads && w.threads[t].LookingUpSession? && w.threads[t].req.cookie !in w.srv.sessions
    ensures var req, w' := w.threads[t].req, LookUpSession(w, t);
            && w'.srv == w.srv
            && (!req.promptNone ==>
                  t in w'.threads && w'.threads[t] == SavingContext(req) && w'.redirects == w.redirects)
            && (req.promptNone && req.hint.Some? ==>
                  && t in w'.threads && w'.redirects == w.redirects
                  && w'.threads[t] == LookingUpHint(req, StringClaim(req.hint.value.claims, Sub)))
            && (req.promptNone && req.hint.None? ==>
                  t !in w'.threads && w'.redirects == w.redirects + {Redirect(req.clientID, req.redirectURI, None,
                      req.state)})
  {
    hide StringClaim, Goto, End, LoginRequired;
    var req := w.threads[t].req;
    MovesShow(w, t, SavingContext(req));
    if req.hint.Some? { MovesShow(w, t, LookingUpHint(req, StringClaim(req.hint.value.claims, Sub))); }
    TurnedAway(w, t, req);
  }

  lemma TurnedAway(w: World, t: nat, req: Request)
    ensures var w' := LoginRequired(w, t, req);
            && w'.srv == w.srv && t !in w'.threads
            && w'.redirects == w.redirects + {Redirect(req.clientID, req.redirectURI, None, req.state)}
  {}

  lemma WithoutHint(w: World, t: nat)
    requires t in w.threads && w.threads[t].LookingUpHint? && FoundByHint(w.srv.sessions, w.threads[t].hintSub, None)
    ensures var req, w' := w.threads[t].req, LookUpHint(w, t, None);
            && w'.srv == w.srv && t !in w'.threads
            && w'.redirects == w.redirects + {Redirect(req.clientID, req.redirectURI, None, req.state)}
  {}

  /** A document that cannot be read ends an /authorize request, and a token request of a client that
      authenticates with keys; a public client's goes on to its answer. */
  lemma WithoutDocument(cfg: Config, w: World, t: nat)
    requires UrlsSane(cfg) && Reachable(cfg, w) && t in w.threads && w.threads[t].Fetching?
    ensures var cont, w' := w.threads[t].cont, FetchDone(cfg, w, t, None, []);
            && w'.srv == w.srv
            && (t in w'.threads <==> cont.ForToken? && cont.known.authMethod == NoAuth)
            && (t in w'.threads ==> w'.threads[t] == Responding(cont.ticket, StaleDocument(cont.known), None))
  {
    hide Inv, Reachable, TicketOk, Unresolved;
    ReachableOk(cfg, w);
    ThreadOk(cfg, w, t);
    Unread(cfg, w, t, w.threads[t].clientID, w.threads[t].cont);
  }

  lemma Unread(cfg: Config, w: World, t: nat, c: string, cont: Cont)
    requires ContOk(cfg, w, c, cont)
    ensures var w' := Unresolved(w, t, cont);
            && w'.srv == w.srv
            && (t in w'.threads <==> cont.ForToken? && cont.known.authMethod == NoAuth)
            && (t in w'.threads ==> w'.threads[t] == Responding(cont.ticket, StaleDocument(cont.known), None))
  {
    hide TicketOk, Goto, End, RequestPending;
    MovesShow(w, t, Registering(Request("", "", "", "", "", "", NoMethod, false, "", None)));
    if cont.ForToken? { MovesShow(w, t, Responding(cont.ticket, StaleDocument(cont.known), None)); }
  }

  lemma ConsumedMoves(w: World, t: nat)
    requires t in w.threads && w.threads[t].Consuming? && w.threads[t].ticket.creds.assertion.Some?
    requires w.threads[t].ticket.creds.assertion.value.exp.Some?
    ensures var pc, w' := w.threads[t], ConsumeJti(w, t);
            var a := pc.ticket.creds.assertion.value;
            var key := KeyOf(Acceptance(pc.ticket.g.clientID, a.jti, a.exp.value, pc.verifiedAt, w.now));
            && (t in w'.threads <==> Accepts(w.srv.jtis, key, w.now))
            && (t in w'.threads ==> w'.threads[t] == Responding(pc.ticket, pc.basis, Some(|w.accepted|)))
  {
    hide Consume, Accepts, KeyOf, Goto, End;
    var pc := w.threads[t];
    var a := pc.ticket.creds.assertion.value;
    var acceptance := Acceptance(pc.ticket.g.clientID, a.jti, a.exp.value, pc.verifiedAt, w.now);
    var w' := w.(srv := w.srv.(jtis := Consume(w.srv.jtis, KeyOf(acceptance), a.exp.value, w.now)));
    MovesShow(w', t, Responding(pc.ticket, pc.basis, None));
    MovesShow(w'.(accepted := w.accepted + [acceptance]), t, Responding(pc.ticket, pc.basis, Some(|w.accepted|)));
  }

  /** A verified assertion is accepted if and only if every earlier acceptance of its client and jti is
      more than a minute past its expiry; if not, the request ends. */
  lemma ConsumesExactly(cfg: Config, w: World, t: nat)
    requires UrlsSane(cfg) && Reachable(cfg, w) && t in w.threads && w.threads[t].Consuming?
    ensures var pc, w' := w.threads[t], ConsumeJti(w, t);
            var c, a := pc.ticket.g.clientID, pc.ticket.creds.assertion;
            && a.Some? && a.value.exp.Some?
            && (t in w'.threads
                <==> forall i :: 0 <= i < |w.accepted|
                                 && w.accepted[i].clientID == c && w.accepted[i].jti == a.value.jti ==>
                       w.accepted[i].exp + 60 * SECOND < w.now)
            && (t in w'.threads ==>
                  && w'.threads[t] == Responding(pc.ticket, pc.basis, Some(|w.accepted|))
                  && w'.accepted == w.accepted + [Acceptance(c, a.value.jti, a.value.exp.value, pc.verifiedAt, w.now)])
            && (t !in w'.threads ==> w'.accepted == w.accepted)
  {
    hide Inv, Reachable, Consume, Accepts, UrlsSane, TicketOk, BasisOk, ConsumeJti, Key;
    ReachableOk(cfg, w);
    ThreadOk(cfg, w, t);
    var pc := w.threads[t];
    PendingIsDocument(cfg, w, pc.ticket, pc.basis);
    ReplayTableIsHistory(cfg, w, pc.ticket.g.clientID, pc.ticket.creds.assertion.value.jti);
    ConsumedShape(w, t);
    ConsumedMoves(w, t);
  }

  /** The audience of access tokens: the user info endpoint first, every configured one, none twice. */
  lemma AccessAudienceExactly(cfg: Config, aud: string)
    ensures aud in AccessAudience(cfg) <==> aud == cfg.externalURL + "/userinfo" || aud in cfg.extraAudiences
    ensures NoDup(AccessAudience(cfg)) && AccessAudience(cfg) != []
              && AccessAudience(cfg)[0] == cfg.externalURL + "/userinfo"
  {
    var first := cfg.externalURL + "/userinfo";
    var all := [first] + cfg.extraAudiences;
    DedupeElements(all, aud);
    DedupeNoDup(all);
    DedupePrefix([first], cfg.extraAudiences);
    DedupeConstant([first], first);
  }

  /** Keys in the document itself come before a URL to fetch them from. */
  lemma SourceExactly(reg: Registration)
    ensures SourceOf(reg) == Some(Inline(reg.jwks)) <==> reg.jwks != ""
    ensures SourceOf(reg) == Some(Fetched(reg.jwksURI)) <==> reg.jwks == "" && reg.jwksURI != ""
    ensures SourceOf(reg).None? <==> reg.jwks == "" && reg.jwksURI == ""
  {}
}
