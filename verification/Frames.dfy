// What the steps leave alone: which of them can change sessions and grants, and which
// the document cache.
module Frames {
  import opened Lists
  import opened Scopes
  import opened Claims
  import opened Registration
  import opened Idp
  import opened Documents
  import opened Replay
  import opened IdpState
  import opened Machine
  import opened TokenSteps

  /** No session, no client session id and no grant has changed. */
  ghost predicate SameSessions(w: World, w': World) {
    w'.srv.sessions == w.srv.sessions && w'.csids == w.csids && w'.granted == w.granted
  }

  /** No cached document has changed. */
  ghost predicate SameCache(w: World, w': World) {
    w'.srv.metadata == w.srv.metadata
  }

  /** Whoever is verifying an assertion was doing so before, with the same keys. */
  ghost predicate NoNewKeys(w: World, w': World) {
    forall t :: t in w'.threads && w'.threads[t].Verifying? ==> t in w.threads && w'.threads[t] == w.threads[t]
  }

  ghost predicate Same(w: World, w': World) { SameSessions(w, w') && SameCache(w, w') && NoNewKeys(w, w') }

  lemma MovesSame(w: World, t: nat)
    ensures Same(w, w) && Same(w, End(w, t))
    ensures forall pc :: SameSessions(w, Goto(w, t, pc)) && SameCache(w, Goto(w, t, pc))
    ensures forall pc: PC :: !pc.Verifying? ==> Same(w, Goto(w, t, pc))
  {}

  /** A step that changes other things, and then where its request is. */
  lemma MovesFrom(w: World, w1: World, t: nat)
    requires w1.srv.sessions == w.srv.sessions && w1.csids == w.csids && w1.granted == w.granted
               && w1.threads == w.threads
    requires w1.srv.metadata == w.srv.metadata
    ensures Same(w, w1) && Same(w, End(w1, t)) && forall pc: PC :: !pc.Verifying? ==> Same(w, Goto(w1, t, pc))
  {
    hide Goto, End;
    MovesSame(w1, t);
  }

  lemma ArrivedSame(w: World, t: nat, c: string, keys: KeySet)
    ensures forall pc :: SameSessions(w, Goto(Arrived(w, c, keys), t, pc))
  {
    hide PutKeys, Goto;
    MovesSame(Arrived(w, c, keys), t);
    ArrivedAside(w, c, keys);
  }

  lemma ArrivedAside(w: World, c: string, keys: KeySet)
    ensures SameSessions(w, Arrived(w, c, keys))
  {}

  lemma AuthorizeWithSame(w: World, t: nat, req: Request, reg: Registration)
    ensures Same(w, AuthorizeWith(w, t, req, reg))
  {
    hide Same, Goto, End;
    MovesSame(w, t);
  }

  lemma TokenWithSame(w: World, t: nat, ticket: Ticket, basis: Basis)
    requires !basis.NoRegistration?
    ensures Same(w, TokenWith(w, t, ticket, basis))
  {
    hide Same, Goto, End, Decide;
    MovesSame(w, t);
  }

  lemma ResolvedSame(w: World, t: nat, cont: Cont, reg: Registration, storedAt: int)
    ensures Same(w, Resolved(w, t, cont, reg, storedAt))
  {
    hide AuthorizeWith, TokenWith, Same;
    match cont
    case ForAuthorize(req) => AuthorizeWithSame(w, t, req, reg);
    case ForToken(ticket, _) => TokenWithSame(w, t, ticket, FreshDocument(reg, storedAt, w.now));
  }

  lemma UnresolvedSame(w: World, t: nat, cont: Cont)
    ensures Same(w, Unresolved(w, t, cont))
  {
    hide AuthorizeWith, TokenWith;
    if cont.ForToken? { TokenWithSame(w, t, cont.ticket, StaleDocument(cont.known)); }
  }

  lemma ResolveSame(w: World, t: nat)
    ensures Same(w, Resolve(w, t))
  {
    hide Resolved, Same, Goto, End;
    MovesSame(w, t);
    if t in w.threads && w.threads[t].Resolving? && Live(w.srv, w.threads[t].clientID, w.now) {
      var c := w.threads[t].clientID;
      ResolvedSame(w, t, w.threads[t].cont, w.srv.metadata[c].reg, if c in w.storedAt then w.storedAt[c] else w.now);
    }
  }

  lemma FetchDoneSame(cfg: Config, w: World, t: nat, doc: Option<Document>, directives: seq<Directive>)
    ensures Same(w, FetchDone(cfg, w, t, doc, directives))
  {
    hide Unresolved, Validate, TtlFrom, Same, Goto, End;
    MovesSame(w, t);
    if t in w.threads && w.threads[t].Fetching? { UnresolvedSame(w, t, w.threads[t].cont); }
  }

  lemma StoreSame(w: World, t: nat)
    ensures SameSessions(w, Store(w, t)) && NoNewKeys(w, Store(w, t))
  {
    hide Resolved;
    if t in w.threads && w.threads[t].Storing? {
      var pc := w.threads[t];
      var w1 := Stored(w, pc.clientID, pc.reg, pc.ttl, pc.got);
      ResolvedSame(w1, t, pc.cont, w1.srv.clients[pc.clientID], w.now);
    }
  }

  lemma FindKeysSame(w: World, t: nat)
    ensures SameSessions(w, FindKeys(w, t)) && SameCache(w, FindKeys(w, t))
  {
    hide SameSessions, SameCache, NoNewKeys, Goto, End;
    MovesSame(w, t);
  }

  lemma KeysArriveSame(cfg: Config, w: World, t: nat, fetched: string)
    ensures SameSessions(w, KeysArrive(cfg, w, t, fetched))
  {
    hide SourceOf, SameSessions, Goto, End, Arrived;
    MovesSame(w, t);
    if t in w.threads && w.threads[t].FetchingKeys? && !w.threads[t].basis.NoRegistration? {
      var pc := w.threads[t];
      var source := SourceOf(pc.basis.reg);
      if source.Some? {
        var keys := cfg.parseKeys(if source.value.Inline? then source.value.jwks else fetched);
        ArrivedSame(w, t, pc.ticket.g.clientID, KeySet(source.value, keys));
      }
    }
  }

  lemma VerifySame(cfg: Config, w: World, t: nat)
    ensures Same(w, Verify(cfg, w, t))
  {
    hide Same, Goto, End, AssertionValid;
    MovesSame(w, t);
  }

  lemma ConsumeSame(w: World, t: nat)
    ensures Same(w, ConsumeJti(w, t))
  {
    hide Consume, Accepts, Same, Goto, End;
    MovesSame(w, t);
    if t in w.threads && w.threads[t].Consuming? && w.threads[t].ticket.creds.assertion.Some?
       && w.threads[t].ticket.creds.assertion.value.exp.Some? {
      var pc := w.threads[t];
      var a := pc.ticket.creds.assertion.value;
      var acceptance := Acceptance(pc.ticket.g.clientID, a.jti, a.exp.value, pc.verifiedAt, w.now);
      var w' := w.(srv := w.srv.(jtis := Consume(w.srv.jtis, KeyOf(acceptance), a.exp.value, w.now)));
      MovesFrom(w, w', t);
      MovesFrom(w, w'.(accepted := w.accepted + [acceptance]), t);
    }
  }

  lemma SeeSame(w: World, t: nat)
    ensures Same(w, SeeAndAdmit(w, t))
  {
    hide Observe, AuthorizeWith;
    if t in w.threads && w.threads[t].Registering? && w.threads[t].req.clientID != "" {
      var req := w.threads[t].req;
      var w1 := Seen(w, req.clientID, Observation(req.redirectURI, req.scope));
      AuthorizeWithSame(w1, t, req, w1.srv.clients[req.clientID]);
    }
  }

  lemma AuthenticateSame(w: World, t: nat)
    ensures Same(w, Authenticate(w, t))
  {
    hide TokenWith, Same, Goto, End;
    MovesSame(w, t);
    if t in w.threads && w.threads[t].Authenticating? && w.threads[t].ticket.g.clientID in w.srv.clients {
      var ticket := w.threads[t].ticket;
      TokenWithSame(w, t, ticket, DynamicClient(w.srv.clients[ticket.g.clientID]));
    }
  }

  lemma RegisterSame(cfg: Config, w: World, raw: Registration, id: string, secret: string)
    ensures Same(w, Register(cfg, w, raw, id, secret))
  {
    hide Normalize, NewDynamic, Same, Unused;
    MovesSame(w, 0);
    var normal := Normalize(cfg.validURI, raw, REGISTER_AUTH_METHODS, ClientSecretBasic);
    if normal.Ok? {
      MovesFrom(w, w.(srv := PutClient(w.srv, NewDynamic(normal.value, id, secret, w.now)), seen := w.seen + {id},
                      past := w.past.(registered := w.past.registered[id := Registered(raw, secret, w.now)])), 0);
    }
  }

  lemma IssueCodeSame(cfg: Config, w: World, t: nat, code: string)
    ensures Same(w, IssueCode(cfg, w, t, code))
  {
    hide FindClient;
  }

  lemma AuthorizeSame(cfg: Config, w: World, t: nat, req: Request)
    ensures Same(w, Authorize(cfg, w, t, req))
  {
    hide PkceSupported, WithPkceDefault, Same, Goto;
    MovesSame(w, t);
    MovesFrom(w, w.(seen := w.seen + {WithPkceDefault(req).clientID},
                    past := w.past.(received := w.past.received + {req})), t);
  }

  lemma SaveContextSame(cfg: Config, w: World, t: nat, reqID: string)
    ensures Same(w, SaveContext(cfg, w, t, reqID))
  {}

  lemma ApproveSame(w: World, t: nat, reqID: string, idc: Option<ClaimSet>, acc: Option<ClaimSet>)
    ensures Same(w, Approve(w, t, reqID, idc, acc))
  {
    hide Same, Goto;
    MovesSame(w, t);
  }

  lemma PresentCodeSame(w: World, t: nat, code: string, verifier: string, creds: Credentials)
    ensures Same(w, PresentCode(w, t, code, verifier, creds))
  {
    hide Same, Goto;
    MovesSame(w, t);
    MovesFrom(w, w.(srv := TakeCode(w.srv, code), consumed := w.consumed + {code}), t);
  }

  lemma TickLoginSame(w: World, d: nat, reqID: string, username: string)
    ensures Same(w, Tick(w, d)) && Same(w, Login(w, reqID, username))
  {}

  lemma GrantToSame(cfg: Config, w: World, t: nat, origin: Origin, key: string, i: nat, nonce: string,
                    creds: Credentials)
    requires key in w.srv.sessions && i < |w.srv.sessions[key].clientSessions|
    ensures SameCache(w, GrantTo(cfg, w, t, origin, key, i, nonce, creds))
              && NoNewKeys(w, GrantTo(cfg, w, t, origin, key, i, nonce, creds))
  {
    hide GrantOf, StampCsid;
  }

  lemma CheckCodeSame(cfg: Config, w: World, t: nat)
    ensures SameCache(w, CheckCode(cfg, w, t)) && NoNewKeys(w, CheckCode(cfg, w, t))
  {
    hide GrantTo, PkceAccepts;
    if t in w.threads && w.threads[t].CodeTaken? && w.threads[t].meta.cookieID in w.srv.sessions {
      var pc := w.threads[t];
      var sess := w.srv.sessions[pc.meta.cookieID];
      var i := FindClient(sess.clientSessions, pc.meta.clientID);
      if i < |sess.clientSessions| {
        var cs := sess.clientSessions[i];
        GrantToSame(cfg, w, t, FromCode(pc.code, cs.challenge, cs.challengeMethod, pc.verifier),
                    pc.meta.cookieID, i, pc.meta.nonce, pc.creds);
      }
    }
  }

  lemma PresentTokenSame(cfg: Config, w: World, t: nat, token: Token, creds: Credentials, found: Option<string>)
    ensures SameCache(w, PresentToken(cfg, w, t, token, creds, found))
              && NoNewKeys(w, PresentToken(cfg, w, t, token, creds, found))
  {
    hide GrantTo;
    var csid := StringClaim(token.claims, Csid);
    if FoundByCsid(w.srv.sessions, csid, found) && found.Some? {
      GrantToSame(cfg, w, t, FromToken(token), found.value, FindCsid(w.srv.sessions[found.value].clientSessions,
          csid), "", creds);
    }
  }

  lemma TouchSame(w: World, t: nat, key: string, req: Request, pc: PC)
    requires key in w.srv.sessions
    ensures var s' := TouchSession(w.srv, key, req.clientID, req.challenge, req.challengeMethod, req.redirectURI);
            SameCache(w, Goto(w.(srv := s'), t, pc)) && (!pc.Verifying? ==> NoNewKeys(w, Goto(w.(srv := s'), t, pc)))
  {
    hide Touch;
  }

  lemma RequiredSame(w: World, t: nat, req: Request)
    ensures SameCache(w, LoginRequired(w, t, req)) && NoNewKeys(w, LoginRequired(w, t, req))
  {}

  lemma LookUpSessionSame(w: World, t: nat)
    ensures SameCache(w, LookUpSession(w, t)) && NoNewKeys(w, LookUpSession(w, t))
  {
    hide Touch, StringClaim, Goto, LoginRequired, SameSessions;
    MovesSame(w, t);
    if t in w.threads && w.threads[t].LookingUpSession? {
      var req := w.threads[t].req;
      RequiredSame(w, t, req);
      if req.cookie in w.srv.sessions {
        var s' := TouchSession(w.srv, req.cookie, req.clientID, req.challenge, req.challengeMethod, req.redirectURI);
        TouchSame(w, t, req.cookie, req, IssuingCode(s'.sessions[req.cookie], req.clientID, req.state, req.nonce));
      }
    }
  }

  lemma LookUpHintSame(w: World, t: nat, found: Option<string>)
    ensures SameCache(w, LookUpHint(w, t, found)) && NoNewKeys(w, LookUpHint(w, t, found))
  {
    hide Touch;
  }

  lemma CommitSame(cfg: Config, w: World, t: nat, found: Option<string>, cookie: string, csid: string)
    ensures SameCache(w, Commit(cfg, w, t, found, cookie, csid)) && NoNewKeys(w, Commit(cfg, w, t, found, cookie, csid))
  {
    hide ApprovedSession, CsidFor, Unused;
  }

  lemma LogoutSame(w: World, cookie: string)
    ensures SameCache(w, Logout(w, cookie)) && NoNewKeys(w, Logout(w, cookie))
  {}

  lemma RespondSame(cfg: Config, w: World, t: nat)
    ensures SameCache(w, Respond(cfg, w, t)) && NoNewKeys(w, Respond(cfg, w, t))
  {
    hide IssueFor, WithIssued;
  }

  /** Most steps touch neither sessions nor grants. */
  ghost predicate AwayFromSessions(e: Event) {
    !(e.ELookUpSession? || e.ELookUpHint? || e.ECommit? || e.ELogout? || e.ECheckCode? || e.EPresentToken?
        || e.ERespond?)
  }

  /** Only a stored document, and keys for one, change the cache. */
  ghost predicate AwayFromCache(e: Event) {
    !(e.EStore? || e.EKeysArrive?)
  }

  ghost predicate AwayFromKeys(e: Event) { !(e.EFindKeys? || e.EKeysArrive?) }

  lemma AwaySame(cfg: Config, w: World, e: Event)
    ensures AwayFromSessions(e) ==> SameSessions(w, Apply(cfg, w, e))
    ensures AwayFromCache(e) ==> SameCache(w, Apply(cfg, w, e))
    ensures AwayFromKeys(e) ==> NoNewKeys(w, Apply(cfg, w, e))
  {
    hide Tick, Register, Authorize, SeeAndAdmit, SaveContext, IssueCode, Login, Approve, PresentCode, Authenticate;
    hide LookUpSession, LookUpHint;
    hide Resolve, FetchDone, Store, FindKeys, KeysArrive, Verify, ConsumeJti, SameSessions, SameCache, NoNewKeys;
    hide Commit, Logout, CheckCode, PresentToken, Respond;
    match e
    case ESeeAndAdmit(t) => SeeSame(w, t);
    case ERegister(raw, id, secret) => RegisterSame(cfg, w, raw, id, secret);
    case EIssueCode(t, code) => IssueCodeSame(cfg, w, t, code);
    case EAuthenticate(t) => AuthenticateSame(w, t);
    case EFindKeys(t) => FindKeysSame(w, t);
    case EKeysArrive(t, fetched) => KeysArriveSame(cfg, w, t, fetched);
    case EVerify(t) => VerifySame(cfg, w, t);
    case EConsume(t) => ConsumeSame(w, t);
    case ETick(d) => TickLoginSame(w, d, "", "");
    case ELogin(reqID, username) => TickLoginSame(w, 0, reqID, username);
    case EAuthorize(t, req) => AuthorizeSame(cfg, w, t, req);
    case ESaveContext(t, reqID) => SaveContextSame(cfg, w, t, reqID);
    case EApprove(t, reqID, idc, acc) => ApproveSame(w, t, reqID, idc, acc);
    case EPresentCode(t, code, verifier, creds) => PresentCodeSame(w, t, code, verifier, creds);
    case ELookUpSession(t) => LookUpSessionSame(w, t);
    case ELookUpHint(t, found) => LookUpHintSame(w, t, found);
    case ECommit(t, found, cookie, csid) => CommitSame(cfg, w, t, found, cookie, csid);
    case ELogout(cookie) => LogoutSame(w, cookie);
    case ERespond(t) => RespondSame(cfg, w, t);
    case ECheckCode(t) => CheckCodeSame(cfg, w, t);
    case EPresentToken(t, token, creds, found) => PresentTokenSame(cfg, w, t, token, creds, found);
    case EResolve(t) => ResolveSame(w, t);
    case EFetchDone(t, doc, directives) => FetchDoneSame(cfg, w, t, doc, directives);
    case EStore(t) => StoreSame(w, t);
  }
}
