// The identity provider as a step machine. A request in flight is a program counter
// that holds its locals between critical sections; any other request may run in
// between. Next to the server's own state a World records what has happened, so that
// properties of whole runs can be stated: nothing in the server reads those records.
module Machine {
  import opened Lists
  import opened Scopes
  import opened Claims
  import opened Registration
  import opened Idp
  import opened Documents
  import opened Replay
  import opened IdpState

  datatype Kind = AccessKind | RefreshKind | IDKind

  /** A token this server signed; `csid` is the client session it was issued for. */
  datatype Token = Token(kind: Kind, claims: ClaimSet, csid: string)

  /** The parameters of an /authorize request; `hint` is a decoded id_token_hint. */
  datatype Request = Request(
    clientID: string,
    scope: string,
    redirectURI: string,
    state: string,
    nonce: string,
    challenge: string,
    challengeMethod: PkceMethod,
    promptNone: bool,
    cookie: string,
    hint: Option<Token>)

  datatype Origin =
    | FromCode(code: string, challenge: string, challengeMethod: PkceMethod, verifier: string)
    | FromToken(token: Token)

  /** A token request whose grant is established: the `serial`-th grant ever made. */
  datatype Ticket = Ticket(origin: Origin, g: Grant, creds: Credentials, serial: nat)

  /** The registration a token request was held to, and how it was obtained. */
  datatype Basis =
    | NoRegistration
    | AutomaticClient(reg: Registration)
    | DynamicClient(reg: Registration)
    | FreshDocument(reg: Registration, storedAt: int, resolvedAt: int)
    | StaleDocument(reg: Registration)

  /** A metadata document as it came: body, Cache-Control directives, and when. */
  datatype DocumentFetch = DocumentFetch(doc: Document, header: seq<Directive>, at: int)

  /** Who is waiting for a metadata document. */
  datatype Cont = ForAuthorize(req: Request) | ForToken(ticket: Ticket, known: Registration)

  datatype PC =
    | Registering(req: Request)
    | Resolving(clientID: string, cont: Cont)
    | Fetching(clientID: string, cont: Cont)
    | Storing(clientID: string, reg: Registration, ttl: int, got: DocumentFetch, cont: Cont)
    | LookingUpSession(req: Request)
    | LookingUpHint(req: Request, hintSub: string)
    | SavingContext(req: Request)
    | IssuingCode(sess: Session, codeClient: string, state: string, nonce: string)
    | Approving(reqID: string, ctx: AuthContext, idc: Option<ClaimSet>, acc: Option<ClaimSet>)
    | CodeTaken(code: string, meta: CodeMeta, verifier: string, creds: Credentials)
    | Authenticating(ticket: Ticket)
    | FindingKeys(ticket: Ticket, basis: Basis)
    | FetchingKeys(ticket: Ticket, basis: Basis)
    | Verifying(ticket: Ticket, basis: Basis, keys: KeySet)
    | Consuming(ticket: Ticket, basis: Basis, verifiedAt: int)
    | Responding(ticket: Ticket, basis: Basis, proof: Option<nat>)

  /** The login session and client a csid was drawn for. */
  datatype Owner = Owner(cookie: string, clientID: string)

  datatype CodeRecord = CodeRecord(cookie: string, clientID: string, sub: string, nonce: string)

  /** A dynamic registration as it was asked for: the metadata sent, the secret drawn, and when. */
  datatype Registered = Registered(raw: Registration, secret: string, at: int)

  datatype LoginRecord = LoginRecord(reqID: string, username: string)

  /** What was asked of the server, and what came of it. */
  datatype Past = Past(
    received: set<Request>,                  // every /authorize request
    asked: map<string, Request>,             // the request a login was asked for under a request id
    done: set<string>,                       // request ids approved
    logins: set<LoginRecord>,
    lastLogin: map<string, string>,          // the user who last logged in on a request id
    registered: map<string, Registered>,     // every dynamic registration
    documents: map<string, DocumentFetch>)   // the fetch behind the cached document of a client

  /** A redirect to a client: where to, with which code if any, and which state. */
  datatype Redirect = Redirect(clientID: string, uri: string, code: Option<string>, state: string)

  datatype StoredDocument = StoredDocument(clientID: string, reg: Registration, at: int)

  /** What a key URL answered, once, when it was asked. */
  datatype Fetch = Fetch(uri: string, keys: seq<Jwk>)

  datatype Response = Response(ticket: Ticket, basis: Basis, proof: Option<nat>, at: int)

  datatype World = World(
    srv: State,
    threads: map<nat, PC>,
    now: int,
    // what has happened
    seen: set<string>,                       // every identifier drawn or presented as a client_id or reqid
    cookies: map<string, string>,            // every session ever created, with its internal subject
    dead: map<string, nat>,                  // sessions logged out, and how many grants had been made by then
    csids: map<string, Owner>,               // every client session id ever drawn
    issued: map<string, CodeRecord>,         // every code ever issued
    consumed: set<string>,                   // codes presented at /token
    sectors: set<string>,                    // sectors subjects were advertised to
    stored: set<StoredDocument>,             // documents ever cached
    storedAt: map<string, int>,              // when the cached document of a client was stored
    observed: map<string, seq<Observation>>, // what automatic clients were seen to send
    minted: set<Token>,
    redirects: set<Redirect>,
    accepted: seq<Acceptance>,
    responses: seq<Response>,
    granted: seq<Grant>,                     // every grant ever made
    approvals: seq<string>,                  // the csid of every approval
    fetched: set<Fetch>,                     // every key set a key URL ever answered with
    past: Past)

  function Start(now: int): World {
    World(EMPTY_STATE, map[], now, {""}, map[], map[], map[], map[], {}, {}, {}, map[], map[], {}, {}, [], [], [], [],
          {}, Past({}, map[], {}, {}, map[], map[], map[]))
  }

  /** A random identifier: not one the server has met, and not a URL. */
  predicate Unused(cfg: Config, w: World, id: string) {
    id !in w.seen && id != "" && !cfg.isURL(id)
  }

  function End(w: World, t: nat): World { w.(threads := w.threads - {t}) }

  function Goto(w: World, t: nat, pc: PC): World { w.(threads := w.threads[t := pc]) }

  // ---------------------------------------------------------------- registration and clock

  function Tick(w: World, d: nat): World { w.(now := w.now + d) }

  function Register(cfg: Config, w: World, raw: Registration, id: string, secret: string): World {
    if !Unused(cfg, w, id) || secret == "" then w
    else
      match Normalize(cfg.validURI, raw, REGISTER_AUTH_METHODS, ClientSecretBasic)
      case Err(_) => w
      case Ok(reg) =>
        w.(srv := PutClient(w.srv, NewDynamic(reg, id, secret, w.now)), seen := w.seen + {id},
           past := w.past.(registered := w.past.registered[id := Registered(raw, secret, w.now)]))
  }

  // ---------------------------------------------------------------- /authorize

  /** RFC 7636 section 4.3: a challenge without a method means plain. */
  function WithPkceDefault(req: Request): Request {
    if req.challenge != "" && req.challengeMethod == NoMethod then req.(challengeMethod := Plain) else req
  }

  predicate PkceSupported(challenge: string, challengeMethod: PkceMethod) {
    challenge != "" ==> challengeMethod == Plain || challengeMethod == S256
  }

  function Authorize(cfg: Config, w: World, t: nat, raw: Request): World {
    var req := WithPkceDefault(raw);
    if t in w.threads || (req.hint.Some? && req.hint.value !in w.minted) then w
    else if !PkceSupported(req.challenge, req.challengeMethod) then w
    else
      Goto(w.(seen := w.seen + {req.clientID}, past := w.past.(received := w.past.received + {raw})), t,
           if cfg.isURL(req.clientID) then Resolving(req.clientID, ForAuthorize(req)) else Registering(req))
  }

  /** The checks at the end of resolveAuthorizeClient. */
  function AuthorizeWith(w: World, t: nat, req: Request, reg: Registration): World {
    if (reg.registeredBy == MetadataDocument || reg.registeredBy == Dynamic)
        && req.redirectURI !in reg.redirectURIs then End(w, t)
    else if reg.registeredBy == MetadataDocument && reg.authMethod == NoAuth && req.challenge == "" then End(w, t)
    else Goto(w, t, LookingUpSession(req))
  }

  function SeeAndAdmit(w: World, t: nat): World {
    if t !in w.threads || !w.threads[t].Registering? then w
    else
      var req := w.threads[t].req;
      var o := Observation(req.redirectURI, req.scope);
      var c := req.clientID;
      if c == "" then Goto(w, t, LookingUpSession(req))
      else
        var w' := Seen(w, c, o);
        AuthorizeWith(w', t, req, w'.srv.clients[c])
  }

  /** registerClientLocked, and what was observed if the registration is automatic. */
  function Seen(w: World, c: string, o: Observation): (w': World)
    requires c != ""
    ensures c in w'.srv.clients
  {
    var s' := SeeClient(w.srv, c, o, w.now);
    var before := if c in w.srv.clients && c in w.observed then w.observed[c] else [];
    w.(srv := s', observed := if s'.clients[c].registeredBy == Automatic then w.observed[c := before + [o]]
        else w.observed)
  }

  function LookUpSession(w: World, t: nat): World {
    if t !in w.threads || !w.threads[t].LookingUpSession? then w
    else
      var req := w.threads[t].req;
      if req.cookie in w.srv.sessions then
        var s' := TouchSession(w.srv, req.cookie, req.clientID, req.challenge, req.challengeMethod, req.redirectURI);
        Goto(w.(srv := s'), t, IssuingCode(s'.sessions[req.cookie], req.clientID, req.state, req.nonce))
      else if !req.promptNone then Goto(w, t, SavingContext(req))
      else if req.hint.None? then LoginRequired(w, t, req)
      else Goto(w, t, LookingUpHint(req, StringClaim(req.hint.value.claims, Sub)))
  }

  /** prompt=none without a session: an error goes to the request's own redirect URI. */
  function LoginRequired(w: World, t: nat, req: Request): World {
    End(w.(redirects := w.redirects + {Redirect(req.clientID, req.redirectURI, None, req.state)}), t)
  }

  ghost function LookUpHint(w: World, t: nat, found: Option<string>): World {
    if t !in w.threads || !w.threads[t].LookingUpHint? then w
    else
      var req := w.threads[t].req;
      if !FoundByHint(w.srv.sessions, w.threads[t].hintSub, found) then w
      else if found.None? then LoginRequired(w, t, req)
      else
        var s' := TouchSession(w.srv, found.value, req.clientID, req.challenge, req.challengeMethod, req.redirectURI);
        Goto(w.(srv := s'), t, IssuingCode(s'.sessions[found.value], req.clientID, req.state, req.nonce))
  }

  function SaveContext(cfg: Config, w: World, t: nat, reqID: string): World {
    if t !in w.threads || !w.threads[t].SavingContext? || !Unused(cfg, w, reqID) then w
    else
      var req := w.threads[t].req;
      var ctx := AuthContext(req.scope, req.clientID, req.redirectURI, req.state, req.nonce,
                             req.challenge, req.challengeMethod, "", "");
      End(w.(srv := PutContext(w.srv, reqID, ctx), seen := w.seen + {reqID},
             past := w.past.(asked := w.past.asked[reqID := req])), t)
  }

  /** issueCodeAndRedirect: the code is stored before the client session is looked for. */
  function IssueCode(cfg: Config, w: World, t: nat, code: string): World {
    if t !in w.threads || !w.threads[t].IssuingCode? || !Unused(cfg, w, code) then w
    else
      var pc := w.threads[t];
      var i := FindClient(pc.sess.clientSessions, pc.codeClient);
      var redirect := if i < |pc.sess.clientSessions|
                      then {Redirect(pc.codeClient, pc.sess.clientSessions[i].redirectURI, Some(code), pc.state)}
                          else {};
      End(w.(srv := PutCode(w.srv, code, pc.sess, pc.codeClient, pc.nonce),
             seen := w.seen + {code},
             issued := w.issued[code := CodeRecord(pc.sess.cookieID, pc.codeClient, pc.sess.sub, pc.nonce)],
             redirects := w.redirects + redirect), t)
  }

  // ---------------------------------------------------------------- /login, /approve, logout

  function Login(w: World, reqID: string, username: string): World {
    w.(srv := PutContext(w.srv, reqID, LoginContext(w.srv, reqID, username)), seen := w.seen + {reqID},
       past := w.past.(logins := w.past.logins + {LoginRecord(reqID, username)},
                       lastLogin := w.past.lastLogin[reqID := username]))
  }

  function Approve(w: World, t: nat, reqID: string, idc: Option<ClaimSet>, acc: Option<ClaimSet>): World {
    if t in w.threads || reqID !in w.srv.authContext then w
    else Goto(w, t, Approving(reqID, w.srv.authContext[reqID], idc, acc))
  }

  ghost function Commit(cfg: Config, w: World, t: nat, found: Option<string>, cookie: string, csid: string): World {
    if t !in w.threads || !w.threads[t].Approving? then w
    else if !Unused(cfg, w, cookie) || !Unused(cfg, w, csid) || cookie == csid then w
    else
      var pc := w.threads[t];
      if !FoundBySub(w.srv.sessions, pc.ctx.sub, found) then w
      else
        var sess := ApprovedSession(cfg, w.srv, pc.ctx, found, cookie, csid, pc.idc, pc.acc);
        Goto(Committed(cfg, w, pc.reqID, pc.ctx, pc.idc, pc.acc, found, cookie, csid), t,
             IssuingCode(sess, pc.ctx.clientID, pc.ctx.state, pc.ctx.nonce))
  }

  /** What an approval leaves behind. */
  function Committed(cfg: Config, w: World, reqID: string, ctx: AuthContext, idc: Option<ClaimSet>,
                     acc: Option<ClaimSet>, found: Option<string>, cookie: string, csid: string): World
    requires found.Some? ==> found.value in w.srv.sessions
  {
    var sess := ApprovedSession(cfg, w.srv, ctx, found, cookie, csid, idc, acc);
    var used := CsidFor(BaseSession(w.srv, ctx, found, cookie), ctx.clientID, csid);
    w.(srv := CommitApproval(w.srv, reqID, sess),
       seen := w.seen + {cookie, csid},
       cookies := if found.Some? then w.cookies else w.cookies[cookie := ctx.sub],
       csids := if used == csid then w.csids[csid := Owner(sess.cookieID, ctx.clientID)] else w.csids,
       sectors := w.sectors + {cfg.sector(ctx.redirectURI, ctx.clientID)},
       approvals := w.approvals + [used],
       past := w.past.(done := w.past.done + {reqID}))
  }

  /** /logout and /endsession-approve */
  function Logout(w: World, cookieID: string): World {
    w.(srv := DropSession(w.srv, cookieID),
       dead := if cookieID in w.srv.sessions then w.dead[cookieID := |w.granted|] else w.dead)
  }

  // ---------------------------------------------------------------- /token: the grant

  function PresentCode(w: World, t: nat, code: string, verifier: string, creds: Credentials): World {
    if t in w.threads || code !in w.srv.codeMeta then w
    else
      Goto(w.(srv := TakeCode(w.srv, code), consumed := w.consumed + {code}),
           t, CodeTaken(code, w.srv.codeMeta[code], verifier, creds))
  }

  /** A grant is read off one entry of a session. */
  function GrantTo(cfg: Config, w: World, t: nat, origin: Origin, key: string, i: nat, nonce: string,
                   creds: Credentials): World
    requires key in w.srv.sessions && i < |w.srv.sessions[key].clientSessions|
  {
    var g := GrantOf(cfg, key, w.srv.sessions[key], w.srv.sessions[key].clientSessions[i], nonce);
    Goto(w.(srv := StampSession(w.srv, key, i), granted := w.granted + [g]), t,
         Authenticating(Ticket(origin, g, creds, |w.granted|)))
  }

  function CheckCode(cfg: Config, w: World, t: nat): World {
    if t !in w.threads || !w.threads[t].CodeTaken? then w
    else
      var pc := w.threads[t];
      if pc.meta.cookieID !in w.srv.sessions then End(w, t)
      else
        var sess := w.srv.sessions[pc.meta.cookieID];
        var i := FindClient(sess.clientSessions, pc.meta.clientID);
        if i == |sess.clientSessions| then End(w, t)
        else
          var cs := sess.clientSessions[i];
          if !PkceAccepts(cfg, cs.challenge, cs.challengeMethod, pc.verifier) then End(w, t)
          else
            GrantTo(cfg, w, t, FromCode(pc.code, cs.challenge, cs.challengeMethod, pc.verifier),
                    pc.meta.cookieID, i, pc.meta.nonce, pc.creds)
  }

  /** The refresh_token grant accepts any token the server signed. */
  ghost function PresentToken(cfg: Config, w: World, t: nat, token: Token, creds: Credentials,
                              found: Option<string>): World {
    if t in w.threads || token !in w.minted then w
    else
      var csid := StringClaim(token.claims, Csid);
      if !FoundByCsid(w.srv.sessions, csid, found) || found.None? then w
      else
        var i := FindCsid(w.srv.sessions[found.value].clientSessions, csid);
        GrantTo(cfg, w, t, FromToken(token), found.value, i, "", creds)
  }

  // ---------------------------------------------------------------- /token: client authentication

  function TokenWith(w: World, t: nat, ticket: Ticket, basis: Basis): World
    requires !basis.NoRegistration?
  {
    match Decide(basis.reg, ticket.g.clientID, ticket.creds)
    case Admit => Goto(w, t, Responding(ticket, basis, None))
    case Deny => End(w, t)
    case NeedsAssertion => Goto(w, t, FindingKeys(ticket, basis))
  }

  function Authenticate(w: World, t: nat): World {
    if t !in w.threads || !w.threads[t].Authenticating? then w
    else
      var ticket := w.threads[t].ticket;
      var c := ticket.g.clientID;
      if c !in w.srv.clients then Goto(w, t, Responding(ticket, NoRegistration, None))
      else
        var reg := w.srv.clients[c];
        match reg.registeredBy
        case Dynamic => TokenWith(w, t, ticket, DynamicClient(reg))
        case MetadataDocument => Goto(w, t, Resolving(c, ForToken(ticket, reg)))
        case _ => Goto(w, t, Responding(ticket, AutomaticClient(reg), None))
  }

  function Resolved(w: World, t: nat, cont: Cont, reg: Registration, storedAt: int): World {
    match cont
    case ForAuthorize(req) => AuthorizeWith(w, t, req, reg)
    case ForToken(ticket, _) => TokenWith(w, t, ticket, FreshDocument(reg, storedAt, w.now))
  }

  /** No usable document: a client that authenticates with keys fails closed. */
  function Unresolved(w: World, t: nat, cont: Cont): World {
    match cont
    case ForAuthorize(_) => End(w, t)
    case ForToken(ticket, known) =>
      if known.authMethod == PrivateKeyJwt then End(w, t) else TokenWith(w, t, ticket, StaleDocument(known))
  }

  /** resolveClientIDMetadata: the cache look-up. */
  function Resolve(w: World, t: nat): World {
    if t !in w.threads || !w.threads[t].Resolving? then w
    else
      var c, cont := w.threads[t].clientID, w.threads[t].cont;
      if Live(w.srv, c, w.now)
      then Resolved(w, t, cont, w.srv.metadata[c].reg, if c in w.storedAt then w.storedAt[c] else w.now)
      else Goto(w, t, Fetching(c, cont))
  }

  /** The fetch comes back, with the lock released: with nothing, or with a document. */
  function FetchDone(cfg: Config, w: World, t: nat, doc: Option<Document>, directives: seq<Directive>): World {
    if t !in w.threads || !w.threads[t].Fetching? then w
    else
      var c, cont := w.threads[t].clientID, w.threads[t].cont;
      if doc.None? then Unresolved(w, t, cont)
      else
        match Validate(cfg, c, doc.value, w.now)
        case Err(_) => Unresolved(w, t, cont)
        case Ok(reg) =>
          Goto(w, t, Storing(c, reg, TtlFrom(cfg, directives), DocumentFetch(doc.value, directives, w.now), cont))
  }

  function Store(w: World, t: nat): World {
    if t !in w.threads || !w.threads[t].Storing? then w
    else
      var pc := w.threads[t];
      var s' := StoreDocument(w.srv, pc.clientID, pc.reg, pc.ttl, w.now);
      var reg := s'.clients[pc.clientID];
      Resolved(w.(srv := s', stored := w.stored + {StoredDocument(pc.clientID, reg, w.now)},
                  storedAt := w.storedAt[pc.clientID := w.now],
                  past := w.past.(documents := w.past.documents[pc.clientID := pc.got])),
               t, pc.cont, reg, w.now)
  }

  function FindKeys(w: World, t: nat): World {
    if t !in w.threads || !w.threads[t].FindingKeys? then w
    else
      var pc := w.threads[t];
      var c := pc.ticket.g.clientID;
      if Live(w.srv, c, w.now) && w.srv.metadata[c].keys.Some?
      then Goto(w, t, Verifying(pc.ticket, pc.basis, w.srv.metadata[c].keys.value))
      else Goto(w, t, FetchingKeys(pc.ticket, pc.basis))
  }

  /** Keys are parsed, from the document or from the answer of its key URL, and put in the cache. */
  function Arrived(w: World, c: string, keys: KeySet): World {
    w.(srv := PutKeys(w.srv, c, keys, w.now),
       fetched := w.fetched + if keys.source.Fetched? then {Fetch(keys.source.uri, keys.keys)} else {})
  }

  /** `fetched` is the jwks_uri response, when there is one. */
  function KeysArrive(cfg: Config, w: World, t: nat, fetched: string): World {
    if t !in w.threads || !w.threads[t].FetchingKeys? || w.threads[t].basis.NoRegistration? then w
    else
      var pc := w.threads[t];
      var source := SourceOf(pc.basis.reg);
      if source.None? then End(w, t)
      else
        var keys := cfg.parseKeys(if source.value.Inline? then source.value.jwks else fetched);
        if keys == [] then End(w, t)
        else
          var set_ := KeySet(source.value, keys);
          Goto(Arrived(w, pc.ticket.g.clientID, set_), t, Verifying(pc.ticket, pc.basis, set_))
  }

  function Verify(cfg: Config, w: World, t: nat): World {
    if t !in w.threads || !w.threads[t].Verifying? then w
    else
      var pc := w.threads[t];
      if pc.ticket.creds.assertion.Some?
         && AssertionValid(cfg, pc.keys.keys, pc.ticket.g.clientID, pc.ticket.creds.assertion.value, w.now)
      then Goto(w, t, Consuming(pc.ticket, pc.basis, w.now))
      else End(w, t)
  }

  function ConsumeJti(w: World, t: nat): World {
    if t !in w.threads || !w.threads[t].Consuming? then w
    else
      var pc := w.threads[t];
      if pc.ticket.creds.assertion.None? || pc.ticket.creds.assertion.value.exp.None? then End(w, t)
      else
        var a := pc.ticket.creds.assertion.value;
        var acceptance := Acceptance(pc.ticket.g.clientID, a.jti, a.exp.value, pc.verifiedAt, w.now);
        var key := KeyOf(acceptance);
        var w' := w.(srv := w.srv.(jtis := Consume(w.srv.jtis, key, a.exp.value, w.now)));
        if Accepts(w.srv.jtis, key, w.now)
        then Goto(w'.(accepted := w.accepted + [acceptance]), t, Responding(pc.ticket, pc.basis, Some(|w.accepted|)))
        else End(w', t)
  }

  // ---------------------------------------------------------------- /token: the response

  function TokensOf(g: Grant, issued: Issued): set<Token> {
    {Token(AccessKind, issued.access, g.csid)}
    + (if issued.refresh.Some? then {Token(RefreshKind, issued.refresh.value, g.csid)} else {})
    + (if issued.id.Some? then {Token(IDKind, issued.id.value, g.csid)} else {})
  }

  /** The tokens an answer gave out. */
  function Given(cfg: Config, r: Response): set<Token> {
    TokensOf(r.ticket.g, IssueFor(cfg, r.ticket.g, r.at))
  }

  function Respond(cfg: Config, w: World, t: nat): World {
    if t !in w.threads || !w.threads[t].Responding? then w
    else
      var pc := w.threads[t];
      var issued := IssueFor(cfg, pc.ticket.g, w.now);
      End(w.(srv := StoreIssued(w.srv, pc.ticket.g, issued),
             minted := w.minted + TokensOf(pc.ticket.g, issued),
             responses := w.responses + [Response(pc.ticket, pc.basis, pc.proof, w.now)]), t)
  }

  // ---------------------------------------------------------------- runs

  datatype Event =
    | ETick(d: nat)
    | ERegister(raw: Registration, id: string, secret: string)
    | EAuthorize(t: nat, req: Request)
    | ESeeAndAdmit(t: nat)
    | ELookUpSession(t: nat)
    | ELookUpHint(t: nat, found: Option<string>)
    | ESaveContext(t: nat, reqID: string)
    | EIssueCode(t: nat, code: string)
    | ELogin(reqID: string, username: string)
    | EApprove(t: nat, reqID: string, idc: Option<ClaimSet>, acc: Option<ClaimSet>)
    | ECommit(t: nat, found: Option<string>, cookie: string, csid: string)
    | ELogout(cookie: string)
    | EPresentCode(t: nat, code: string, verifier: string, creds: Credentials)
    | ECheckCode(t: nat)
    | EPresentToken(t: nat, token: Token, creds: Credentials, found: Option<string>)
    | EAuthenticate(t: nat)
    | EResolve(t: nat)
    | EFetchDone(t: nat, doc: Option<Document>, directives: seq<Directive>)
    | EStore(t: nat)
    | EFindKeys(t: nat)
    | EKeysArrive(t: nat, fetched: string)
    | EVerify(t: nat)
    | EConsume(t: nat)
    | ERespond(t: nat)

  /** One step. An event that is not possible in a world leaves it as it is. */
  ghost function Apply(cfg: Config, w: World, e: Event): World {
    match e
    case ETick(d) => Tick(w, d)
    case ERegister(raw, id, secret) => Register(cfg, w, raw, id, secret)
    case EAuthorize(t, req) => Authorize(cfg, w, t, req)
    case ESeeAndAdmit(t) => SeeAndAdmit(w, t)
    case ELookUpSession(t) => LookUpSession(w, t)
    case ELookUpHint(t, found) => LookUpHint(w, t, found)
    case ESaveContext(t, reqID) => SaveContext(cfg, w, t, reqID)
    case EIssueCode(t, code) => IssueCode(cfg, w, t, code)
    case ELogin(reqID, username) => Login(w, reqID, username)
    case EApprove(t, reqID, idc, acc) => Approve(w, t, reqID, idc, acc)
    case ECommit(t, found, cookie, csid) => Commit(cfg, w, t, found, cookie, csid)
    case ELogout(cookie) => Logout(w, cookie)
    case EPresentCode(t, code, verifier, creds) => PresentCode(w, t, code, verifier, creds)
    case ECheckCode(t) => CheckCode(cfg, w, t)
    case EPresentToken(t, token, creds, found) => PresentToken(cfg, w, t, token, creds, found)
    case EAuthenticate(t) => Authenticate(w, t)
    case EResolve(t) => Resolve(w, t)
    case EFetchDone(t, doc, directives) => FetchDone(cfg, w, t, doc, directives)
    case EStore(t) => Store(w, t)
    case EFindKeys(t) => FindKeys(w, t)
    case EKeysArrive(t, fetched) => KeysArrive(cfg, w, t, fetched)
    case EVerify(t) => Verify(cfg, w, t)
    case EConsume(t) => ConsumeJti(w, t)
    case ERespond(t) => Respond(cfg, w, t)
  }

  ghost function Run(cfg: Config, w: World, events: seq<Event>): World {
    if events == [] then w else Apply(cfg, Run(cfg, w, events[..|events| - 1]), events[|events| - 1])
  }
}
