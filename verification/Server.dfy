// The server object: its maps, and one method for each piece of code that runs with the
// lock held. Every method is proved against the state function the machine steps with, so
// what is proved of runs of the machine is about this code.
module ServerObject {
  import opened Lists
  import opened Scopes
  import opened Claims
  import opened Registration
  import opened Idp
  import opened Documents
  import opened Replay
  import opened IdpState

  class Server {
    const cfg: Config
    var authContext: map<string, AuthContext>
    var codeMeta: map<string, CodeMeta>
    var sessions: map<string, Session>
    var clients: map<string, Registration>
    var metadata: map<string, MetadataEntry>
    var jtis: map<string, int>

    constructor (cfg: Config)
      ensures Model() == EMPTY_STATE && this.cfg == cfg
    {
      this.cfg := cfg;
      authContext, codeMeta, sessions, clients, metadata, jtis := map[], map[], map[], map[], map[], map[];
    }

    function Model(): State
      reads this
    {
      State(authContext, codeMeta, sessions, clients, metadata, jtis)
    }

    // ---------------------------------------------------------------- clients

    /** POST /register */
    method Register(raw: Registration, id: string, secret: string, now: int) returns (result: Result<Registration,
                    RegistrationError>)
      modifies this
      ensures match Normalize(cfg.validURI, raw, REGISTER_AUTH_METHODS, ClientSecretBasic)
              case Err(e) => result == Err(e) && Model() == old(Model())
              case Ok(reg) =>
                && result == Ok(NewDynamic(reg, id, secret, now)) && Model() == PutClient(old(Model()), result.value)
                && result.value.clientID == id && result.value.issuedAt == now / SECOND
                && result.value.registeredBy == Dynamic
                && (result.value.authMethod != NoAuth ==>
                      result.value.secret == secret && result.value.secretExpiresAt == Some(0))
                && result.value == reg.(clientID := id, issuedAt := now / SECOND, registeredBy := Dynamic,
                                        secret := result.value.secret, secretExpiresAt := result.value.secretExpiresAt)
                && id in clients && clients[id] == result.value
    {
      var normalized := NormalizeRegistration(cfg.validURI, raw, REGISTER_AUTH_METHODS, ClientSecretBasic);
      if normalized.Err? { return Err(normalized.error); }
      var reg := normalized.value;
      reg := reg.(clientID := id);
      reg := reg.(issuedAt := now / SECOND);
      reg := reg.(registeredBy := Dynamic);
      if reg.authMethod != NoAuth {
        reg := reg.(secret := secret);
        reg := reg.(secretExpiresAt := Some(0));
      }
      clients := clients[reg.clientID := reg];
      return Ok(reg);
    }

    method RegisterClientLocked(clientID: string, redirectURI: string, scope: string, now: int)
      modifies this
      ensures Model() == SeeClient(old(Model()), clientID, Observation(redirectURI, scope), now)
    {
      if clientID == "" { return; }
      var known := clientID in clients;
      if known && clients[clientID].registeredBy != Automatic { return; }
      var reg := if known then clients[clientID] else FirstSight(clientID, now / SECOND);
      if redirectURI != "" {
        var uris := DedupeStrings(reg.redirectURIs + [redirectURI]);
        reg := reg.(redirectURIs := uris);
      }
      if scope != "" {
        var words := DedupeStrings(Fields(reg.scope) + Fields(scope));
        reg := reg.(scope := Join(words));
      }
      var offline := HasScopeLoop(scope, "offline_access");
      if offline {
        var grants := DedupeStrings(reg.grantTypes + [RefreshToken]);
        reg := reg.(grantTypes := grants);
      }
      clients := clients[clientID := reg];
    }

    /** The cached document, if it is live. */
    method CachedDocument(clientID: string, now: int) returns (reg: Option<Registration>)
      ensures reg == if Live(Model(), clientID, now) then Some(metadata[clientID].reg) else None
    {
      if clientID in metadata && now < metadata[clientID].expiresAt { return Some(metadata[clientID].reg); }
      return None;
    }

    method StoreMetadata(clientID: string, fetched: Registration, ttl: int, now: int) returns (reg: Registration)
      modifies this
      ensures Model() == StoreDocument(old(Model()), clientID, fetched, ttl, now)
      ensures reg == KeepIssueTime(old(Model()), clientID, fetched)
    {
      reg := fetched;
      if clientID in clients {
        var previous := clients[clientID];
        if previous.registeredBy == MetadataDocument && previous.issuedAt != 0 {
            reg := reg.(issuedAt := previous.issuedAt); }
      }
      metadata := metadata[clientID := MetadataEntry(reg, None, now + ttl)];
      clients := clients[clientID := reg];
    }

    method StoreKeys(clientID: string, keys: KeySet, now: int)
      modifies this
      ensures Model() == PutKeys(old(Model()), clientID, keys, now)
    {
      if clientID in metadata && now < metadata[clientID].expiresAt {
        metadata := metadata[clientID := metadata[clientID].(keys := Some(keys))];
      }
    }

    // ---------------------------------------------------------------- /authorize

    /** An existing session under the request's cookie is brought up to date. */
    method AuthorizeWithCookie(cookie: string, clientID: string, challenge: string, challengeMethod: PkceMethod,
                               redirectURI: string)
      returns (sess: Option<Session>)
      modifies this
      ensures cookie !in old(sessions) ==> sess == None && Model() == old(Model())
      ensures cookie in old(sessions) ==>
                && Model() == TouchSession(old(Model()), cookie, clientID, challenge, challengeMethod, redirectURI)
                && sess == Some(sessions[cookie])
    {
      if cookie !in sessions { return None; }
      var updated := UpdateClientSession(sessions[cookie], clientID, challenge, challengeMethod, redirectURI);
      sessions := sessions[cookie := updated];
      return Some(updated);
    }

    /** prompt=none: the session an id_token_hint names is brought up to date. */
    method AuthorizeWithHint(hintSub: string, clientID: string, challenge: string, challengeMethod: PkceMethod,
                             redirectURI: string)
      returns (found: Option<string>)
      modifies this
      ensures FoundByHint(old(sessions), hintSub, found)
      ensures Model() == if found.Some?
                         then TouchSession(old(Model()), found.value, clientID, challenge, challengeMethod, redirectURI)
                         else old(Model())
    {
      found := GetSessionByAdvertisedSub(sessions, hintSub);
      if found.Some? {
        var updated := UpdateClientSession(sessions[found.value], clientID, challenge, challengeMethod, redirectURI);
        sessions := sessions[found.value := updated];
      }
    }

    method SaveContext(reqID: string, ctx: AuthContext)
      modifies this
      ensures Model() == PutContext(old(Model()), reqID, ctx)
    {
      authContext := authContext[reqID := ctx];
    }

    // ---------------------------------------------------------------- /login, /approve, logout

    method Login(reqID: string, username: string) returns (ctx: AuthContext)
      modifies this
      ensures ctx == LoginContext(old(Model()), reqID, username) && Model() == PutContext(old(Model()), reqID, ctx)
      ensures ctx.username == username && ctx.sub == "internal|" + username
      ensures reqID in old(authContext) ==>
                ctx == old(authContext)[reqID].(username := ctx.username, sub := ctx.sub)
    {
      ctx := if reqID in authContext then authContext[reqID] else ZERO_CONTEXT;
      ctx := ctx.(username := username);
      ctx := ctx.(sub := InternalSub(username));
      authContext := authContext[reqID := ctx];
    }

    /** The second critical section of approve; `cookie` and `csid` are fresh UUIDs. */
    method CommitApproval(reqID: string, ctx: AuthContext, idc: Option<ClaimSet>, acc: Option<ClaimSet>,
                          cookie: string, csid: string)
      returns (sess: Session, found: Option<string>)
      modifies this
      ensures FoundBySub(old(sessions), ctx.sub, found)
      ensures sess == ApprovedSession(cfg, old(Model()), ctx, found, cookie, csid, idc, acc)
      ensures Model() == IdpState.CommitApproval(old(Model()), reqID, sess)
    {
      authContext := authContext - {reqID};
      found := GetSessionBySub(sessions, ctx.sub);
      sess := if found.Some? then sessions[found.value] else Session(ctx.username, ctx.sub, cookie, []);
      var id := "";
      for i := 0 to |sess.clientSessions|
        invariant id == "" && forall j :: 0 <= j < i ==> sess.clientSessions[j].clientID != ctx.clientID
      {
        if sess.clientSessions[i].clientID == ctx.clientID {
          id := sess.clientSessions[i].sessionID;
          break;
        }
      }
      if id == "" { id := csid; }
      var css := UpsertClientSession(sess.clientSessions, ApprovedClient(cfg, ctx, id, idc, acc));
      sess := sess.(clientSessions := css);
      sessions := sessions[sess.cookieID := sess];
    }

    /** issueCodeAndRedirect: where the code goes, unless the client has no entry. */
    method IssueCode(code: string, sess: Session, clientID: string, nonce: string) returns (redirect: Option<string>)
      modifies this
      ensures Model() == PutCode(old(Model()), code, sess, clientID, nonce)
      ensures var i := FindClient(sess.clientSessions, clientID);
              redirect == if i < |sess.clientSessions| then Some(sess.clientSessions[i].redirectURI) else None
    {
      codeMeta := codeMeta[code := CodeMeta(sess.cookieID, clientID, nonce)];
      var i := GetClientSessionByID(sess, clientID);
      return if i < |sess.clientSessions| then Some(sess.clientSessions[i].redirectURI) else None;
    }

    method Logout(cookieID: string)
      modifies this
      ensures Model() == DropSession(old(Model()), cookieID)
    {
      sessions := sessions - {cookieID};
    }

    // ---------------------------------------------------------------- /token

    /** A presented code is spent whether or not anything comes of it. */
    method RedeemCode(code: string) returns (meta: Option<CodeMeta>)
      modifies this
      ensures meta == if code in old(codeMeta) then Some(old(codeMeta)[code]) else None
      ensures Model() == TakeCode(old(Model()), code)
    {
      if code !in codeMeta { return None; }
      meta := Some(codeMeta[code]);
      codeMeta := codeMeta - {code};
    }

    method StampAccessClaims(key: string, i: nat)
      modifies this
      requires key in sessions && i < |sessions[key].clientSessions|
      ensures Model() == StampSession(old(Model()), key, i)
    {
      var sess := sessions[key];
      var cs := sess.clientSessions[i];
      if cs.accessTokenClaims.Some? {
        cs := cs.(accessTokenClaims := Some(cs.accessTokenClaims.value[Csid := Str(cs.sessionID)]));
      }
      sessions := sessions[key := sess.(clientSessions := sess.clientSessions[i := cs])];
    }

    method GrantForCode(meta: CodeMeta, verifier: string) returns (g: Option<Grant>)
      modifies this
      ensures g.None? ==> Model() == old(Model())
      ensures g.Some? <==> && meta.cookieID in old(sessions)
                           && var sess := old(sessions)[meta.cookieID];
                              var i := FindClient(sess.clientSessions, meta.clientID);
                              && i < |sess.clientSessions|
                              && PkceAccepts(cfg, sess.clientSessions[i].challenge,
                                  sess.clientSessions[i].challengeMethod, verifier)
      ensures g.Some? ==>
                var sess := old(sessions)[meta.cookieID];
                var i := FindClient(sess.clientSessions, meta.clientID);
                && g.value == GrantOf(cfg, meta.cookieID, sess, sess.clientSessions[i], meta.nonce)
                && Model() == StampSession(old(Model()), meta.cookieID, i)
    {
      if meta.cookieID !in sessions { return None; }
      var sess := sessions[meta.cookieID];
      var i := GetClientSessionByID(sess, meta.clientID);
      if i == |sess.clientSessions| { return None; }
      var cs := sess.clientSessions[i];
      if cs.challenge != "" {
        match cs.challengeMethod {
          case Plain => if verifier != cs.challenge { return None; }
          case S256 => if cfg.s256(verifier) != cs.challenge { return None; }
          case _ => return None;
        }
      }
      StampAccessClaims(meta.cookieID, i);
      return Some(GrantOf(cfg, meta.cookieID, sess, cs, meta.nonce));
    }

    /** `csid` is the claim of a presented token that this server signed. */
    method GrantForToken(csid: string) returns (g: Option<Grant>, found: Option<string>)
      modifies this
      ensures FoundByCsid(old(sessions), csid, found) && (g.Some? <==> found.Some?)
      ensures g.None? ==> Model() == old(Model())
      ensures g.Some? ==>
                var sess := old(sessions)[found.value];
                var i := FindCsid(sess.clientSessions, csid);
                && g.value == GrantOf(cfg, found.value, sess, sess.clientSessions[i], "")
                && Model() == StampSession(old(Model()), found.value, i)
    {
      found := GetSessionByClientSessionID(sessions, csid);
      if found.None? { return None, found; }
      var sess := sessions[found.value];
      var i := FindCsid(sess.clientSessions, csid);
      StampAccessClaims(found.value, i);
      return Some(GrantOf(cfg, found.value, sess, sess.clientSessions[i], "")), found;
    }

    /** The tokens of one response, and what is remembered of them. */
    method IssueTokens(g: Grant, now: int) returns (issued: Issued)
      ensures issued == IssueFor(cfg, g, now)
    {
      var audience := DedupeStrings([cfg.externalURL + "/userinfo"] + cfg.extraAudiences);
      var access, _ := IssueToken(cfg.externalURL, g.advertisedSub, audience, g.accessClaims, now,
          now + cfg.accessLifetime * SECOND);
      var refresh, id := None, None;
      var offline := HasScopeLoop(g.scope, "offline_access");
      if offline {
        var signed, _ := IssueToken(cfg.externalURL, g.advertisedSub, [cfg.externalURL + "/token"],
                                    map[TokenUse := Str("refresh"), Csid := Str(g.csid)], now,
                                        now + cfg.refreshLifetime * SECOND);
        refresh := Some(signed);
      }
      var openid := HasScopeLoop(g.scope, "openid");
      if openid {
        var signed, _ := IssueToken(cfg.externalURL, g.advertisedSub, [g.clientID], g.idTokenClaims, now,
            now + 3600 * SECOND);
        id := Some(signed);
      }
      return Issued(access, refresh, id);
    }

    method StoreTokens(g: Grant, issued: Issued)
      modifies this
      ensures Model() == StoreIssued(old(Model()), g, issued)
    {
      if g.cookieID !in sessions { return; }
      var sess := sessions[g.cookieID];
      for i := 0 to |sess.clientSessions|
        invariant Model() == old(Model()) && sess == sessions[g.cookieID]
        invariant forall j :: 0 <= j < i ==> sess.clientSessions[j].sessionID != g.csid
      {
        if sess.clientSessions[i].sessionID == g.csid {
          var cs := sess.clientSessions[i];
          cs := cs.(advertisedSub := g.advertisedSub);
          cs := cs.(accessTokenClaims := Some(Remembered(issued.access)));
          cs := cs.(refreshTokenClaims := MapRemembered(issued.refresh));
          if issued.id.Some? { cs := cs.(idTokenClaims := MapRemembered(issued.id)); }
          sess := sess.(clientSessions := sess.clientSessions[i := cs]);
          sessions := sessions[g.cookieID := sess];
          return;
        }
      }
      sessions := sessions[g.cookieID := sess];
    }

    // ---------------------------------------------------------------- private_key_jwt

    /** consumePrivateKeyJWTJTI: prunes in place, then looks, then records. */
    method ConsumeJti(clientID: string, jti: string, exp: int, now: int) returns (ok: bool)
      modifies this
      ensures ok == Accepts(old(jtis), Key(clientID, jti), now)
      ensures Model() == old(Model()).(jtis := Consume(old(jtis), Key(clientID, jti), exp, now))
    {
      var todo := jtis.Keys;
      while todo != {}
        invariant todo <= jtis.Keys <= old(jtis).Keys
        invariant forall k :: k in jtis ==> jtis[k] == old(jtis)[k]
        invariant forall k :: k in old(jtis) && k !in todo ==> (k in jtis <==> now <= old(jtis)[k])
        invariant Model() == old(Model()).(jtis := jtis)
        decreases |todo|
      {
        var k :| k in todo;
        todo := todo - {k};
        if jtis[k] < now { jtis := jtis - {k}; }
      }
      assert jtis == Prune(old(jtis), now);
      var key := Key(clientID, jti);
      if key in jtis { return false; }
      jtis := jtis[key := exp + LEEWAY];
      return true;
    }
  }
}
