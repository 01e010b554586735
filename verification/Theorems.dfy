// What the identity provider promises, for every reachable world and every run.
module Theorems {
  import opened Lists
  import opened Scopes
  import opened Claims
  import opened Registration
  import opened Idp
  import opened Documents
  import opened Replay
  import opened IdpState
  import opened Machine
  import opened Invariants
  import opened Steps
  import opened TokenSteps

  /** Some interleaving of requests leads from an empty server to this world. */
  ghost predicate Reachable(cfg: Config, w: World) {
    exists start: int, events: seq<Event> :: SECOND <= start && w == Run(cfg, Start(start), events)
  }

  lemma ReachableOk(cfg: Config, w: World)
    requires UrlsSane(cfg) && Reachable(cfg, w)
    ensures Inv(cfg, w)
  {
    var start: int, events: seq<Event> :| SECOND <= start && w == Run(cfg, Start(start), events);
    StartOk(cfg, start);
    RunKeeps(cfg, Start(start), events);
  }

  // ---------------------------------------------------------------- sessions

  /** The tables agree with themselves: keys with entries, one session a subject, one entry a
      client, one place a csid - so no scan of the session map can depend on its order. */
  lemma SessionsCoherent(cfg: Config, w: World)
    requires UrlsSane(cfg) && Reachable(cfg, w)
    ensures forall k :: k in w.srv.sessions ==>
              w.srv.sessions[k].cookieID == k && DistinctClients(w.srv.sessions[k].clientSessions)
    ensures forall sub, f, f' :: FoundBySub(w.srv.sessions, sub, f) && FoundBySub(w.srv.sessions, sub, f') ==> f == f'
    ensures forall k, k', i, i' :: k in w.srv.sessions && k' in w.srv.sessions
              && 0 <= i < |w.srv.sessions[k].clientSessions| && 0 <= i' < |w.srv.sessions[k'].clientSessions|
              && w.srv.sessions[k].clientSessions[i].sessionID == w.srv.sessions[k'].clientSessions[i'].sessionID
              ==> k == k' && i == i'
  {
    ReachableOk(cfg, w);
    forall k, k', i, i' | k in w.srv.sessions && k' in w.srv.sessions
      && 0 <= i < |w.srv.sessions[k].clientSessions| && 0 <= i' < |w.srv.sessions[k'].clientSessions|
      && w.srv.sessions[k].clientSessions[i].sessionID == w.srv.sessions[k'].clientSessions[i'].sessionID
      ensures k == k' && i == i'
    {
      CsidOwned(cfg, w, k, i);
      CsidOwned(cfg, w, k', i');
      SessionAt(cfg, w, k);
    }
  }

  lemma CsidOwned(cfg: Config, w: World, k: string, i: nat)
    requires Inv(cfg, w) && k in w.srv.sessions && i < |w.srv.sessions[k].clientSessions|
    ensures var cs := w.srv.sessions[k].clientSessions[i];
            cs.sessionID in w.csids && w.csids[cs.sessionID] == Owner(k, cs.clientID)
            && k in w.cookies && w.srv.sessions[k].sub == w.cookies[k]
  {
    hide ContextsInv, CodesInv, RegistryInv, ThreadsInv, OutputsInv, ReplayInv, AcceptedOk, CodesApart, ProofsApart;
    SessionAt(cfg, w, k);
    assert ClientSessionOk(cfg, w, k, w.srv.sessions[k].sub, w.srv.sessions[k].clientSessions[i]);
  }

  /** Whatever happens later, a csid is only ever found where it was first drawn: in the same
      login session, for the same client and the same internal subject. */
  lemma CsidForever(cfg: Config, w: World, later: seq<Event>, k: string, i: nat, found: Option<string>)
    requires UrlsSane(cfg) && Reachable(cfg, w)
    requires k in w.srv.sessions && i < |w.srv.sessions[k].clientSessions|
    requires FoundByCsid(Run(cfg, w, later).srv.sessions, w.srv.sessions[k].clientSessions[i].sessionID, found)
    ensures found.Some? ==>
              var w', cs := Run(cfg, w, later), w.srv.sessions[k].clientSessions[i];
              var j := FindCsid(w'.srv.sessions[found.value].clientSessions, cs.sessionID);
              && found.value == k && w'.srv.sessions[k].sub == w.srv.sessions[k].sub
              && w'.srv.sessions[k].clientSessions[j].clientID == cs.clientID
  {
    hide Inv, UrlsSane;
    ReachableOk(cfg, w);
    RunKeeps(cfg, w, later);
    CsidOwned(cfg, w, k, i);
    if found.Some? {
      var w', cs := Run(cfg, w, later), w.srv.sessions[k].clientSessions[i];
      CsidOwned(cfg, w', found.value, FindCsid(w'.srv.sessions[found.value].clientSessions, cs.sessionID));
    }
  }

  // ---------------------------------------------------------------- logout

  /** After logout the session never comes back, so no later code, refresh token or csid of it
      is granted anything: a response for that session, whenever it goes out, answers a grant
      that was made before the logout. */
  lemma LogoutIsFinal(cfg: Config, w: World, cookie: string, later: seq<Event>)
    requires UrlsSane(cfg) && Reachable(cfg, w) && cookie in w.srv.sessions
    ensures var w' := Run(cfg, Logout(w, cookie), later);
            && cookie !in w'.srv.sessions
            && (forall i :: 0 <= i < |w'.responses| && w'.responses[i].ticket.g.cookieID == cookie ==>
                  w'.responses[i].ticket.serial < |w.granted|)
  {
    hide Inv, UrlsSane, Apply;
    ReachableOk(cfg, w);
    LogoutKeeps(cfg, w, cookie);
    RunKeeps(cfg, Logout(w, cookie), later);
    DeadStayOut(cfg, Run(cfg, Logout(w, cookie), later), cookie);
  }

  lemma DeadStayOut(cfg: Config, w: World, cookie: string)
    requires Inv(cfg, w) && cookie in w.dead
    ensures cookie !in w.srv.sessions
    ensures forall i :: 0 <= i < |w.responses| && w.responses[i].ticket.g.cookieID == cookie ==>
              w.responses[i].ticket.serial < w.dead[cookie]
  {
    hide SessionOk, ContextsInv, CodesInv, RegistryInv, ThreadsInv, ReplayInv, AcceptedOk, CodesApart, ProofsApart;
    hide BasisOk, CredentialsMeet, GrantOk, OriginOk;
    forall i | 0 <= i < |w.responses| && w.responses[i].ticket.g.cookieID == cookie
      ensures w.responses[i].ticket.serial < w.dead[cookie]
    {
      assert ResponseOk(cfg, w, w.responses[i]);
    }
  }

  // ---------------------------------------------------------------- codes

  /** Every code ever issued is either live or spent, never both, and no code is behind two responses. */
  lemma CodesConserved(cfg: Config, w: World)
    requires UrlsSane(cfg) && Reachable(cfg, w)
    ensures w.issued.Keys == w.srv.codeMeta.Keys + w.consumed && w.srv.codeMeta.Keys !! w.consumed
    ensures forall i, j :: (0 <= i < j < |w.responses| && TicketCode(w.responses[i].ticket).Some?) ==>
              TicketCode(w.responses[i].ticket) != TicketCode(w.responses[j].ticket)
  {
    ReachableOk(cfg, w);
  }

  /** Presenting a live code spends it for good, whatever PKCE and client authentication then say. */
  lemma PresentedIsSpent(cfg: Config, w: World, t: nat, code: string, verifier: string, creds: Credentials,
                         later: seq<Event>)
    requires UrlsSane(cfg) && Reachable(cfg, w) && t !in w.threads && code in w.srv.codeMeta
    ensures var w' := Run(cfg, PresentCode(w, t, code, verifier, creds), later);
            code in w'.consumed && code !in w'.srv.codeMeta
  {
    hide Inv, UrlsSane;
    ReachableOk(cfg, w);
    PresentCodeKeeps(cfg, w, t, code, verifier, creds);
    RunKeeps(cfg, PresentCode(w, t, code, verifier, creds), later);
    SpentIsNotLive(cfg, Run(cfg, PresentCode(w, t, code, verifier, creds), later), code);
  }

  lemma SpentIsNotLive(cfg: Config, w: World, code: string)
    requires Inv(cfg, w) && code in w.consumed
    ensures code !in w.srv.codeMeta
  {}

  // ---------------------------------------------------------------- identity

  /** A response answers the grant it was asked with: a code, the client and subject recorded
      when that code was issued; an access or refresh token, those of the client session the
      token was minted for. */
  lemma IdentityBound(cfg: Config, w: World, n: nat)
    requires UrlsSane(cfg) && Reachable(cfg, w) && n < |w.responses|
    ensures var ticket := w.responses[n].ticket;
            && ticket.g.csid in w.csids && w.csids[ticket.g.csid] == Owner(ticket.g.cookieID, ticket.g.clientID)
            && ticket.g.cookieID in w.cookies
            && match ticket.origin
               case FromCode(code, _, _, _) =>
                 && code in w.issued && w.issued[code].clientID == ticket.g.clientID
                 && w.issued[code].cookie == ticket.g.cookieID && w.issued[code].sub == w.cookies[ticket.g.cookieID]
               case FromToken(token) =>
                 token in w.minted && (!token.kind.IDKind? ==> token.csid == ticket.g.csid)
  {
    ReachableOk(cfg, w);
    assert ResponseOk(cfg, w, w.responses[n]);
    if w.responses[n].ticket.origin.FromToken? {
      assert TokenOk(cfg, w, w.responses[n].ticket.origin.token);
    }
  }

  /** One link of a refresh chain: the later answer was asked with a refresh or access token that
      the earlier answer gave out. */
  ghost predicate RefreshedFrom(cfg: Config, w: World, m: nat, n: nat) {
    && m < |w.responses| && n < |w.responses|
    && w.responses[n].ticket.origin.FromToken?
    && var token := w.responses[n].ticket.origin.token;
       !token.kind.IDKind? && token in Given(cfg, w.responses[m])
  }

  ghost predicate RefreshChain(cfg: Config, w: World, chain: seq<nat>) {
    && chain != [] && (forall i :: 0 <= i < |chain| ==> chain[i] < |w.responses|)
    && forall i :: 0 < i < |chain| ==> RefreshedFrom(cfg, w, chain[i - 1], chain[i])
  }

  /** A token given out names the client session of the grant it was given for. */
  lemma GivenNames(cfg: Config, w: World, m: nat, token: Token)
    requires Inv(cfg, w) && m < |w.responses| && token in Given(cfg, w.responses[m]) && !token.kind.IDKind?
    ensures StringClaim(token.claims, Csid) == w.responses[m].ticket.g.csid
  {
    hide SessionsInv, ContextsInv, CodesInv, RegistryInv, ThreadsInv, ReplayInv, AcceptedOk, CodesApart, ProofsApart;
    hide BasisOk, CredentialsMeet, OriginOk, SerialOk, IssueFor, GrantOk;
    assert ResponseOk(cfg, w, w.responses[m]);
    TokensOk(cfg, w, w.responses[m].ticket.g, w.responses[m].at, token);
    OwnCsid(w.responses[m].ticket.g, IssueFor(cfg, w.responses[m].ticket.g, w.responses[m].at), token);
  }

  lemma OwnCsid(g: Grant, issued: Issued, token: Token)
    requires token in TokensOf(g, issued)
    ensures token.csid == g.csid
  {}

  lemma AnswerCsid(cfg: Config, w: World, n: nat)
    requires Inv(cfg, w) && n < |w.responses| && w.responses[n].ticket.origin.FromToken?
    ensures StringClaim(w.responses[n].ticket.origin.token.claims, Csid) == w.responses[n].ticket.g.csid
  {
    hide SessionsInv, ContextsInv, CodesInv, RegistryInv, ThreadsInv, ReplayInv, AcceptedOk, CodesApart, ProofsApart;
    hide BasisOk, CredentialsMeet, SerialOk, GrantOk;
    assert ResponseOk(cfg, w, w.responses[n]);
  }

  /** Through any number of refreshes the client session, and with it the client and the login
      session, stay those of the first answer. */
  lemma {:induction false} RefreshChainKeeps(cfg: Config, w: World, chain: seq<nat>)
    requires UrlsSane(cfg) && Reachable(cfg, w) && RefreshChain(cfg, w, chain)
    ensures var first, last := w.responses[chain[0]].ticket.g, w.responses[chain[|chain| - 1]].ticket.g;
            last.csid == first.csid && last.clientID == first.clientID && last.cookieID == first.cookieID
  {
    hide UrlsSane, Reachable, RefreshedFrom;
    if |chain| > 1 {
      var front, m, n := chain[..|chain| - 1], chain[|chain| - 2], chain[|chain| - 1];
      assert forall i :: 0 < i < |front| ==> RefreshedFrom(cfg, w, front[i - 1], front[i]);
      RefreshChainKeeps(cfg, w, front);
      LinkKeeps(cfg, w, m, n);
    }
  }

  lemma LinkKeeps(cfg: Config, w: World, m: nat, n: nat)
    requires UrlsSane(cfg) && Reachable(cfg, w) && RefreshedFrom(cfg, w, m, n)
    ensures var g, g' := w.responses[m].ticket.g, w.responses[n].ticket.g;
            g'.csid == g.csid && g'.clientID == g.clientID && g'.cookieID == g.cookieID
  {
    hide UrlsSane, Reachable, Inv, Given;
    ReachableOk(cfg, w);
    GivenNames(cfg, w, m, w.responses[n].ticket.origin.token);
    AnswerCsid(cfg, w, n);
    IdentityBound(cfg, w, m);
    IdentityBound(cfg, w, n);
  }

  /** A code's answer, refreshed any number of times with tokens each answer gave out, still goes to
      the client, the login session and the subject recorded when the code was issued. */
  lemma RefreshChainBound(cfg: Config, w: World, chain: seq<nat>)
    requires UrlsSane(cfg) && Reachable(cfg, w) && RefreshChain(cfg, w, chain)
    requires w.responses[chain[0]].ticket.origin.FromCode?
    ensures var code, last := w.responses[chain[0]].ticket.origin.code, w.responses[chain[|chain| - 1]].ticket.g;
            && code in w.issued && last.clientID == w.issued[code].clientID && last.cookieID == w.issued[code].cookie
            && last.cookieID in w.cookies && w.cookies[last.cookieID] == w.issued[code].sub
  {
    hide UrlsSane, Reachable, Inv;
    RefreshChainKeeps(cfg, w, chain);
    IdentityBound(cfg, w, chain[0]);
  }

  /** Every token in circulation names this server, its proper audience and, unless it is an
      ID token, the client session it was minted for - however its claims were edited. */
  lemma TokensNameTheServer(cfg: Config, w: World, token: Token)
    requires UrlsSane(cfg) && Reachable(cfg, w) && token in w.minted
    ensures Iss in token.claims && token.claims[Iss] == Str(cfg.externalURL) && Aud in token.claims
    ensures token.kind.AccessKind? ==> token.claims[Aud] == Strs(AccessAudience(cfg))
    ensures token.kind.RefreshKind? ==> token.claims[Aud] == Strs([cfg.externalURL + "/token"])
    ensures token.csid in w.csids && (token.kind.IDKind? ==> token.claims[Aud] == Strs([w.csids[token.csid].clientID]))
    ensures !token.kind.IDKind? ==> StringClaim(token.claims, Csid) == token.csid
  {
    ReachableOk(cfg, w);
    assert TokenOk(cfg, w, token);
  }

  // ---------------------------------------------------------------- redirects and PKCE

  /** No redirect ever leaves for a URI its client did not register: for a dynamic client one of
      its registered URIs, for a document client one its documents listed. The same holds of every
      URI waiting in a pending request or a client session. */
  lemma RedirectsAreRegistered(cfg: Config, w: World)
    requires UrlsSane(cfg) && Reachable(cfg, w)
    ensures forall r :: r in w.redirects ==> RedirectAllowed(cfg, w, r.clientID, r.uri)
    ensures forall q :: q in w.srv.authContext ==>
              RedirectAllowed(cfg, w, w.srv.authContext[q].clientID, w.srv.authContext[q].redirectURI)
    ensures forall k, i :: k in w.srv.sessions && 0 <= i < |w.srv.sessions[k].clientSessions| ==>
              RedirectAllowed(cfg, w, w.srv.sessions[k].clientSessions[i].clientID,
                  w.srv.sessions[k].clientSessions[i].redirectURI)
  {
    ReachableOk(cfg, w);
    forall q | q in w.srv.authContext
      ensures RedirectAllowed(cfg, w, w.srv.authContext[q].clientID, w.srv.authContext[q].redirectURI)
    {
      assert ContextOk(cfg, w, w.srv.authContext[q]);
    }
    forall k, i | k in w.srv.sessions && 0 <= i < |w.srv.sessions[k].clientSessions|
      ensures RedirectAllowed(cfg, w, w.srv.sessions[k].clientSessions[i].clientID,
                w.srv.sessions[k].clientSessions[i].redirectURI)
    {
      assert ClientSessionOk(cfg, w, w.srv.sessions[k].cookieID, w.srv.sessions[k].sub,
          w.srv.sessions[k].clientSessions[i]);
    }
  }

  lemma DynamicRedirects(cfg: Config, w: World, r: Redirect)
    requires UrlsSane(cfg) && Reachable(cfg, w) && r in w.redirects
    requires r.clientID in w.srv.clients && w.srv.clients[r.clientID].registeredBy == Dynamic
    ensures r.uri in w.srv.clients[r.clientID].redirectURIs
  {
    hide UrlsSane, Reachable;
    RedirectsAreRegistered(cfg, w);
  }

  /** A stored challenge always names a method the token endpoint knows, and a document client
      whose documents never asked for keys always has a challenge. */
  lemma ChallengesUsable(cfg: Config, w: World, k: string, i: nat)
    requires UrlsSane(cfg) && Reachable(cfg, w) && k in w.srv.sessions && i < |w.srv.sessions[k].clientSessions|
    ensures var cs := w.srv.sessions[k].clientSessions[i];
            && (cs.challenge != "" ==> cs.challengeMethod == Plain || cs.challengeMethod == S256)
            && (cfg.isURL(cs.clientID) && !Keyed(w, cs.clientID) ==> cs.challenge != "")
  {
    ReachableOk(cfg, w);
    assert ClientSessionOk(cfg, w, w.srv.sessions[k].cookieID, w.srv.sessions[k].sub,
        w.srv.sessions[k].clientSessions[i]);
  }

  /** Every answered code was presented with a verifier for the challenge its client session held. */
  lemma CodesProven(cfg: Config, w: World, n: nat)
    requires UrlsSane(cfg) && Reachable(cfg, w) && n < |w.responses| && w.responses[n].ticket.origin.FromCode?
    ensures var ticket := w.responses[n].ticket;
            var challenge, how, verifier := ticket.origin.challenge, ticket.origin.challengeMethod,
                ticket.origin.verifier;
            && (challenge == "" || (how == Plain && verifier == challenge)
                || (how == S256 && cfg.s256(verifier) == challenge))
            && (cfg.isURL(ticket.g.clientID) && !Keyed(w, ticket.g.clientID) ==> challenge != "")
  {
    ReachableOk(cfg, w);
    assert ResponseOk(cfg, w, w.responses[n]);
  }

  // ---------------------------------------------------------------- subjects

  ghost predicate SectorsApart(w: World) {
    forall s, s' :: s in w.sectors && s' in w.sectors ==> !Overlap(s, s')
  }

  /** An id_token_hint finds at most one user: in public mode always, in pairwise mode as long as no
      two sectors overlap - the only way in which two users could share a subject. */
  lemma HintFindsOneUser(cfg: Config, w: World, hint: string, found: Option<string>, found': Option<string>)
    requires UrlsSane(cfg) && Reachable(cfg, w) && (cfg.pairwise ==> MacInjective(cfg) && SectorsApart(w))
    requires FoundByHint(w.srv.sessions, hint, found) && FoundByHint(w.srv.sessions, hint, found')
    ensures found == found'
  {
    ReachableOk(cfg, w);
    if found.Some? && found'.Some? {
      var sector := HintSector(cfg, w, found.value, hint);
      var sector' := HintSector(cfg, w, found'.value, hint);
      AdvertisedSubInjective(cfg, w.srv.sessions[found.value].sub, sector, w.srv.sessions[found'.value].sub, sector');
    }
  }

  lemma HintSector(cfg: Config, w: World, k: string, hint: string) returns (sector: string)
    requires Inv(cfg, w) && k in w.srv.sessions && HasAdvertisedSub(w.srv.sessions[k], hint)
    ensures sector in w.sectors && hint == AdvertisedSub(cfg, w.srv.sessions[k].sub, sector)
    ensures IsSubject(w.srv.sessions[k].sub)
  {
    hide ContextsInv, CodesInv, RegistryInv, ThreadsInv, OutputsInv, ReplayInv, AcceptedOk, CodesApart, ProofsApart;
    hide Admitted;
    var sess := w.srv.sessions[k];
    SessionAt(cfg, w, k);
    var i :| 0 <= i < |sess.clientSessions| && sess.clientSessions[i].advertisedSub == hint;
    assert ClientSessionOk(cfg, w, k, sess.sub, sess.clientSessions[i]);
    sector :| sector in w.sectors && hint == AdvertisedSub(cfg, sess.sub, sector);
  }

  // ---------------------------------------------------------------- the registry

  /** A client stays what it registered as: by the same method for ever, unchanged if it
      registered itself, with its first issue time if it is a document. */
  lemma RegistryStable(cfg: Config, w: World, later: seq<Event>, c: string)
    requires UrlsSane(cfg) && Reachable(cfg, w) && c in w.srv.clients
    ensures var w' := Run(cfg, w, later);
            c in w'.srv.clients && SameRegistrant(w.srv.clients[c], w'.srv.clients[c])
  {
    hide Inv, UrlsSane;
    ReachableOk(cfg, w);
    RunKeeps(cfg, w, later);
  }

  /** For URL client ids the document cache and the registry are one table, however many
      fetches were in flight and whichever stored last; every entry obeys the document rules. */
  lemma CacheIsRegistry(cfg: Config, w: World, c: string)
    requires UrlsSane(cfg) && Reachable(cfg, w)
    ensures c in w.srv.metadata <==> c in w.srv.clients && cfg.isURL(c)
    ensures c in w.srv.metadata ==>
              && w.srv.clients[c] == w.srv.metadata[c].reg
              && DocumentRules(cfg, c, w.srv.clients[c])
    ensures c in w.srv.clients ==> (cfg.isURL(c) <==> w.srv.clients[c].registeredBy == MetadataDocument)
  {
    ReachableOk(cfg, w);
    if c in w.srv.clients { ClientAt(cfg, w, c); }
    if c in w.srv.metadata { EntryHere(cfg, w, c); ClientAt(cfg, w, c); }
  }

  /** An automatic registration is exactly what the requests for that client showed. */
  lemma AutomaticIsHistory(cfg: Config, w: World, c: string)
    requires UrlsSane(cfg) && Reachable(cfg, w) && c in w.srv.clients && w.srv.clients[c].registeredBy == Automatic
    ensures c in w.observed && w.srv.clients[c] == FromHistory(c, w.srv.clients[c].issuedAt, w.observed[c])
  {
    ReachableOk(cfg, w);
    ClientAt(cfg, w, c);
    AutomaticEqualsHistory(c, w.srv.clients[c].issuedAt, w.observed[c]);
  }

  // ---------------------------------------------------------------- client authentication

  /** No dynamic client that must show a secret is without one. */
  lemma DynamicHasSecret(cfg: Config, w: World, c: string)
    requires UrlsSane(cfg) && Reachable(cfg, w) && c in w.srv.clients && w.srv.clients[c].registeredBy == Dynamic
    ensures w.srv.clients[c].authMethod != NoAuth ==>
              (w.srv.clients[c].authMethod == ClientSecretBasic || w.srv.clients[c].authMethod == ClientSecretPost)
              && w.srv.clients[c].secret != ""
  {
    hide Inv, Reachable, ObserveAll, DocumentRules;
    ReachableOk(cfg, w);
    ClientAt(cfg, w, c);
  }

  /** A dynamic client passes authentication if and only if it has nothing to show, or shows its own
      id and secret by the method it registered. */
  lemma DynamicAdmittedExactly(cfg: Config, w: World, c: string, creds: Credentials)
    requires UrlsSane(cfg) && Reachable(cfg, w) && c in w.srv.clients && w.srv.clients[c].registeredBy == Dynamic
    ensures var reg := w.srv.clients[c];
            Decide(reg, c, creds) == Admit
            <==> reg.authMethod == NoAuth
                 || (creds.how == reg.authMethod && creds.clientID == c && creds.secret == reg.secret)
    ensures !Decide(w.srv.clients[c], c, creds).NeedsAssertion?
  {
    hide Inv, Reachable, ObserveAll, DocumentRules;
    ReachableOk(cfg, w);
    ClientAt(cfg, w, c);
  }

  lemma ResponseHolds(cfg: Config, w: World, n: nat)
    requires Inv(cfg, w) && n < |w.responses|
    ensures var r := w.responses[n];
            BasisOk(cfg, w, r.ticket.g.clientID, r.basis) && CredentialsMeet(cfg, w, r.ticket.g.clientID,
                r.ticket.creds, r.basis, r.proof)
  {
    hide SessionsInv, ContextsInv, CodesInv, RegistryInv, ThreadsInv, ReplayInv, AcceptedOk, CodesApart, ProofsApart;
    hide TicketOk, BasisOk, CredentialsMeet;
    assert ResponseOk(cfg, w, w.responses[n]);
  }

  /** A dynamic client with a secret-based method always has a secret, and is only ever answered
      when the method, the client id and the secret presented are the registered ones. */
  lemma DynamicClientsAuthenticate(cfg: Config, w: World, n: nat)
    requires UrlsSane(cfg) && Reachable(cfg, w) && n < |w.responses|
    requires var c := w.responses[n].ticket.g.clientID;
             c in w.srv.clients && w.srv.clients[c].registeredBy == Dynamic && w.srv.clients[c].authMethod != NoAuth
    ensures var c, creds := w.responses[n].ticket.g.clientID, w.responses[n].ticket.creds;
            var reg := w.srv.clients[c];
            && (reg.authMethod == ClientSecretBasic || reg.authMethod == ClientSecretPost) && reg.secret != ""
            && creds.how == reg.authMethod && creds.clientID == c && creds.secret == reg.secret
  {
    hide Inv, Reachable, ObserveAll, DocumentRules, VerifiedWith;
    ReachableOk(cfg, w);
    ResponseHolds(cfg, w, n);
    var r := w.responses[n];
    ClientAt(cfg, w, r.ticket.g.clientID);
  }

  /** A document client is answered only on a document from the cache or just fetched, younger
      than the longest lifetime a document can have, and - if that document asks for keys - with an
      assertion that was consumed, after passing every check with keys the client had published:
      the ones in a document of its own, or an answer of the key URL such a document names. A
      document that can no longer be read serves only a client that authenticates with nothing. */
  lemma DocumentsFailClosed(cfg: Config, w: World, n: nat)
    requires UrlsSane(cfg) && Reachable(cfg, w) && n < |w.responses| && cfg.isURL(w.responses[n].ticket.g.clientID)
    ensures var r := w.responses[n];
            var c := r.ticket.g.clientID;
            match r.basis
            case FreshDocument(reg, storedAt, resolvedAt) =>
              && StoredDocument(c, reg, storedAt) in w.stored && DocumentRules(cfg, c, reg)
              && storedAt <= resolvedAt && resolvedAt - storedAt < MaxAge(cfg)
              && (reg.authMethod == PrivateKeyJwt ==>
                    && r.proof.Some? && r.proof.value < |w.accepted| && w.accepted[r.proof.value].clientID == c
                    && r.ticket.creds.assertion.Some?
                    && w.accepted[r.proof.value].jti == r.ticket.creds.assertion.value.jti
                    && VerifiedWith(cfg, w, c, r.ticket.creds.assertion.value, w.accepted[r.proof.value].verifiedAt))
            case StaleDocument(reg) => reg.authMethod == NoAuth
            case _ => false
  {
    hide Inv, Reachable, Canonical, ObserveAll, DocumentRules, VerifiedWith;
    ReachableOk(cfg, w);
    ResponseHolds(cfg, w, n);
    var r := w.responses[n];
    if r.ticket.g.clientID in w.srv.clients { ClientAt(cfg, w, r.ticket.g.clientID); }
  }

  /** Over whole runs: two acceptances of one (client, jti) are separated by the first one's
      expiry plus leeway. If it was the very same assertion, the clock passed its deadline between
      the second verification and the second consumption: with one reading for both, never. */
  lemma AssertionsNotReplayed(cfg: Config, w: World, i: nat, j: nat)
    requires UrlsSane(cfg) && Reachable(cfg, w) && i < j < |w.accepted|
    requires w.accepted[i].clientID == w.accepted[j].clientID && w.accepted[i].jti == w.accepted[j].jti
    ensures w.accepted[i].exp + LEEWAY < w.accepted[j].at
    ensures w.accepted[i].exp == w.accepted[j].exp ==>
              w.accepted[j].verifiedAt < w.accepted[j].exp + LEEWAY < w.accepted[j].at
  {
    ReachableOk(cfg, w);
    assert KeyOf(w.accepted[i]) == KeyOf(w.accepted[j]);
  }

  /** No assertion authenticates two token requests: two answers that rest on assertions rest on
      different acceptances, and if those were of one client and jti, the first one's expiry plus
      leeway lies between them. If both answers showed the very same assertion, it was past that
      when it was consumed again, though not yet when it was verified again. */
  lemma AssertionsAnswerOnce(cfg: Config, w: World, i: nat, j: nat)
    requires UrlsSane(cfg) && Reachable(cfg, w) && i < |w.responses| && j < |w.responses| && i != j
    requires w.responses[i].proof.Some? && w.responses[j].proof.Some?
    ensures var p, q := w.responses[i].proof.value, w.responses[j].proof.value;
            && p < |w.accepted| && q < |w.accepted| && p != q
            && (p < q && w.accepted[p].clientID == w.accepted[q].clientID && w.accepted[p].jti == w.accepted[q].jti ==>
                  && w.accepted[p].exp + LEEWAY < w.accepted[q].at
                  && (w.accepted[p].exp == w.accepted[q].exp ==>
                        w.accepted[q].verifiedAt < w.accepted[q].exp + LEEWAY < w.accepted[q].at))
  {
    hide Inv, Reachable;
    ReachableOk(cfg, w);
    ProofsDiffer(cfg, w, i, j);
    var p, q := w.responses[i].proof.value, w.responses[j].proof.value;
    if p < q && w.accepted[p].clientID == w.accepted[q].clientID && w.accepted[p].jti == w.accepted[q].jti {
      AssertionsNotReplayed(cfg, w, p, q);
    }
  }

  lemma ProofsDiffer(cfg: Config, w: World, i: nat, j: nat)
    requires Inv(cfg, w) && i < |w.responses| && j < |w.responses| && i != j
    requires w.responses[i].proof.Some? && w.responses[j].proof.Some?
    ensures w.responses[i].proof != w.responses[j].proof
    ensures w.responses[i].proof.value < |w.accepted| && w.responses[j].proof.value < |w.accepted|
  {
    hide SessionsInv, ContextsInv, CodesInv, RegistryInv, ThreadsInv, ReplayInv, AcceptedOk, CodesApart;
    hide TicketOk, BasisOk, CredentialsMeet;
    assert ResponseOk(cfg, w, w.responses[i]) && ResponseOk(cfg, w, w.responses[j]);
  }

  /** An answer that rests on a key set rests on an acceptance of the very assertion it was shown. */
  lemma AnswersShowAcceptances(cfg: Config, w: World, n: nat)
    requires UrlsSane(cfg) && Reachable(cfg, w) && n < |w.responses|
    requires w.responses[n].basis.FreshDocument? && w.responses[n].basis.reg.authMethod == PrivateKeyJwt
    ensures var r := w.responses[n];
            && r.proof.Some? && r.proof.value < |w.accepted| && r.ticket.creds.assertion.Some?
            && var a, accepted := r.ticket.creds.assertion.value, w.accepted[r.proof.value];
               accepted.clientID == r.ticket.g.clientID && accepted.jti == a.jti && Some(accepted.exp) == a.exp
  {
    hide Inv, Reachable, BasisOk;
    ReachableOk(cfg, w);
    ResponseHolds(cfg, w, n);
  }

  /** The table answers for a client and a jti exactly as the full history of acceptances does. */
  lemma ReplayTableIsHistory(cfg: Config, w: World, c: string, jti: string)
    requires UrlsSane(cfg) && Reachable(cfg, w) && cfg.isURL(c)
    ensures Accepts(w.srv.jtis, Key(c, jti), w.now)
            <==> forall i :: 0 <= i < |w.accepted| && w.accepted[i].clientID == c && w.accepted[i].jti == jti ==>
                   w.accepted[i].exp + LEEWAY < w.now
  {
    ReachableOk(cfg, w);
    RefinesHistory(w.srv.jtis, w.accepted, w.now, Key(c, jti));
    forall i | 0 <= i < |w.accepted| && KeyOf(w.accepted[i]) == Key(c, jti)
      ensures w.accepted[i].clientID == c && w.accepted[i].jti == jti
    {
      KeyInjective(w.accepted[i].clientID, w.accepted[i].jti, c, jti);
    }
  }

  /** Right after any consumption, accepted or refused, the table holds at most one record for each
      acceptance of the last eleven minutes, and no record of anything older. */
  lemma ReplayTableBounded(cfg: Config, w: World, t: nat)
    requires UrlsSane(cfg) && Reachable(cfg, w) && t in w.threads && w.threads[t].Consuming?
    ensures var w' := ConsumeJti(w, t);
            && (forall k :: k in w'.srv.jtis ==>
                  exists i :: i in Window(w'.accepted, w'.now) && KeyOf(w'.accepted[i]) == k)
            && |w'.srv.jtis| <= |Window(w'.accepted, w'.now)|
  {
    hide Inv, Consume, Accepts, Prune, Window, AssertionPending;
    ReachableOk(cfg, w);
    ThreadOk(cfg, w, t);
    PendingAssertion(cfg, w, w.threads[t].ticket, w.threads[t].basis);
    ReplayNow(cfg, w);
    var pc := w.threads[t];
    var a := pc.ticket.creds.assertion.value;
    ConsumedShape(w, t);
    hide ConsumeJti, KeyOf;
    RetentionBound(w.srv.jtis, w.accepted, w.now, Acceptance(pc.ticket.g.clientID, a.jti, a.exp.value, pc.verifiedAt,
        w.now));
  }

  lemma ConsumedShape(w: World, t: nat)
    requires t in w.threads && w.threads[t].Consuming? && w.threads[t].ticket.creds.assertion.Some?
    requires w.threads[t].ticket.creds.assertion.value.exp.Some?
    ensures var pc, w' := w.threads[t], ConsumeJti(w, t);
            var a := pc.ticket.creds.assertion.value;
            var acceptance := Acceptance(pc.ticket.g.clientID, a.jti, a.exp.value, pc.verifiedAt, w.now);
            && w'.now == w.now && w'.srv.jtis == Consume(w.srv.jtis, KeyOf(acceptance), a.exp.value, w.now)
            && w'.accepted == if Accepts(w.srv.jtis, KeyOf(acceptance), w.now) then w.accepted + [acceptance]
                else w.accepted
  {
    hide Consume, Accepts, KeyOf, Goto, End;
    var pc := w.threads[t];
    var a := pc.ticket.creds.assertion.value;
    var acceptance := Acceptance(pc.ticket.g.clientID, a.jti, a.exp.value, pc.verifiedAt, w.now);
    var w' := w.(srv := w.srv.(jtis := Consume(w.srv.jtis, KeyOf(acceptance), a.exp.value, w.now)));
    MovesOnly(w', t);
    MovesOnly(w'.(accepted := w.accepted + [acceptance]), t);
  }

  lemma MovesOnly(w: World, t: nat)
    ensures End(w, t).srv == w.srv && End(w, t).accepted == w.accepted && End(w, t).now == w.now
    ensures forall pc :: Goto(w, t, pc).srv == w.srv && Goto(w, t, pc).accepted == w.accepted
              && Goto(w, t, pc).now == w.now
  {}

  lemma PendingAssertion(cfg: Config, w: World, ticket: Ticket, basis: Basis)
    requires AssertionPending(cfg, w, ticket, basis)
    ensures ticket.creds.assertion.Some?
  {}

  lemma ReplayNow(cfg: Config, w: World)
    requires Inv(cfg, w)
    ensures ReplayInv(w.srv.jtis, w.accepted, w.now)
  {}
}
