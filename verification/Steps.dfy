// Every step keeps the invariant and only moves forward.
module Steps {
  import opened Lists
  import opened Scopes
  import opened Claims
  import opened Registration
  import opened Idp
  import opened Documents
  import opened Replay
  import opened IdpState
  import opened Machine
  import opened Invariants

  // ---------------------------------------------------------------- what a step leaves alone

  lemma SessionsQuiet(cfg: Config, w: World, w': World)
    requires SessionsInv(cfg, w) && Evolves(w, w')
    requires w'.srv.sessions == w.srv.sessions && w'.cookies == w.cookies && w'.csids == w.csids && w'.dead == w.dead
    ensures SessionsInv(cfg, w')
  {
    forall k | k in w.srv.sessions ensures SessionOk(cfg, w', w.srv.sessions[k]) {
      SessionLasts(cfg, w, w', w.srv.sessions[k]);
    }
  }

  /** What is new in the past was seen by now. */
  ghost predicate OnlySeen(w: World, w': World) {
    && w'.past.asked.Keys <= w.past.asked.Keys + w'.seen && w'.past.lastLogin.Keys <= w.past.lastLogin.Keys + w'.seen
    && w'.past.done <= w.past.done + w'.seen && w'.past.registered.Keys <= w.past.registered.Keys + w'.seen
  }

  lemma PastStays(w: World, w': World)
    requires PastOk(w) && Evolves(w, w') && OnlySeen(w, w')
    requires forall r :: r in w'.past.asked && r !in w.past.asked ==> Heard(w', w'.past.asked[r])
    ensures PastOk(w')
  {
    hide Heard;
    forall r | r in w'.past.asked ensures Heard(w', w'.past.asked[r]) {
      if r in w.past.asked { HeardLasts(w, w', w.past.asked[r]); }
    }
  }

  lemma ContextStays(cfg: Config, w: World, w': World, r: string, ctx: AuthContext)
    requires ContextHere(cfg, w, r, ctx) && Evolves(w, w')
    requires r in w'.past.lastLogin <==> r in w.past.lastLogin
    requires r in w.past.lastLogin ==> w'.past.lastLogin[r] == w.past.lastLogin[r]
    ensures ContextHere(cfg, w', r, ctx)
  {
    hide Evolves, Admitted, FromRequest;
    AdmittedLasts(cfg, w, w', ctx.clientID, ctx.redirectURI, ctx.challenge, ctx.challengeMethod);
    FromRequestLasts(w, w', r, ctx);
  }

  /** No login and no new request to log in for; contexts may go. */
  lemma ContextsQuiet(cfg: Config, w: World, w': World)
    requires ContextsInv(cfg, w) && Evolves(w, w')
    requires forall r :: r in w'.srv.authContext ==>
               r in w.srv.authContext && w'.srv.authContext[r] == w.srv.authContext[r]
    requires w'.past.asked == w.past.asked && w'.past.lastLogin == w.past.lastLogin && OnlySeen(w, w')
    requires forall r :: r in w.srv.authContext && r !in w'.srv.authContext ==> r in w'.past.done
    requires w.past.done <= w'.past.done
    ensures ContextsInv(cfg, w')
  {
    hide ContextHere, PastOk, Evolves;
    PastStays(w, w');
    forall r | r in w'.srv.authContext ensures ContextHere(cfg, w', r, w'.srv.authContext[r]) {
      ContextStays(cfg, w, w', r, w.srv.authContext[r]);
    }
  }

  /** One context changes, and no other's login. */
  lemma ContextsChange(cfg: Config, w: World, w': World, r: string)
    requires ContextsInv(cfg, w) && Evolves(w, w') && OnlySeen(w, w')
    requires forall q :: q in w'.past.asked && q !in w.past.asked ==> q == r && Heard(w', w'.past.asked[q])
    requires w.past.done <= w'.past.done
    requires r in w'.srv.authContext && w'.srv.authContext == w.srv.authContext[r := w'.srv.authContext[r]]
    requires ContextHere(cfg, w', r, w'.srv.authContext[r])
    requires forall q :: q != r ==> (q in w'.past.lastLogin <==> q in w.past.lastLogin)
    requires forall q :: q != r && q in w.past.lastLogin ==> w'.past.lastLogin[q] == w.past.lastLogin[q]
    ensures ContextsInv(cfg, w')
  {
    hide ContextHere, PastOk, Evolves;
    PastStays(w, w');
    forall q | q in w'.srv.authContext ensures ContextHere(cfg, w', q, w'.srv.authContext[q]) {
      if q != r { ContextStays(cfg, w, w', q, w.srv.authContext[q]); }
    }
  }

  lemma CodesQuiet(w: World, w': World)
    requires CodesInv(w) && Evolves(w, w')
    requires w'.srv.codeMeta == w.srv.codeMeta && w'.issued == w.issued && w'.consumed == w.consumed
    ensures CodesInv(w')
  {}

  lemma RegistryQuiet(cfg: Config, w: World, w': World)
    requires RegistryInv(cfg, w) && Evolves(w, w')
    requires w'.srv.clients == w.srv.clients && w'.srv.metadata == w.srv.metadata
    requires w'.observed == w.observed && w'.storedAt == w.storedAt && w'.past.documents == w.past.documents
    ensures RegistryInv(cfg, w')
  {
    hide AsFetched, AsRegistered, DocumentRules, Canonical, TtlFrom, ObserveAll;
    forall c | c in w.srv.clients ensures RegistrationOk(cfg, w', c, w.srv.clients[c]) {
      assert RegistrationOk(cfg, w, c, w.srv.clients[c]);
    }
    forall c | c in w.srv.metadata ensures EntryOk(cfg, w', c, w.srv.metadata[c]) {
      EntryLasts(cfg, w, w', c, w.srv.metadata[c]);
    }
  }

  // ---------------------------------------------------------------- requests in flight

  lemma ThreadsQuiet(cfg: Config, w: World, w': World)
    requires ThreadsInv(cfg, w) && Evolves(w, w') && w'.threads == w.threads
    ensures ThreadsInv(cfg, w')
  {
    forall t | t in w.threads ensures PcOk(cfg, w', w.threads[t]) { PcLasts(cfg, w, w', w.threads[t]); }
  }

  lemma OutputsQuiet(cfg: Config, w: World, w': World)
    requires OutputsInv(cfg, w) && Evolves(w, w') && w'.responses == w.responses
    requires forall r :: r in w'.redirects && r !in w.redirects ==> RedirectAllowed(cfg, w', r.clientID, r.uri)
    requires forall token :: token in w'.minted && token !in w.minted ==> TokenOk(cfg, w', token)
    ensures OutputsInv(cfg, w')
  {
    hide Given, TicketOk, BasisOk, CredentialsMeet;
    forall r | r in w'.redirects ensures RedirectAllowed(cfg, w', r.clientID, r.uri) {
      if r in w.redirects { RedirectLasts(cfg, w, w', r.clientID, r.uri); }
    }
    forall i | 0 <= i < |w.responses|
      ensures ResponseOk(cfg, w', w.responses[i]) && Given(cfg, w.responses[i]) <= w'.minted
    {
      assert ResponseOk(cfg, w, w.responses[i]) && Given(cfg, w.responses[i]) <= w.minted;
      assert w.minted <= w'.minted;
      AuthenticatedLasts(cfg, w, w', w.responses[i].ticket, w.responses[i].basis, w.responses[i].proof);
    }
  }

  /** A step on shared state, no program counter moving, settles once its own parts do. */
  lemma Settle(cfg: Config, w: World, w': World)
    requires Inv(cfg, w) && Evolves(w, w') && w'.threads == w.threads && w'.responses == w.responses
    requires forall r :: r in w'.redirects && r !in w.redirects ==> RedirectAllowed(cfg, w', r.clientID, r.uri)
    requires forall token :: token in w'.minted && token !in w.minted ==> TokenOk(cfg, w', token)
    requires SessionsInv(cfg, w') && ContextsInv(cfg, w') && CodesInv(w') && RegistryInv(cfg, w')
    requires ReplayInv(w'.srv.jtis, w'.accepted, w'.now) && AcceptedOk(cfg, w'.accepted)
    ensures Inv(cfg, w')
  {
    hide SessionsInv, ContextsInv, CodesInv, RegistryInv, ThreadsInv, OutputsInv, ReplayInv, AcceptedOk, CodesApart;
    hide ProofsApart;
    ThreadsQuiet(cfg, w, w');
    OutputsQuiet(cfg, w, w');
  }

  ghost predicate NobodyHas(w: World, code: string) {
    && (forall u :: u in w.threads ==> CodeOf(w.threads[u]) != Some(code))
    && (forall i :: 0 <= i < |w.responses| ==> TicketCode(w.responses[i].ticket) != Some(code))
  }

  /** The code behind a request's next program counter: none, the one it had, or one no one has. */
  ghost predicate CodeMoves(w: World, t: nat, pc: PC) {
    || CodeOf(pc).None?
    || (t in w.threads && CodeOf(w.threads[t]) == CodeOf(pc))
    || NobodyHas(w, CodeOf(pc).value)
  }

  ghost predicate NobodyShows(w: World, proof: nat) {
    && (forall u :: u in w.threads ==> ProofOf(w.threads[u]) != Some(proof))
    && (forall i :: 0 <= i < |w.responses| ==> w.responses[i].proof != Some(proof))
  }

  /** Likewise the acceptance it rests on: none, or one no one has. */
  ghost predicate ProofMoves(w: World, pc: PC) {
    ProofOf(pc).None? || NobodyShows(w, ProofOf(pc).value)
  }

  lemma CodesEnd(w: World, t: nat)
    requires CodesApart(w.threads, w.responses) && ProofsApart(w.threads, w.responses)
    ensures CodesApart(w.threads - {t}, w.responses) && ProofsApart(w.threads - {t}, w.responses)
  {
    hide CodeOf, TicketCode, ProofOf;
  }

  lemma ProofsMove(w: World, t: nat, pc: PC)
    requires ProofsApart(w.threads, w.responses) && ProofMoves(w, pc)
    ensures ProofsApart(w.threads[t := pc], w.responses)
  {
    hide ProofOf;
  }

  lemma CodesMove(w: World, t: nat, pc: PC)
    requires CodesApart(w.threads, w.responses) && CodeMoves(w, t, pc)
    ensures CodesApart(w.threads[t := pc], w.responses)
  {}

  /** Same shared state and history, other program counters. */
  lemma ThreadsMove(cfg: Config, w: World, threads: map<nat, PC>)
    requires Inv(cfg, w)
    requires forall t :: t in threads ==> PcOk(cfg, w.(threads := threads), threads[t])
    requires CodesApart(threads, w.responses) && ProofsApart(threads, w.responses)
    ensures Inv(cfg, w.(threads := threads)) && Evolves(w, w.(threads := threads))
  {
    hide SessionsInv, ContextsInv, CodesInv, RegistryInv, OutputsInv, ReplayInv, AcceptedOk, CodesApart, ProofsApart;
    var w' := w.(threads := threads);
    assert Evolves(w, w');
    SessionsQuiet(cfg, w, w');
    ContextsQuiet(cfg, w, w');
    CodesQuiet(w, w');
    RegistryQuiet(cfg, w, w');
    OutputsQuiet(cfg, w, w');
  }

  lemma SessionAt(cfg: Config, w: World, key: string)
    requires Inv(cfg, w) && key in w.srv.sessions
    ensures w.srv.sessions[key].cookieID == key && SessionOk(cfg, w, w.srv.sessions[key])
  {}

  lemma IdsSeen(cfg: Config, w: World, id: string)
    requires Inv(cfg, w) && id !in w.seen
    ensures id !in w.cookies && id !in w.csids && id !in w.issued && id !in w.srv.sessions && id !in w.dead
              && id !in w.srv.clients
  {
    assert id in w.srv.clients ==> RegistrationOk(cfg, w, id, w.srv.clients[id]);
  }

  lemma ThreadOk(cfg: Config, w: World, t: nat)
    requires Inv(cfg, w) && t in w.threads
    ensures PcOk(cfg, w, w.threads[t])
  {}

  lemma EndKeeps(cfg: Config, w: World, t: nat)
    requires Inv(cfg, w)
    ensures Inv(cfg, End(w, t)) && Evolves(w, End(w, t))
  {
    hide SessionsInv, ContextsInv, CodesInv, RegistryInv, OutputsInv, ReplayInv, AcceptedOk, CodesApart, ProofsApart;
    var w' := End(w, t);
    assert Evolves(w, w');
    forall u | u in w'.threads ensures PcOk(cfg, w', w'.threads[u]) { PcLasts(cfg, w, w', w.threads[u]); }
    CodesEnd(w, t);
    ThreadsMove(cfg, w, w'.threads);
  }

  lemma GotoKeeps(cfg: Config, w: World, t: nat, pc: PC)
    requires Inv(cfg, w) && PcOk(cfg, w, pc) && CodeMoves(w, t, pc) && ProofMoves(w, pc)
    ensures Inv(cfg, Goto(w, t, pc)) && Evolves(w, Goto(w, t, pc))
  {
    hide SessionsInv, ContextsInv, CodesInv, RegistryInv, OutputsInv, ReplayInv, AcceptedOk, CodesApart, ProofsApart;
    var w' := Goto(w, t, pc);
    assert Evolves(w, w');
    forall u | u in w'.threads ensures PcOk(cfg, w', w'.threads[u]) {
      if u != t { PcLasts(cfg, w, w', w.threads[u]); } else { PcLasts(cfg, w, w', pc); }
    }
    CodesMove(w, t, pc);
    ProofsMove(w, t, pc);
    ThreadsMove(cfg, w, w'.threads);
  }

  // ---------------------------------------------------------------- clock and registration

  lemma TickKeeps(cfg: Config, w: World, d: nat)
    requires Inv(cfg, w)
    ensures Inv(cfg, Tick(w, d)) && Evolves(w, Tick(w, d))
  {
    hide PastEvolves;
    hide SessionsInv, ContextsInv, CodesInv, RegistryInv, ThreadsInv, OutputsInv, ReplayInv, AcceptedOk, CodesApart;
    hide ProofsApart;
    var w' := Tick(w, d);
    PastIdle(w);
    SessionsQuiet(cfg, w, w');
    ContextsQuiet(cfg, w, w');
    CodesQuiet(w, w');
    RegistryQuiet(cfg, w, w');
    ReplayLater(w.srv.jtis, w.accepted, w.now, w'.now);
    Settle(cfg, w, w');
  }

  lemma RegistryAdds(cfg: Config, w: World, w': World, c: string)
    requires RegistryInv(cfg, w) && Evolves(w, w') && !cfg.isURL(c)
    requires c in w'.srv.clients && w'.srv.clients == w.srv.clients[c := w'.srv.clients[c]]
               && RegistrationOk(cfg, w', c, w'.srv.clients[c])
    requires w'.srv.metadata == w.srv.metadata && w'.storedAt == w.storedAt && w'.past.documents == w.past.documents
    requires forall d :: d in w.observed && d != c ==> d in w'.observed && w'.observed[d] == w.observed[d]
    ensures RegistryInv(cfg, w')
  {
    hide AsFetched, AsRegistered, DocumentRules, Canonical, TtlFrom, ObserveAll;
    forall d | d in w'.srv.clients ensures RegistrationOk(cfg, w', d, w'.srv.clients[d]) {
      if d != c { assert RegistrationOk(cfg, w, d, w.srv.clients[d]); }
    }
    forall d | d in w'.srv.metadata ensures EntryOk(cfg, w', d, w'.srv.metadata[d]) {
      EntryLasts(cfg, w, w', d, w.srv.metadata[d]);
    }
  }

  lemma RegisterKeeps(cfg: Config, w: World, raw: Registration, id: string, secret: string)
    requires Inv(cfg, w)
    ensures Inv(cfg, Register(cfg, w, raw, id, secret)) && Evolves(w, Register(cfg, w, raw, id, secret))
  {
    hide Inv, Normalize;
    match Normalize(cfg.validURI, raw, REGISTER_AUTH_METHODS, ClientSecretBasic)
    case Err(_) =>
    case Ok(reg) =>
      if Unused(cfg, w, id) && secret != "" {
        NormalizeCanonical(cfg.validURI, raw, REGISTER_AUTH_METHODS, ClientSecretBasic);
        RegisteredKeeps(cfg, w, raw, reg, id, secret);
      }
  }

  lemma RegisteredEvolves(cfg: Config, w: World, raw: Registration, reg: Registration, id: string, secret: string)
    requires Unused(cfg, w, id) && secret != "" && id !in w.srv.clients && id !in w.past.registered
    requires Normalize(cfg.validURI, raw, REGISTER_AUTH_METHODS, ClientSecretBasic) == Ok(reg)
    ensures var w' := Register(cfg, w, raw, id, secret);
            && Evolves(w, w') && OnlySeen(w, w')
            && w' == w.(srv := w'.srv, seen := w.seen + {id}, past := w'.past)
            && w'.srv == w.srv.(clients := w'.srv.clients)
            && w'.srv.clients == w.srv.clients[id := NewDynamic(reg, id, secret, w.now)]
            && w'.past == w.past.(registered := w.past.registered[id := Registered(raw, secret, w.now)])
  {
    hide Normalize;
  }

  lemma RegisteredKeeps(cfg: Config, w: World, raw: Registration, reg: Registration, id: string, secret: string)
    requires Inv(cfg, w) && Unused(cfg, w, id) && secret != ""
    requires Normalize(cfg.validURI, raw, REGISTER_AUTH_METHODS, ClientSecretBasic) == Ok(reg)
    requires Canonical(cfg.validURI, reg, REGISTER_AUTH_METHODS, ClientSecretBasic)
    ensures Inv(cfg, Register(cfg, w, raw, id, secret)) && Evolves(w, Register(cfg, w, raw, id, secret))
  {
    hide SessionsInv, ContextsInv, CodesInv, RegistryInv, ThreadsInv, OutputsInv, ReplayInv, AcceptedOk, CodesApart;
    hide ProofsApart, Canonical, Normalize, RegistrationOk, Register, NewDynamic, Evolves;
    var w' := Register(cfg, w, raw, id, secret);
    IdsSeen(cfg, w, id);
    NewRegistration(cfg, w, id);
    RegisteredEvolves(cfg, w, raw, reg, id, secret);
    SessionsQuiet(cfg, w, w');
    ContextsQuiet(cfg, w, w');
    CodesQuiet(w, w');
    NewDynamicOk(cfg, w', raw, reg, id, secret, w.now);
    RegistryAdds(cfg, w, w', id);
    Settle(cfg, w, w');
  }

  /** Whatever was registered was seen. */
  lemma NewRegistration(cfg: Config, w: World, id: string)
    requires Inv(cfg, w) && id !in w.seen
    ensures id !in w.past.registered
  {}

  lemma NewDynamicOk(cfg: Config, w: World, raw: Registration, reg: Registration, id: string, secret: string, now: int)
    requires Normalize(cfg.validURI, raw, REGISTER_AUTH_METHODS, ClientSecretBasic) == Ok(reg)
    requires Canonical(cfg.validURI, reg, REGISTER_AUTH_METHODS, ClientSecretBasic)
    requires id in w.seen && id != "" && !cfg.isURL(id) && secret != ""
    requires id in w.past.registered && w.past.registered[id] == Registered(raw, secret, now)
    ensures RegistrationOk(cfg, w, id, NewDynamic(reg, id, secret, now))
  {
    hide Normalize;
    var reg' := NewDynamic(reg, id, secret, now);
    var ws :| AllTokens(ws) && NoDup(ws) && reg.scope == Join(ws);
    assert AllTokens(ws) && NoDup(ws) && reg'.scope == Join(ws);
    assert Canonical(cfg.validURI, reg', REGISTER_AUTH_METHODS, ClientSecretBasic);
  }

  // ---------------------------------------------------------------- /authorize

  lemma AuthorizeKeeps(cfg: Config, w: World, t: nat, raw: Request)
    requires Inv(cfg, w)
    ensures Inv(cfg, Authorize(cfg, w, t, raw)) && Evolves(w, Authorize(cfg, w, t, raw))
  {
    hide SessionsInv, ContextsInv, CodesInv, RegistryInv, ThreadsInv, OutputsInv, ReplayInv, AcceptedOk, CodesApart;
    hide ProofsApart;
    hide Heard, WithPkceDefault, Evolves;
    EvolvesTrivially(w);
    var req := WithPkceDefault(raw);
    if t !in w.threads && (req.hint.Some? ==> req.hint.value in w.minted)
        && PkceSupported(req.challenge, req.challengeMethod) {
      var w1 := w.(seen := w.seen + {req.clientID}, past := w.past.(received := w.past.received + {raw}));
      ReceivedEvolves(w, req.clientID, raw);
      HeardNow(w1, raw);
      SessionsQuiet(cfg, w, w1);
      ContextsQuiet(cfg, w, w1);
      CodesQuiet(w, w1);
      RegistryQuiet(cfg, w, w1);
      Settle(cfg, w, w1);
      var pc := if cfg.isURL(req.clientID) then Resolving(req.clientID, ForAuthorize(req)) else Registering(req);
      GotoKeeps(cfg, w1, t, pc);
      EvolvesTransitive(w, w1, Goto(w1, t, pc));
    }
  }

  lemma ReceivedEvolves(w: World, c: string, raw: Request)
    ensures Evolves(w, w.(seen := w.seen + {c}, past := w.past.(received := w.past.received + {raw})))
  {}

  lemma HeardNow(w: World, raw: Request)
    requires raw in w.past.received
    ensures Heard(w, WithPkceDefault(raw))
  {}

  lemma TouchedOk(cfg: Config, w: World, sess: Session, req: Request)
    requires SessionOk(cfg, w, sess) && RequestOk(cfg, w, req)
    ensures var s' := Touch(sess, req.clientID, req.challenge, req.challengeMethod, req.redirectURI);
            SessionOk(cfg, w, s') && s'.cookieID == sess.cookieID && s'.sub == sess.sub
  {
    var s' := Touch(sess, req.clientID, req.challenge, req.challengeMethod, req.redirectURI);
    forall i | 0 <= i < |s'.clientSessions|
      ensures ClientSessionOk(cfg, w, s'.cookieID, s'.sub, s'.clientSessions[i])
    {
      assert ClientSessionOk(cfg, w, sess.cookieID, sess.sub, sess.clientSessions[i]);
    }
  }

  /** authorize with a session: the session's entry for the client is brought up to date. */
  lemma TouchKeeps(cfg: Config, w: World, t: nat, req: Request, key: string)
    requires Inv(cfg, w) && RequestOk(cfg, w, req) && key in w.srv.sessions
    ensures var s' := TouchSession(w.srv, key, req.clientID, req.challenge, req.challengeMethod, req.redirectURI);
            var w' := Goto(w.(srv := s'), t, IssuingCode(s'.sessions[key], req.clientID, req.state, req.nonce));
            Inv(cfg, w') && Evolves(w, w')
  {
    hide SessionsInv, ContextsInv, CodesInv, RegistryInv, ThreadsInv, OutputsInv, ReplayInv, AcceptedOk, CodesApart;
    hide ProofsApart;
    var s' := TouchSession(w.srv, key, req.clientID, req.challenge, req.challengeMethod, req.redirectURI);
    var w1 := w.(srv := s');
    SessionAt(cfg, w, key);
    TouchedOk(cfg, w, w.srv.sessions[key], req);
    SessionPutBack(cfg, w, key, s'.sessions[key]);
    var pc := IssuingCode(s'.sessions[key], req.clientID, req.state, req.nonce);
    GotoKeeps(cfg, w1, t, pc);
    EvolvesTransitive(w, w1, Goto(w1, t, pc));
  }

  ghost predicate CsidsOwned(w: World) {
    w.csids.Keys <= w.seen && forall c :: c in w.csids ==> w.csids[c].cookie in w.cookies
  }

  lemma SameKeys(w: World, w': World, key: string)
    requires SessionKeys(w) && Evolves(w, w') && CsidsOwned(w') && key in w.srv.sessions && key in w'.srv.sessions
    requires w'.srv.sessions == w.srv.sessions[key := w'.srv.sessions[key]] && w'.cookies == w.cookies
               && w'.dead == w.dead
    ensures SessionKeys(w')
  {
    assert w'.srv.sessions.Keys == w.srv.sessions.Keys;
  }

  lemma OneMoreKey(w: World, w': World, key: string)
    requires SessionKeys(w) && Evolves(w, w') && CsidsOwned(w') && key !in w.cookies && key in w'.seen
               && key in w'.srv.sessions
    requires w'.srv.sessions == w.srv.sessions[key := w'.srv.sessions[key]] && w'.dead == w.dead
    requires key in w'.cookies && w'.cookies == w.cookies[key := w'.cookies[key]]
    ensures SessionKeys(w')
  {
    assert w'.srv.sessions.Keys == w.srv.sessions.Keys + {key};
    assert w'.cookies.Keys == w.cookies.Keys + {key};
  }

  /** Putting back a session under its own key, with its own subject. */
  lemma ReplaceSession(cfg: Config, w: World, w': World, sess: Session)
    requires SessionsInv(cfg, w) && Evolves(w, w') && sess.cookieID in w.srv.sessions && CsidsOwned(w')
    requires SessionOk(cfg, w', sess) && sess.sub == w.srv.sessions[sess.cookieID].sub
    requires w'.srv.sessions == w.srv.sessions[sess.cookieID := sess] && w'.cookies == w.cookies && w'.dead == w.dead
    ensures SessionsInv(cfg, w')
  {
    hide SessionOk, Evolves, SessionKeys;
    forall k | k in w'.srv.sessions ensures w'.srv.sessions[k].cookieID == k && SessionOk(cfg, w', w'.srv.sessions[k]) {
      if k != sess.cookieID { SessionLasts(cfg, w, w', w.srv.sessions[k]); }
    }
    SameKeys(w, w', sess.cookieID);
  }

  /** A first login: a new key, for a subject that has no session. */
  lemma AddSession(cfg: Config, w: World, w': World, sess: Session)
    requires SessionsInv(cfg, w) && Evolves(w, w') && sess.cookieID !in w.cookies && sess.cookieID in w'.seen
               && CsidsOwned(w')
    requires SessionOk(cfg, w', sess) && forall k :: k in w.srv.sessions ==> w.srv.sessions[k].sub != sess.sub
    requires w'.srv.sessions == w.srv.sessions[sess.cookieID := sess]
               && w'.cookies == w.cookies[sess.cookieID := sess.sub]
    requires w'.dead == w.dead
    ensures SessionsInv(cfg, w')
  {
    hide SessionOk, Evolves, SessionKeys;
    forall k | k in w'.srv.sessions ensures w'.srv.sessions[k].cookieID == k && SessionOk(cfg, w', w'.srv.sessions[k]) {
      if k != sess.cookieID { SessionLasts(cfg, w, w', w.srv.sessions[k]); }
    }
    OneMoreKey(w, w', sess.cookieID);
  }

  lemma SessionPutBack(cfg: Config, w: World, key: string, sess: Session)
    requires Inv(cfg, w) && key in w.srv.sessions
    requires SessionOk(cfg, w, sess) && sess.cookieID == key && sess.sub == w.srv.sessions[key].sub
    ensures var w' := w.(srv := w.srv.(sessions := w.srv.sessions[key := sess]));
            Inv(cfg, w') && Evolves(w, w') && SessionOk(cfg, w', sess)
  {
    hide PastEvolves;
    hide SessionOk, SessionsInv, ContextsInv, CodesInv, RegistryInv, ThreadsInv, OutputsInv, ReplayInv, AcceptedOk;
    hide CodesApart, ProofsApart;
    var w' := w.(srv := w.srv.(sessions := w.srv.sessions[key := sess]));
    PastIdle(w);
    assert Evolves(w, w');
    SessionLasts(cfg, w, w', sess);
    OwnedNow(cfg, w);
    ReplaceSession(cfg, w, w', sess);
    ContextsQuiet(cfg, w, w');
    CodesQuiet(w, w');
    RegistryQuiet(cfg, w, w');
    Settle(cfg, w, w');
  }

  lemma OwnedNow(cfg: Config, w: World)
    requires Inv(cfg, w)
    ensures CsidsOwned(w)
  {}

  lemma LoginRequiredKeeps(cfg: Config, w: World, t: nat, req: Request)
    requires Inv(cfg, w) && RequestOk(cfg, w, req)
    ensures Inv(cfg, LoginRequired(w, t, req)) && Evolves(w, LoginRequired(w, t, req))
  {
    hide SessionsInv, ContextsInv, CodesInv, RegistryInv, ThreadsInv, OutputsInv, ReplayInv, AcceptedOk, CodesApart;
    hide ProofsApart;
    var w1 := w.(redirects := w.redirects + {Redirect(req.clientID, req.redirectURI, None, req.state)});
    assert Evolves(w, w1);
    RedirectLasts(cfg, w, w1, req.clientID, req.redirectURI);
    SessionsQuiet(cfg, w, w1);
    ContextsQuiet(cfg, w, w1);
    CodesQuiet(w, w1);
    RegistryQuiet(cfg, w, w1);
    Settle(cfg, w, w1);
    EndKeeps(cfg, w1, t);
    EvolvesTransitive(w, w1, End(w1, t));
  }

  lemma LookUpSessionKeeps(cfg: Config, w: World, t: nat)
    requires Inv(cfg, w)
    ensures Inv(cfg, LookUpSession(w, t)) && Evolves(w, LookUpSession(w, t))
  {
    hide SessionsInv, ContextsInv, CodesInv, RegistryInv, ThreadsInv, OutputsInv, ReplayInv, AcceptedOk, CodesApart;
    hide ProofsApart;
    if t in w.threads && w.threads[t].LookingUpSession? {
      var req := w.threads[t].req;
      ThreadOk(cfg, w, t);
      if req.cookie in w.srv.sessions {
        TouchKeeps(cfg, w, t, req, req.cookie);
      } else if !req.promptNone {
        GotoKeeps(cfg, w, t, SavingContext(req));
      } else if req.hint.None? {
        LoginRequiredKeeps(cfg, w, t, req);
      } else {
        GotoKeeps(cfg, w, t, LookingUpHint(req, StringClaim(req.hint.value.claims, Sub)));
      }
    }
  }

  lemma LookUpHintKeeps(cfg: Config, w: World, t: nat, found: Option<string>)
    requires Inv(cfg, w)
    ensures Inv(cfg, LookUpHint(w, t, found)) && Evolves(w, LookUpHint(w, t, found))
  {
    hide SessionsInv, ContextsInv, CodesInv, RegistryInv, ThreadsInv, OutputsInv, ReplayInv, AcceptedOk, CodesApart;
    hide ProofsApart;
    if t in w.threads && w.threads[t].LookingUpHint? && FoundByHint(w.srv.sessions, w.threads[t].hintSub, found) {
      var req := w.threads[t].req;
      ThreadOk(cfg, w, t);
      if found.Some? { TouchKeeps(cfg, w, t, req, found.value); } else { LoginRequiredKeeps(cfg, w, t, req); }
    }
  }

  lemma SaveContextKeeps(cfg: Config, w: World, t: nat, reqID: string)
    requires Inv(cfg, w)
    ensures Inv(cfg, SaveContext(cfg, w, t, reqID)) && Evolves(w, SaveContext(cfg, w, t, reqID))
  {
    hide SessionsInv, ContextsInv, CodesInv, RegistryInv, ThreadsInv, OutputsInv, ReplayInv, AcceptedOk, CodesApart;
    hide ProofsApart, RequestOk, Evolves;
    if t in w.threads && w.threads[t].SavingContext? && Unused(cfg, w, reqID) {
      ThreadOk(cfg, w, t);
      var w1 := SavedRequest(w, reqID, w.threads[t].req);
      SavedKeeps(cfg, w, reqID, w.threads[t].req);
      EndKeeps(cfg, w1, t);
      EvolvesTransitive(w, w1, End(w1, t));
    } else {
      EvolvesTrivially(w);
    }
  }

  lemma EvolvesTrivially(w: World)
    ensures Evolves(w, w)
  {}

  /** The world after a request is put down for login, before its page is sent. */
  function SavedRequest(w: World, reqID: string, req: Request): World {
    var ctx := AuthContext(req.scope, req.clientID, req.redirectURI, req.state, req.nonce,
                           req.challenge, req.challengeMethod, "", "");
    w.(srv := PutContext(w.srv, reqID, ctx), seen := w.seen + {reqID},
       past := w.past.(asked := w.past.asked[reqID := req]))
  }

  lemma SavedKeeps(cfg: Config, w: World, reqID: string, req: Request)
    requires Inv(cfg, w) && RequestOk(cfg, w, req) && reqID !in w.seen
    ensures var w' := SavedRequest(w, reqID, req); Inv(cfg, w') && Evolves(w, w')
  {
    hide SessionsInv, ContextsInv, CodesInv, RegistryInv, ThreadsInv, OutputsInv, ReplayInv, AcceptedOk, CodesApart;
    hide ProofsApart, Heard, Admitted;
    var w' := SavedRequest(w, reqID, req);
    NewRequest(cfg, w, reqID);
    assert Evolves(w, w');
    RequestLasts(cfg, w, w', req);
    SessionsQuiet(cfg, w, w');
    ContextsChange(cfg, w, w', reqID);
    CodesQuiet(w, w');
    RegistryQuiet(cfg, w, w');
    Settle(cfg, w, w');
  }

  /** An unseen request id was neither asked under nor logged in on. */
  lemma NewRequest(cfg: Config, w: World, r: string)
    requires Inv(cfg, w) && r !in w.seen
    ensures r !in w.past.asked && r !in w.past.lastLogin && r !in w.past.done
  {}

  lemma CodesAdd(w: World, w': World, code: string)
    requires CodesInv(w) && Evolves(w, w') && code !in w.issued && code in w'.seen && code in w'.issued
    requires var r := w'.issued[code];
             && w'.issued == w.issued[code := r] && w'.srv.codeMeta
                 == w.srv.codeMeta[code := CodeMeta(r.cookie, r.clientID, r.nonce)]
             && r.cookie in w.cookies && r.sub == w.cookies[r.cookie] && r.clientID in w.seen
    requires w'.consumed == w.consumed
    ensures CodesInv(w')
  {}

  lemma IssueCodeKeeps(cfg: Config, w: World, t: nat, code: string)
    requires Inv(cfg, w)
    ensures Inv(cfg, IssueCode(cfg, w, t, code)) && Evolves(w, IssueCode(cfg, w, t, code))
  {
    hide SessionsInv, ContextsInv, CodesInv, RegistryInv, ThreadsInv, OutputsInv, ReplayInv, AcceptedOk, CodesApart;
    hide ProofsApart;
    if t in w.threads && w.threads[t].IssuingCode? && Unused(cfg, w, code) {
      var pc := w.threads[t];
      ThreadOk(cfg, w, t);
      var i := FindClient(pc.sess.clientSessions, pc.codeClient);
      var redirect := if i < |pc.sess.clientSessions|
                      then {Redirect(pc.codeClient, pc.sess.clientSessions[i].redirectURI, Some(code), pc.state)}
                          else {};
      if i < |pc.sess.clientSessions| {
        assert ClientSessionOk(cfg, w, pc.sess.cookieID, pc.sess.sub, pc.sess.clientSessions[i]);
      }
      CodeKeeps(cfg, w, code, pc.sess, pc.codeClient, pc.nonce, redirect);
      var w1 := w.(srv := PutCode(w.srv, code, pc.sess, pc.codeClient, pc.nonce),
                   seen := w.seen + {code},
                   issued := w.issued[code := CodeRecord(pc.sess.cookieID, pc.codeClient, pc.sess.sub, pc.nonce)],
                   redirects := w.redirects + redirect);
      EndKeeps(cfg, w1, t);
      EvolvesTransitive(w, w1, End(w1, t));
    }
  }

  lemma IssueEvolves(cfg: Config, w: World, code: string, sess: Session, c: string, nonce: string,
                     redirect: set<Redirect>)
    requires code !in w.issued
    ensures Evolves(w, w.(srv := PutCode(w.srv, code, sess, c, nonce),
                          seen := w.seen + {code},
                          issued := w.issued[code := CodeRecord(sess.cookieID, c, sess.sub, nonce)],
                          redirects := w.redirects + redirect))
  {}

  lemma CodeKeeps(cfg: Config, w: World, code: string, sess: Session, c: string, nonce: string, redirect: set<Redirect>)
    requires Inv(cfg, w) && SessionOk(cfg, w, sess) && c in w.seen && code !in w.seen
    requires forall r :: r in redirect ==> RedirectAllowed(cfg, w, r.clientID, r.uri)
    ensures var w' := w.(srv := PutCode(w.srv, code, sess, c, nonce),
                         seen := w.seen + {code},
                         issued := w.issued[code := CodeRecord(sess.cookieID, c, sess.sub, nonce)],
                         redirects := w.redirects + redirect);
            Inv(cfg, w') && Evolves(w, w')
  {
    hide PastEvolves, Evolves;
    hide ContextsInv, CodesInv, RegistryInv, ThreadsInv, OutputsInv, ReplayInv, AcceptedOk, CodesApart, ProofsApart;
    hide SessionsInv;
    var w' := w.(srv := PutCode(w.srv, code, sess, c, nonce),
                 seen := w.seen + {code},
                 issued := w.issued[code := CodeRecord(sess.cookieID, c, sess.sub, nonce)],
                 redirects := w.redirects + redirect);
    IdsSeen(cfg, w, code);
    IssueEvolves(cfg, w, code, sess, c, nonce, redirect);
    forall r | r in redirect ensures RedirectAllowed(cfg, w', r.clientID, r.uri) {
      RedirectLasts(cfg, w, w', r.clientID, r.uri);
    }
    SessionsQuiet(cfg, w, w');
    ContextsQuiet(cfg, w, w');
    RegistryQuiet(cfg, w, w');
    CodesAdd(w, w', code);
    Settle(cfg, w, w');
  }

  // ---------------------------------------------------------------- /login, /approve, logout

  lemma LoginEvolves(w: World, reqID: string, username: string)
    ensures Evolves(w, Login(w, reqID, username))
  {
    hide LoginContext;
  }

  /** A login keeps what the request asked for, and starts from nothing if there is none. */
  lemma LoggedIn(cfg: Config, w: World, reqID: string, username: string)
    requires UrlsSane(cfg) && Inv(cfg, w)
    ensures var w' := Login(w, reqID, username);
            && Evolves(w, w') && OnlySeen(w, w') && ContextHere(cfg, w', reqID, LoginContext(w.srv, reqID, username))
  {
    hide SessionsInv, CodesInv, ThreadsInv, OutputsInv, ReplayInv, AcceptedOk, CodesApart, ProofsApart, Heard;
    var w' := Login(w, reqID, username);
    LoginEvolves(w, reqID, username);
    assert "" in w.srv.clients ==> RegistrationOk(cfg, w, "", w.srv.clients[""]);
    if reqID in w.srv.authContext {
      var ctx := w.srv.authContext[reqID];
      assert ContextHere(cfg, w, reqID, ctx);
      AdmittedLasts(cfg, w, w', ctx.clientID, ctx.redirectURI, ctx.challenge, ctx.challengeMethod);
    } else {
      AdmittedLasts(cfg, w, w', "", "", "", NoMethod);
      NothingPending(cfg, w, reqID);
      assert AsksNothing(LoginContext(w.srv, reqID, username));
    }
  }

  lemma NothingPending(cfg: Config, w: World, r: string)
    requires Inv(cfg, w) && r !in w.srv.authContext
    ensures r !in w.past.asked || r in w.past.done
  {}

  lemma LoginKeeps(cfg: Config, w: World, reqID: string, username: string)
    requires UrlsSane(cfg) && Inv(cfg, w)
    ensures Inv(cfg, Login(w, reqID, username)) && Evolves(w, Login(w, reqID, username))
  {
    hide SessionsInv, ContextsInv, CodesInv, RegistryInv, ThreadsInv, OutputsInv, ReplayInv, AcceptedOk, CodesApart;
    hide ProofsApart, ContextHere, LoginContext, UrlsSane, Evolves;
    var w' := Login(w, reqID, username);
    LoggedIn(cfg, w, reqID, username);
    SessionsQuiet(cfg, w, w');
    ContextsChange(cfg, w, w', reqID);
    CodesQuiet(w, w');
    RegistryQuiet(cfg, w, w');
    ReplayQuiet(cfg, w, w');
    Settle(cfg, w, w');
  }

  lemma ApproveKeeps(cfg: Config, w: World, t: nat, reqID: string, idc: Option<ClaimSet>, acc: Option<ClaimSet>)
    requires Inv(cfg, w)
    ensures Inv(cfg, Approve(w, t, reqID, idc, acc)) && Evolves(w, Approve(w, t, reqID, idc, acc))
  {
    hide SessionsInv, CodesInv, RegistryInv, ThreadsInv, OutputsInv, ReplayInv, AcceptedOk, CodesApart, ProofsApart;
    hide FromRequest, Evolves;
    EvolvesTrivially(w);
    if t !in w.threads && reqID in w.srv.authContext {
      assert ContextHere(cfg, w, reqID, w.srv.authContext[reqID]);
      GotoKeeps(cfg, w, t, Approving(reqID, w.srv.authContext[reqID], idc, acc));
    }
  }

  lemma LiveIsNotDead(cfg: Config, w: World, key: string)
    requires Inv(cfg, w) && key in w.srv.sessions
    ensures key !in w.dead
  {}

  lemma LogoutKeeps(cfg: Config, w: World, cookie: string)
    requires Inv(cfg, w)
    ensures Inv(cfg, Logout(w, cookie)) && Evolves(w, Logout(w, cookie))
  {
    hide PastEvolves;
    hide SessionsInv, ContextsInv, CodesInv, RegistryInv, ThreadsInv, OutputsInv, ReplayInv, AcceptedOk, CodesApart;
    hide ProofsApart;
    var w' := Logout(w, cookie);
    if cookie in w.srv.sessions { LiveIsNotDead(cfg, w, cookie); }
    PastIdle(w);
    assert Evolves(w, w');
    SessionsLogout(cfg, w, w', cookie);
    ContextsQuiet(cfg, w, w');
    CodesQuiet(w, w');
    RegistryQuiet(cfg, w, w');
    Settle(cfg, w, w');
  }

  lemma KeysLogout(w: World, w': World, cookie: string)
    requires SessionKeys(w) && w' == Logout(w, cookie)
    ensures SessionKeys(w')
  {
    assert w'.srv.sessions.Keys == w.srv.sessions.Keys - {cookie};
  }

  lemma SessionsLogout(cfg: Config, w: World, w': World, cookie: string)
    requires SessionsInv(cfg, w) && Evolves(w, w') && w' == Logout(w, cookie)
    ensures SessionsInv(cfg, w')
  {
    hide SessionOk, Evolves, SessionKeys;
    forall k | k in w'.srv.sessions ensures SessionOk(cfg, w', w'.srv.sessions[k]) {
      SessionLasts(cfg, w, w', w.srv.sessions[k]);
    }
    KeysLogout(w, w', cookie);
  }

  lemma UpsertedOk(cfg: Config, w: World, base: Session, cs: ClientSession)
    requires SessionOk(cfg, w, base) && ClientSessionOk(cfg, w, base.cookieID, base.sub, cs)
    ensures SessionOk(cfg, w, base.(clientSessions := Upsert(base.clientSessions, cs)))
  {
    var out := base.(clientSessions := Upsert(base.clientSessions, cs));
    forall i | 0 <= i < |out.clientSessions|
      ensures ClientSessionOk(cfg, w, out.cookieID, out.sub, out.clientSessions[i])
    {
      if i < |base.clientSessions| {
        assert ClientSessionOk(cfg, w, base.cookieID, base.sub, base.clientSessions[i]);
      }
    }
  }

  lemma CommitKeeps(cfg: Config, w: World, t: nat, found: Option<string>, cookie: string, csid: string)
    requires Inv(cfg, w)
    ensures Inv(cfg, Commit(cfg, w, t, found, cookie, csid)) && Evolves(w, Commit(cfg, w, t, found, cookie, csid))
  {
    hide ApprovedSession, Committed, SessionOk;
    hide SessionsInv, ContextsInv, CodesInv, RegistryInv, ThreadsInv, OutputsInv, ReplayInv, AcceptedOk, CodesApart;
    hide ProofsApart;
    if t in w.threads && w.threads[t].Approving? && Unused(cfg, w, cookie) && Unused(cfg, w, csid) && cookie != csid
       && FoundBySub(w.srv.sessions, w.threads[t].ctx.sub, found) {
      var pc := w.threads[t];
      var ctx := pc.ctx;
      ThreadOk(cfg, w, t);
      var w1 := Committed(cfg, w, pc.reqID, ctx, pc.idc, pc.acc, found, cookie, csid);
      CommittedKeeps(cfg, w, pc.reqID, ctx, pc.idc, pc.acc, found, cookie, csid);
      var sess := ApprovedSession(cfg, w.srv, ctx, found, cookie, csid, pc.idc, pc.acc);
      var next := IssuingCode(sess, ctx.clientID, ctx.state, ctx.nonce);
      GotoKeeps(cfg, w1, t, next);
      EvolvesTransitive(w, w1, Goto(w1, t, next));
    }
  }

  lemma ApprovedShape(cfg: Config, w: World, ctx: AuthContext, found: Option<string>, cookie: string, csid: string,
                      idc: Option<ClaimSet>, acc: Option<ClaimSet>)
    requires FoundBySub(w.srv.sessions, ctx.sub, found)
    ensures var sess := ApprovedSession(cfg, w.srv, ctx, found, cookie, csid, idc, acc);
            sess.cookieID == BaseSession(w.srv, ctx, found, cookie).cookieID && sess.sub == ctx.sub
  {}

  lemma AdmittedSeen(cfg: Config, w: World, ctx: AuthContext)
    requires ContextOk(cfg, w, ctx)
    ensures ctx.clientID in w.seen
  {}

  lemma CommittedEvolves(cfg: Config, w: World, reqID: string, ctx: AuthContext, idc: Option<ClaimSet>,
                         acc: Option<ClaimSet>, found: Option<string>, cookie: string, csid: string)
    requires cookie !in w.cookies && csid !in w.csids && FoundBySub(w.srv.sessions, ctx.sub, found)
    ensures Evolves(w, Committed(cfg, w, reqID, ctx, idc, acc, found, cookie, csid))
  {}

  lemma CommittedSessions(cfg: Config, w: World, reqID: string, ctx: AuthContext, idc: Option<ClaimSet>,
                          acc: Option<ClaimSet>, found: Option<string>, cookie: string, csid: string)
    requires Inv(cfg, w) && ContextOk(cfg, w, ctx) && FoundBySub(w.srv.sessions, ctx.sub, found)
    requires cookie !in w.seen && csid !in w.seen && csid != ""
    ensures var w' := Committed(cfg, w, reqID, ctx, idc, acc, found, cookie, csid);
            && Evolves(w, w') && SessionsInv(cfg, w')
            && SessionOk(cfg, w', ApprovedSession(cfg, w.srv, ctx, found, cookie, csid, idc, acc))
  {
    hide ApprovedSession, ContextOk, SessionOk, Evolves;
    hide SessionsInv, ContextsInv, CodesInv, RegistryInv, ThreadsInv, OutputsInv, ReplayInv, AcceptedOk, CodesApart;
    hide ProofsApart;
    var w' := Committed(cfg, w, reqID, ctx, idc, acc, found, cookie, csid);
    var sess := ApprovedSession(cfg, w.srv, ctx, found, cookie, csid, idc, acc);
    IdsSeen(cfg, w, cookie);
    IdsSeen(cfg, w, csid);
    ApprovedShape(cfg, w, ctx, found, cookie, csid, idc, acc);
    OwnedNow(cfg, w);
    if found.Some? { SessionAt(cfg, w, found.value); }
    CommittedEvolves(cfg, w, reqID, ctx, idc, acc, found, cookie, csid);
    CommittedSession(cfg, w, w', ctx, found, cookie, csid, idc, acc);
    if found.Some? { ReplaceSession(cfg, w, w', sess); } else { AddSession(cfg, w, w', sess); }
  }

  lemma CommittedKeeps(cfg: Config, w: World, reqID: string, ctx: AuthContext, idc: Option<ClaimSet>,
                       acc: Option<ClaimSet>, found: Option<string>, cookie: string, csid: string)
    requires Inv(cfg, w) && ContextOk(cfg, w, ctx) && FoundBySub(w.srv.sessions, ctx.sub, found)
    requires cookie !in w.seen && csid !in w.seen && csid != ""
    requires reqID in w.seen
    ensures var w' := Committed(cfg, w, reqID, ctx, idc, acc, found, cookie, csid);
            && Inv(cfg, w') && Evolves(w, w')
            && SessionOk(cfg, w', ApprovedSession(cfg, w.srv, ctx, found, cookie, csid, idc, acc))
                && ctx.clientID in w'.seen
  {
    hide ApprovedSession, ContextOk, SessionOk, Evolves, CsidFor;
    hide SessionsInv, ContextsInv, CodesInv, RegistryInv, ThreadsInv, OutputsInv, ReplayInv, AcceptedOk, CodesApart;
    hide ProofsApart;
    var w' := Committed(cfg, w, reqID, ctx, idc, acc, found, cookie, csid);
    CommittedSessions(cfg, w, reqID, ctx, idc, acc, found, cookie, csid);
    AdmittedSeen(cfg, w, ctx);
    ContextsQuiet(cfg, w, w');
    CodesQuiet(w, w');
    RegistryQuiet(cfg, w, w');
    ReplayQuiet(cfg, w, w');
    Settle(cfg, w, w');
  }

  lemma ReplayQuiet(cfg: Config, w: World, w': World)
    requires Inv(cfg, w) && w'.srv.jtis == w.srv.jtis && w'.accepted == w.accepted && w'.now == w.now
    ensures ReplayInv(w'.srv.jtis, w'.accepted, w'.now) && AcceptedOk(cfg, w'.accepted)
  {}

  lemma SubjectNow(cfg: Config, w: World, sub: string, sector: string)
    requires sector in w.sectors
    ensures SubjectKnown(cfg, w, sub, AdvertisedSub(cfg, sub, sector))
  {}

  lemma CommittedSession(cfg: Config, w: World, w': World, ctx: AuthContext, found: Option<string>, cookie: string,
                         csid: string, idc: Option<ClaimSet>, acc: Option<ClaimSet>)
    requires SessionsInv(cfg, w) && ContextOk(cfg, w, ctx) && Evolves(w, w') && csid != ""
    requires FoundBySub(w.srv.sessions, ctx.sub, found) && csid !in w.csids && csid !in w.seen
    requires w'.cookies == if found.Some? then w.cookies else w.cookies[cookie := ctx.sub]
    requires cfg.sector(ctx.redirectURI, ctx.clientID) in w'.sectors
    requires var base := BaseSession(w.srv, ctx, found, cookie);
             w'.csids == if CsidFor(base, ctx.clientID, csid) == csid
                         then w.csids[csid := Owner(base.cookieID, ctx.clientID)] else w.csids
    ensures SessionOk(cfg, w', ApprovedSession(cfg, w.srv, ctx, found, cookie, csid, idc, acc))
  {
    hide Admitted, Evolves, SubjectKnown, AdvertisedSub;
    var base := BaseSession(w.srv, ctx, found, cookie);
    if found.Some? { SessionLasts(cfg, w, w', base); }
    assert SessionOk(cfg, w', base);
    AdmittedLasts(cfg, w, w', ctx.clientID, ctx.redirectURI, ctx.challenge, ctx.challengeMethod);
    var used := CsidFor(base, ctx.clientID, csid);
    var i := FindClient(base.clientSessions, ctx.clientID);
    if i < |base.clientSessions| {
      assert ClientSessionOk(cfg, w, base.cookieID, base.sub, base.clientSessions[i]);
    }
    SubjectNow(cfg, w', base.sub, cfg.sector(ctx.redirectURI, ctx.clientID));
    UpsertedOk(cfg, w', base, ApprovedClient(cfg, ctx, used, idc, acc));
  }
}
