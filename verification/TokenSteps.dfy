// The steps of client resolution and of the token endpoint, and the theorem that all
// steps keep the invariant.
module TokenSteps {
  import opened Lists
  import opened Scopes
  import opened Claims
  import opened Registration
  import opened Idp
  import opened Documents
  import opened Replay
  import opened IdpState
  import opened Machine
  import opened Invariants
  import opened Steps

  // ---------------------------------------------------------------- admitting an /authorize request

  lemma EvolvesSelf(w: World)
    ensures Evolves(w, w)
  {}

  lemma ClientAt(cfg: Config, w: World, c: string)
    requires Inv(cfg, w) && c in w.srv.clients
    ensures RegistrationOk(cfg, w, c, w.srv.clients[c])
  {}

  lemma NoEmptyClient(cfg: Config, w: World)
    requires Inv(cfg, w)
    ensures "" !in w.srv.clients && "" in w.seen
  {
    hide SessionsInv, ContextsInv, CodesInv, ThreadsInv, OutputsInv, ReplayInv, AcceptedOk, CodesApart, ProofsApart;
    assert "" in w.srv.clients ==> RegistrationOk(cfg, w, "", w.srv.clients[""]);
  }

  lemma AutomaticOk(cfg: Config, w: World, w': World, c: string, o: Observation)
    requires RegistryInv(cfg, w) && c in w.seen && c in w'.seen && c != "" && !cfg.isURL(c)
    requires c in w.srv.clients ==> w.srv.clients[c].registeredBy == Automatic
    requires w'.srv == SeeClient(w.srv, c, o, w.now)
    requires w'.observed == w.observed[c := (if c in w.srv.clients && c in w.observed then w.observed[c] else []) + [o]]
    ensures RegistrationOk(cfg, w', c, w'.srv.clients[c]) && w'.srv.clients[c].registeredBy == Automatic
  {
    var before := if c in w.srv.clients && c in w.observed then w.observed[c] else [];
    var issuedAt := w'.srv.clients[c].issuedAt;
    assert (before + [o])[..|before + [o]| - 1] == before;
    if c in w.srv.clients { assert RegistrationOk(cfg, w, c, w.srv.clients[c]); }
    AutomaticFields(c, issuedAt, before + [o]);
  }

  lemma ObserveShape(reg: Registration, o: Observation)
    ensures Observe(reg, o).registeredBy == reg.registeredBy
  {}

  lemma {:induction false} AutomaticFields(c: string, issuedAt: int, history: seq<Observation>)
    ensures var reg := ObserveAll(c, issuedAt, history);
            reg.clientID == c && reg.issuedAt == issuedAt && reg.registeredBy == Automatic
  {
    if history != [] { AutomaticFields(c, issuedAt, history[..|history| - 1]); }
  }

  /** The registration an /authorize request is held to is the client's own. */
  ghost predicate HeldTo(cfg: Config, w: World, c: string, reg: Registration) {
    && c in w.srv.clients && reg.registeredBy == w.srv.clients[c].registeredBy
    && (reg.registeredBy == Dynamic ==> reg == w.srv.clients[c])
    && (cfg.isURL(c) <==> reg.registeredBy == MetadataDocument)
    && (cfg.isURL(c) ==> (exists at :: StoredDocument(c, reg, at) in w.stored) && DocumentRules(cfg, c, reg))
  }

  lemma AuthorizeWithKeeps(cfg: Config, w: World, t: nat, req: Request, reg: Registration)
    requires Inv(cfg, w) && RequestPending(w, req) && HeldTo(cfg, w, req.clientID, reg)
    ensures Inv(cfg, AuthorizeWith(w, t, req, reg)) && Evolves(w, AuthorizeWith(w, t, req, reg))
  {
    hide SessionsInv, ContextsInv, CodesInv, RegistryInv, ThreadsInv, OutputsInv, ReplayInv, AcceptedOk, CodesApart;
    hide ProofsApart, Evolves, Canonical;
    if (reg.registeredBy == MetadataDocument || reg.registeredBy == Dynamic) && req.redirectURI !in reg.redirectURIs {
      EndKeeps(cfg, w, t);
    } else if reg.registeredBy == MetadataDocument && reg.authMethod == NoAuth && req.challenge == "" {
      EndKeeps(cfg, w, t);
    } else {
      if cfg.isURL(req.clientID) {
        var at :| StoredDocument(req.clientID, reg, at) in w.stored;
        assert StoredDocument(req.clientID, reg, at).reg == reg;
      }
      GotoKeeps(cfg, w, t, LookingUpSession(req));
    }
  }

  lemma SeeAndAdmitKeeps(cfg: Config, w: World, t: nat)
    requires UrlsSane(cfg) && Inv(cfg, w)
    ensures Inv(cfg, SeeAndAdmit(w, t)) && Evolves(w, SeeAndAdmit(w, t))
  {
    hide SessionsInv, ContextsInv, CodesInv, RegistryInv, ThreadsInv, OutputsInv, ReplayInv, AcceptedOk, CodesApart;
    hide ProofsApart, AuthorizeWith, SeeClient;
    if t in w.threads && w.threads[t].Registering? {
      ThreadOk(cfg, w, t);
      var req := w.threads[t].req;
      var c, o := req.clientID, Observation(req.redirectURI, req.scope);
      NoEmptyClient(cfg, w);
      if c == "" {
        GotoKeeps(cfg, w, t, LookingUpSession(req));
      } else {
        SeenKeeps(cfg, w, c, o);
        var w1 := Seen(w, c, o);
        AuthorizeWithKeeps(cfg, w1, t, req, w1.srv.clients[c]);
        EvolvesTransitive(w, w1, AuthorizeWith(w1, t, req, w1.srv.clients[c]));
      }
    }
  }

  /** A client the server may still write down automatically. */
  ghost predicate Writable(w: World, c: string) {
    c in w.srv.clients ==> w.srv.clients[c].registeredBy == Automatic
  }

  lemma SeenAutomatic(cfg: Config, w: World, c: string, o: Observation)
    requires Inv(cfg, w) && c != "" && c in w.seen && !cfg.isURL(c) && Writable(w, c)
    ensures var w' := Seen(w, c, o);
            && w'.srv.clients[c].registeredBy == Automatic && RegistrationOk(cfg, w', c, w'.srv.clients[c])
            && Evolves(w, w') && w'.srv.clients == w.srv.clients[c := w'.srv.clients[c]]
  {
    hide SessionsInv, ContextsInv, CodesInv, ThreadsInv, OutputsInv, ReplayInv, AcceptedOk, CodesApart, ProofsApart;
    hide ObserveAll, Observe, Canonical, RegistryInv, RegistrationOk;
    var w' := Seen(w, c, o);
    ObserveShape(if c in w.srv.clients then w.srv.clients[c] else FirstSight(c, w.now / SECOND), o);
    AutomaticOk(cfg, w, w', c, o);
  }

  lemma SeenKeeps(cfg: Config, w: World, c: string, o: Observation)
    requires Inv(cfg, w) && c != "" && c in w.seen && !cfg.isURL(c)
    ensures var w' := Seen(w, c, o);
            Inv(cfg, w') && Evolves(w, w') && w'.seen == w.seen && HeldTo(cfg, w', c, w'.srv.clients[c])
  {
    hide SessionsInv, ContextsInv, CodesInv, RegistryInv, ThreadsInv, OutputsInv, ReplayInv, AcceptedOk, CodesApart;
    hide ProofsApart;
    hide ObserveAll, Observe, Canonical, Evolves;
    var w' := Seen(w, c, o);
    if c in w.srv.clients { ClientAt(cfg, w, c); }
    if Writable(w, c) {
      SeenAutomatic(cfg, w, c, o);
      RegistryAdds(cfg, w, w', c);
      SessionsQuiet(cfg, w, w');
      ContextsQuiet(cfg, w, w');
      CodesQuiet(w, w');
      ReplayQuiet(cfg, w, w');
      Settle(cfg, w, w');
    } else {
      assert w' == w;
      EvolvesSelf(w);
    }
  }

  // ---------------------------------------------------------------- resolving a metadata document

  lemma TokenWithKeeps(cfg: Config, w: World, t: nat, ticket: Ticket, basis: Basis)
    requires Inv(cfg, w) && TicketOk(cfg, w, ticket) && BasisOk(cfg, w, ticket.g.clientID, basis)
    requires !basis.NoRegistration? && !basis.AutomaticClient?
    requires t in w.threads && CodeOf(w.threads[t]) == TicketCode(ticket)
    ensures Inv(cfg, TokenWith(w, t, ticket, basis)) && Evolves(w, TokenWith(w, t, ticket, basis))
  {
    hide TicketOk, BasisOk, SessionsInv, ContextsInv, CodesInv, RegistryInv, ThreadsInv, OutputsInv, ReplayInv;
    hide AcceptedOk, CodesApart, ProofsApart, Evolves;
    match Decide(basis.reg, ticket.g.clientID, ticket.creds)
    case Admit =>
      assert CredentialsMeet(cfg, w, ticket.g.clientID, ticket.creds, basis, None);
      GotoKeeps(cfg, w, t, Responding(ticket, basis, None));
    case Deny => EndKeeps(cfg, w, t);
    case NeedsAssertion => GotoKeeps(cfg, w, t, FindingKeys(ticket, basis));
  }

  lemma AuthenticateKeeps(cfg: Config, w: World, t: nat)
    requires Inv(cfg, w)
    ensures Inv(cfg, Authenticate(w, t)) && Evolves(w, Authenticate(w, t))
  {
    hide SessionsInv, ContextsInv, CodesInv, RegistryInv, ThreadsInv, OutputsInv, ReplayInv, AcceptedOk, CodesApart;
    hide ProofsApart, Evolves, Canonical, ObserveAll;
    hide TokenWith;
    EvolvesSelf(w);
    if t in w.threads && w.threads[t].Authenticating? {
      ThreadOk(cfg, w, t);
      var ticket := w.threads[t].ticket;
      var c := ticket.g.clientID;
      if c !in w.srv.clients {
        GotoKeeps(cfg, w, t, Responding(ticket, NoRegistration, None));
      } else {
        var reg := w.srv.clients[c];
        ClientAt(cfg, w, c);
        match reg.registeredBy
        case Dynamic => TokenWithKeeps(cfg, w, t, ticket, DynamicClient(reg));
        case MetadataDocument => GotoKeeps(cfg, w, t, Resolving(c, ForToken(ticket, reg)));
        case _ => GotoKeeps(cfg, w, t, Responding(ticket, AutomaticClient(reg), None));
      }
    }
  }

  /** A document in hand, fresh from the cache or from the network. */
  ghost predicate InHand(cfg: Config, w: World, c: string, reg: Registration, storedAt: int) {
    && c in w.srv.clients && w.srv.clients[c].registeredBy == MetadataDocument
    && StoredDocument(c, reg, storedAt) in w.stored && DocumentRules(cfg, c, reg)
    && storedAt <= w.now && w.now - storedAt < MaxAge(cfg)
  }

  lemma ResolvedKeeps(cfg: Config, w: World, t: nat, c: string, cont: Cont, reg: Registration, storedAt: int)
    requires Inv(cfg, w) && ContOk(cfg, w, c, cont) && InHand(cfg, w, c, reg, storedAt)
    requires t in w.threads && CodeOf(w.threads[t]) == ContCode(cont)
    ensures Inv(cfg, Resolved(w, t, cont, reg, storedAt)) && Evolves(w, Resolved(w, t, cont, reg, storedAt))
  {
    hide SessionsInv, ContextsInv, CodesInv, RegistryInv, ThreadsInv, OutputsInv, ReplayInv, AcceptedOk, CodesApart;
    hide ProofsApart, Evolves, Canonical;
    hide TokenWith, AuthorizeWith, TicketOk;
    match cont
    case ForAuthorize(req) => AuthorizeWithKeeps(cfg, w, t, req, reg);
    case ForToken(ticket, _) => TokenWithKeeps(cfg, w, t, ticket, FreshDocument(reg, storedAt, w.now));
  }

  lemma UnresolvedKeeps(cfg: Config, w: World, t: nat, c: string, cont: Cont)
    requires Inv(cfg, w) && ContOk(cfg, w, c, cont)
    requires t in w.threads && CodeOf(w.threads[t]) == ContCode(cont)
    ensures Inv(cfg, Unresolved(w, t, cont)) && Evolves(w, Unresolved(w, t, cont))
  {
    hide SessionsInv, ContextsInv, CodesInv, RegistryInv, ThreadsInv, OutputsInv, ReplayInv, AcceptedOk, CodesApart;
    hide ProofsApart, Evolves, Canonical, ObserveAll;
    hide TokenWith, TicketOk;
    match cont
    case ForAuthorize(_) => EndKeeps(cfg, w, t);
    case ForToken(ticket, known) =>
      if known.authMethod == PrivateKeyJwt {
        EndKeeps(cfg, w, t);
      } else {
        ClientAt(cfg, w, c);
        TokenWithKeeps(cfg, w, t, ticket, StaleDocument(known));
      }
  }

  lemma ResolveKeeps(cfg: Config, w: World, t: nat)
    requires Inv(cfg, w)
    ensures Inv(cfg, Resolve(w, t)) && Evolves(w, Resolve(w, t))
  {
    hide SessionsInv, ContextsInv, CodesInv, RegistryInv, ThreadsInv, OutputsInv, ReplayInv, AcceptedOk, CodesApart;
    hide ProofsApart, Evolves, Canonical;
    hide Resolved, ContOk;
    EvolvesSelf(w);
    if t in w.threads && w.threads[t].Resolving? {
      ThreadOk(cfg, w, t);
      var c, cont := w.threads[t].clientID, w.threads[t].cont;
      if Live(w.srv, c, w.now) {
        EntryAt(cfg, w, c);
        ResolvedKeeps(cfg, w, t, c, cont, w.srv.metadata[c].reg, w.storedAt[c]);
      } else {
        GotoKeeps(cfg, w, t, Fetching(c, cont));
      }
    }
  }

  lemma EntryAt(cfg: Config, w: World, c: string)
    requires Inv(cfg, w) && Live(w.srv, c, w.now)
    ensures c in w.storedAt && InHand(cfg, w, c, w.srv.metadata[c].reg, w.storedAt[c])
  {
    hide SessionsInv, ContextsInv, CodesInv, ThreadsInv, OutputsInv, ReplayInv, AcceptedOk, CodesApart, ProofsApart;
    hide Canonical, ObserveAll, AsFetched, AsRegistered, TtlFrom, DocumentRules, Published;
    EntryHere(cfg, w, c);
    ClientAt(cfg, w, c);
    TtlBounds(cfg, w.past.documents[c].header);
  }

  lemma FetchDoneKeeps(cfg: Config, w: World, t: nat, doc: Option<Document>, directives: seq<Directive>)
    requires Inv(cfg, w)
    ensures Inv(cfg, FetchDone(cfg, w, t, doc, directives)) && Evolves(w, FetchDone(cfg, w, t, doc, directives))
  {
    hide SessionsInv, ContextsInv, CodesInv, RegistryInv, ThreadsInv, OutputsInv, ReplayInv, AcceptedOk, CodesApart;
    hide ProofsApart, Evolves, Canonical;
    hide Unresolved, Validate, TtlFrom, DocumentRules;
    EvolvesSelf(w);
    if t in w.threads && w.threads[t].Fetching? {
      ThreadOk(cfg, w, t);
      var c, cont := w.threads[t].clientID, w.threads[t].cont;
      if doc.None? {
        UnresolvedKeeps(cfg, w, t, c, cont);
      } else {
        match Validate(cfg, c, doc.value, w.now)
        case Err(_) => UnresolvedKeeps(cfg, w, t, c, cont);
        case Ok(reg) =>
          ValidatedDocument(cfg, c, doc.value, w.now);
          TtlBounds(cfg, directives);
          var got := DocumentFetch(doc.value, directives, w.now);
          GotoKeeps(cfg, w, t, Storing(c, reg, TtlFrom(cfg, directives), got, cont));
      }
    }
  }

  /** The world after a document is stored, before its request goes on. */
  function Stored(w: World, c: string, reg: Registration, ttl: int, got: DocumentFetch): World {
    var s' := StoreDocument(w.srv, c, reg, ttl, w.now);
    w.(srv := s', stored := w.stored + {StoredDocument(c, s'.clients[c], w.now)}, storedAt := w.storedAt[c := w.now],
       past := w.past.(documents := w.past.documents[c := got]))
  }

  lemma StoredRegistration(cfg: Config, w: World, c: string, reg: Registration, ttl: int, got: DocumentFetch)
    requires DocumentRules(cfg, c, reg) && reg.issuedAt != 0 && c in w.seen && c != "" && cfg.isURL(c)
    ensures var w' := Stored(w, c, reg, ttl, got); RegistrationOk(cfg, w', c, w'.srv.clients[c])
  {
    var reg' := KeepIssueTime(w.srv, c, reg);
    var ws :| AllTokens(ws) && NoDup(ws) && reg.scope == Join(ws);
    assert AllTokens(ws) && NoDup(ws) && reg'.scope == Join(ws);
    assert DocumentRules(cfg, c, reg');
  }

  lemma StoredEvolves(cfg: Config, w: World, c: string, reg: Registration, ttl: int, got: DocumentFetch)
    requires c in w.srv.clients ==> w.srv.clients[c].registeredBy == MetadataDocument && w.srv.clients[c].issuedAt != 0
    requires reg.registeredBy == MetadataDocument
    ensures Evolves(w, Stored(w, c, reg, ttl, got))
  {}

  lemma StoredEntry(cfg: Config, w: World, c: string, reg: Registration, ttl: int, got: DocumentFetch)
    requires ttl == TtlFrom(cfg, got.header) && AsFetched(cfg, c, reg, got) && reg.registeredBy == MetadataDocument
    ensures var w' := Stored(w, c, reg, ttl, got); EntryOk(cfg, w', c, w'.srv.metadata[c])
  {
    hide Validate, TtlFrom;
  }

  lemma StoredKeeps(cfg: Config, w: World, c: string, reg: Registration, ttl: int, got: DocumentFetch)
    requires UrlsSane(cfg) && Inv(cfg, w)
    requires DocumentRules(cfg, c, reg) && reg.issuedAt != 0 && c in w.seen && cfg.isURL(c)
    requires ttl == TtlFrom(cfg, got.header) && AsFetched(cfg, c, reg, got)
    ensures var w' := Stored(w, c, reg, ttl, got);
            && Inv(cfg, w') && Evolves(w, w')
            && InHand(cfg, w', c, w'.srv.clients[c], w.now)
  {
    hide SessionsInv, ContextsInv, CodesInv, RegistryInv, ThreadsInv, OutputsInv, ReplayInv, AcceptedOk, CodesApart;
    hide ProofsApart, Canonical, ObserveAll, DocumentRules, AsFetched, AsRegistered, Evolves, AsFetched, TtlFrom;
    var w' := Stored(w, c, reg, ttl, got);
    if c in w.srv.clients { ClientAt(cfg, w, c); }
    StoredRegistration(cfg, w, c, reg, ttl, got);
    StoredEvolves(cfg, w, c, reg, ttl, got);
    StoredEntry(cfg, w, c, reg, ttl, got);
    TtlBounds(cfg, got.header);
    RegistryStores(cfg, w, w', c);
    SessionsQuiet(cfg, w, w');
    ContextsQuiet(cfg, w, w');
    CodesQuiet(w, w');
    ReplayQuiet(cfg, w, w');
    Settle(cfg, w, w');
  }

  lemma RegistryStores(cfg: Config, w: World, w': World, c: string)
    requires RegistryInv(cfg, w) && Evolves(w, w') && c in w'.srv.clients && c in w'.srv.metadata && c in w'.storedAt
    requires RegistrationOk(cfg, w', c, w'.srv.clients[c]) && EntryOk(cfg, w', c, w'.srv.metadata[c])
    requires w'.srv.clients == w.srv.clients[c := w'.srv.clients[c]]
               && w'.srv.metadata == w.srv.metadata[c := w'.srv.metadata[c]]
    requires w'.storedAt == w.storedAt[c := w'.storedAt[c]] && w'.observed == w.observed
    requires c in w'.past.documents && w'.past.documents == w.past.documents[c := w'.past.documents[c]]
    ensures RegistryInv(cfg, w')
  {
    hide Canonical, ObserveAll, DocumentRules, AsFetched, AsRegistered, AsFetched, AsRegistered, TtlFrom;
    forall d | d in w'.srv.clients ensures RegistrationOk(cfg, w', d, w'.srv.clients[d]) {
      if d != c { assert RegistrationOk(cfg, w, d, w.srv.clients[d]); }
    }
    forall d | d in w'.srv.metadata ensures EntryOk(cfg, w', d, w'.srv.metadata[d]) {
      if d != c { EntryLasts(cfg, w, w', d, w.srv.metadata[d]); }
    }
  }

  lemma StoreKeeps(cfg: Config, w: World, t: nat)
    requires UrlsSane(cfg) && Inv(cfg, w)
    ensures Inv(cfg, Store(w, t)) && Evolves(w, Store(w, t))
  {
    hide SessionsInv, ContextsInv, CodesInv, RegistryInv, ThreadsInv, OutputsInv, ReplayInv, AcceptedOk, CodesApart;
    hide ProofsApart, Evolves, Canonical, DocumentRules;
    hide Resolved, StoreDocument;
    EvolvesSelf(w);
    if t in w.threads && w.threads[t].Storing? {
      ThreadOk(cfg, w, t);
      var pc := w.threads[t];
      StoredKeeps(cfg, w, pc.clientID, pc.reg, pc.ttl, pc.got);
      var w1 := Stored(w, pc.clientID, pc.reg, pc.ttl, pc.got);
      ContLasts(cfg, w, w1, pc.clientID, pc.cont);
      ResolvedKeeps(cfg, w1, t, pc.clientID, pc.cont, w1.srv.clients[pc.clientID], w.now);
      EvolvesTransitive(w, w1, Resolved(w1, t, pc.cont, w1.srv.clients[pc.clientID], w.now));
    }
  }

  // ---------------------------------------------------------------- private_key_jwt

  lemma FindKeysKeeps(cfg: Config, w: World, t: nat)
    requires Inv(cfg, w)
    ensures Inv(cfg, FindKeys(w, t)) && Evolves(w, FindKeys(w, t))
  {
    hide SessionsInv, ContextsInv, CodesInv, RegistryInv, ThreadsInv, OutputsInv, ReplayInv, AcceptedOk, CodesApart;
    hide ProofsApart, Evolves, AssertionPending, Published;
    EvolvesSelf(w);
    if t in w.threads && w.threads[t].FindingKeys? {
      ThreadOk(cfg, w, t);
      var pc := w.threads[t];
      var c := pc.ticket.g.clientID;
      if Live(w.srv, c, w.now) && w.srv.metadata[c].keys.Some? {
        CachedKeys(cfg, w, c);
        GotoKeeps(cfg, w, t, Verifying(pc.ticket, pc.basis, w.srv.metadata[c].keys.value));
      } else {
        GotoKeeps(cfg, w, t, FetchingKeys(pc.ticket, pc.basis));
      }
    }
  }

  lemma CachedKeys(cfg: Config, w: World, c: string)
    requires Inv(cfg, w) && c in w.srv.metadata && w.srv.metadata[c].keys.Some?
    ensures Published(cfg, w, c, w.srv.metadata[c].keys.value)
  {
    hide SessionsInv, ContextsInv, CodesInv, ThreadsInv, OutputsInv, ReplayInv, AcceptedOk, CodesApart, ProofsApart;
    hide AsFetched, Published, TtlFrom;
    assert EntryOk(cfg, w, c, w.srv.metadata[c]);
  }

  lemma EntryHere(cfg: Config, w: World, c: string)
    requires Inv(cfg, w) && c in w.srv.metadata
    ensures EntryOk(cfg, w, c, w.srv.metadata[c])
  {}

  /** The registration a request is held to is a document of its client. */
  lemma BasisNames(cfg: Config, w: World, ticket: Ticket, basis: Basis)
    requires Inv(cfg, w) && AssertionPending(cfg, w, ticket, basis) && SourceOf(basis.reg).Some?
    ensures Named(w, ticket.g.clientID, SourceOf(basis.reg).value)
  {
    hide SessionsInv, ContextsInv, CodesInv, RegistryInv, ThreadsInv, OutputsInv, ReplayInv, AcceptedOk;
    hide CodesApart, ProofsApart, TicketOk, SourceOf;
    ClientAt(cfg, w, ticket.g.clientID);
    assert basis.FreshDocument?;
    assert StoredDocument(ticket.g.clientID, basis.reg, basis.storedAt) in w.stored;
  }

  lemma ArrivedPublished(cfg: Config, w: World, c: string, keys: KeySet)
    requires Named(w, c, keys.source) && (keys.source.Inline? ==> keys.keys == cfg.parseKeys(keys.source.jwks))
    ensures Published(cfg, Arrived(w, c, keys), c, keys)
  {
    hide SourceOf, PutKeys;
    var d :| d in w.stored && d.clientID == c && SourceOf(d.reg) == Some(keys.source);
    assert d in Arrived(w, c, keys).stored;
  }

  lemma ArrivedEvolves(w: World, c: string, keys: KeySet)
    ensures var w' := Arrived(w, c, keys);
            && Evolves(w, w') && w'.threads == w.threads && w'.responses == w.responses && w'.redirects == w.redirects
            && w'.minted == w.minted && w'.now == w.now && w'.accepted == w.accepted && w'.srv.jtis == w.srv.jtis
            && w'.srv.sessions == w.srv.sessions && w'.cookies == w.cookies && w'.csids == w.csids && w'.dead == w.dead
            && w'.srv.authContext == w.srv.authContext && w'.past == w.past
            && w'.srv.codeMeta == w.srv.codeMeta && w'.issued == w.issued && w'.consumed == w.consumed
            && w'.srv.clients == w.srv.clients && w'.observed == w.observed && w'.storedAt == w.storedAt
            && (!Live(w.srv, c, w.now) ==> w'.srv.metadata == w.srv.metadata)
  {}

  lemma KeysKeep(cfg: Config, w: World, c: string, keys: KeySet)
    requires Inv(cfg, w)
    requires Named(w, c, keys.source) && (keys.source.Inline? ==> keys.keys == cfg.parseKeys(keys.source.jwks))
    ensures var w' := Arrived(w, c, keys);
            Inv(cfg, w') && Evolves(w, w') && Published(cfg, w', c, keys) && w'.threads == w.threads
  {
    hide PastEvolves;
    hide SessionsInv, ContextsInv, CodesInv, RegistryInv, ThreadsInv, OutputsInv, ReplayInv, AcceptedOk;
    hide CodesApart, ProofsApart, EntryOk, RegistrationOk, Canonical, ObserveAll, DocumentRules, AsFetched;
    hide AsRegistered, Published, Named, Arrived;
    var w' := Arrived(w, c, keys);
    ArrivedEvolves(w, c, keys);
    ArrivedPublished(cfg, w, c, keys);
    if Live(w.srv, c, w.now) {
      EntryHere(cfg, w, c);
      ClientAt(cfg, w, c);
      ArrivedEntry(cfg, w, c, keys);
      RegistryStores(cfg, w, w', c);
    } else {
      RegistryQuiet(cfg, w, w');
    }
    SessionsQuiet(cfg, w, w');
    ContextsQuiet(cfg, w, w');
    CodesQuiet(w, w');
    ReplayQuiet(cfg, w, w');
    Settle(cfg, w, w');
  }

  lemma ArrivedEntry(cfg: Config, w: World, c: string, keys: KeySet)
    requires Live(w.srv, c, w.now) && EntryOk(cfg, w, c, w.srv.metadata[c])
               && RegistrationOk(cfg, w, c, w.srv.clients[c])
    requires Published(cfg, Arrived(w, c, keys), c, keys)
    ensures var w' := Arrived(w, c, keys);
            && RegistrationOk(cfg, w', c, w'.srv.clients[c]) && EntryOk(cfg, w', c, w'.srv.metadata[c])
            && w'.srv.clients == w.srv.clients[c := w'.srv.clients[c]] && w'.storedAt == w.storedAt[c := w'.storedAt[c]]
            && w'.srv.metadata == w.srv.metadata[c := w'.srv.metadata[c]] && w'.observed == w.observed
  {
    hide Canonical, ObserveAll, DocumentRules, AsFetched, AsRegistered, Published;
  }

  lemma KeysArriveKeeps(cfg: Config, w: World, t: nat, fetched: string)
    requires Inv(cfg, w)
    ensures Inv(cfg, KeysArrive(cfg, w, t, fetched)) && Evolves(w, KeysArrive(cfg, w, t, fetched))
  {
    hide SessionsInv, ContextsInv, CodesInv, RegistryInv, ThreadsInv, OutputsInv, ReplayInv, AcceptedOk, CodesApart;
    hide ProofsApart, Evolves, AssertionPending, Arrived, Published, Named, SourceOf;
    EvolvesSelf(w);
    if t in w.threads && w.threads[t].FetchingKeys? && !w.threads[t].basis.NoRegistration? {
      ThreadOk(cfg, w, t);
      var pc := w.threads[t];
      var source := SourceOf(pc.basis.reg);
      var keys := if source.None? then []
                  else cfg.parseKeys(if source.value.Inline? then source.value.jwks else fetched);
      if keys == [] {
        EndKeeps(cfg, w, t);
      } else {
        var ks, c := KeySet(source.value, keys), pc.ticket.g.clientID;
        BasisNames(cfg, w, pc.ticket, pc.basis);
        KeysKeep(cfg, w, c, ks);
        var w1 := Arrived(w, c, ks);
        PendingLasts(cfg, w, w1, pc.ticket, pc.basis);
        GotoKeeps(cfg, w1, t, Verifying(pc.ticket, pc.basis, ks));
        EvolvesTransitive(w, w1, Goto(w1, t, Verifying(pc.ticket, pc.basis, ks)));
      }
    }
  }

  lemma PassedWith(cfg: Config, w: World, c: string, keys: KeySet, a: Assertion)
    requires Published(cfg, w, c, keys) && AssertionValid(cfg, keys.keys, c, a, w.now)
    ensures VerifiedWith(cfg, w, c, a, w.now)
  {
    hide Published, Vouches, InOrder, AssertionValid;
    AssertionPassesExactly(cfg, keys.keys, c, a, w.now);
    var k :| k in keys.keys && Vouches(k, a);
  }

  lemma VerifyKeeps(cfg: Config, w: World, t: nat)
    requires Inv(cfg, w)
    ensures Inv(cfg, Verify(cfg, w, t)) && Evolves(w, Verify(cfg, w, t))
  {
    hide SessionsInv, ContextsInv, CodesInv, RegistryInv, ThreadsInv, OutputsInv, ReplayInv, AcceptedOk, CodesApart;
    hide ProofsApart, Evolves, AssertionPending, Signed, Vouches, Published, AssertionValid;
    EvolvesSelf(w);
    if t in w.threads && w.threads[t].Verifying? {
      ThreadOk(cfg, w, t);
      var pc := w.threads[t];
      if pc.ticket.creds.assertion.Some?
         && AssertionValid(cfg, pc.keys.keys, pc.ticket.g.clientID, pc.ticket.creds.assertion.value, w.now) {
        PassedWith(cfg, w, pc.ticket.g.clientID, pc.keys, pc.ticket.creds.assertion.value);
        GotoKeeps(cfg, w, t, Consuming(pc.ticket, pc.basis, w.now));
      } else {
        EndKeeps(cfg, w, t);
      }
    }
  }

  lemma AcceptanceKeeps(cfg: Config, w: World, a: Acceptance)
    requires Inv(cfg, w) && a.verifiedAt <= a.at == w.now && a.exp <= a.verifiedAt + MAX_LIFETIME
               && cfg.isURL(a.clientID)
    requires a.verifiedAt < a.exp + LEEWAY
    ensures var w' := w.(srv := w.srv.(jtis := Consume(w.srv.jtis, KeyOf(a), a.exp, w.now)),
                         accepted := if Accepts(w.srv.jtis, KeyOf(a), w.now) then w.accepted + [a] else w.accepted);
            Inv(cfg, w') && Evolves(w, w')
  {
    hide PastEvolves;
    hide SessionsInv, ContextsInv, CodesInv, RegistryInv, ThreadsInv, OutputsInv, ReplayInv, AcceptedOk, CodesApart;
    hide ProofsApart, Consume, Accepts;
    var w' := w.(srv := w.srv.(jtis := Consume(w.srv.jtis, KeyOf(a), a.exp, w.now)),
                 accepted := if Accepts(w.srv.jtis, KeyOf(a), w.now) then w.accepted + [a] else w.accepted);
    ConsumeKeeps(w.srv.jtis, w.accepted, w.now, a);
    AcceptedMore(cfg, w.accepted, a);
    PastIdle(w);
    assert Evolves(w, w');
    SessionsQuiet(cfg, w, w');
    ContextsQuiet(cfg, w, w');
    CodesQuiet(w, w');
    RegistryQuiet(cfg, w, w');
    Settle(cfg, w, w');
  }

  lemma AcceptedMore(cfg: Config, accepted: seq<Acceptance>, a: Acceptance)
    requires AcceptedOk(cfg, accepted) && cfg.isURL(a.clientID) && a.verifiedAt < a.exp + LEEWAY
    ensures AcceptedOk(cfg, accepted + [a])
  {}

  /** Whoever must present an assertion is registered from a document. */
  lemma PendingIsDocument(cfg: Config, w: World, ticket: Ticket, basis: Basis)
    requires Inv(cfg, w) && AssertionPending(cfg, w, ticket, basis)
    ensures cfg.isURL(ticket.g.clientID)
  {
    hide SessionsInv, ContextsInv, CodesInv, RegistryInv, ThreadsInv, OutputsInv, ReplayInv, AcceptedOk, CodesApart;
    hide ProofsApart, TicketOk;
    ClientAt(cfg, w, ticket.g.clientID);
  }

  /** The next acceptance is behind no request and no response yet. */
  lemma NextUnshown(cfg: Config, w: World, w': World)
    requires Inv(cfg, w) && w'.threads == w.threads && w'.responses == w.responses
    ensures NobodyShows(w', |w.accepted|)
  {
    hide SessionsInv, ContextsInv, CodesInv, RegistryInv, ReplayInv, AcceptedOk, CodesApart, ProofsApart;
    forall u | u in w.threads ensures ProofOf(w.threads[u]) != Some(|w.accepted|) {
      if ProofOf(w.threads[u]).Some? { ProofBelow(cfg, w, w.threads[u]); }
    }
    forall i | 0 <= i < |w.responses| ensures w.responses[i].proof != Some(|w.accepted|) {
      assert ResponseOk(cfg, w, w.responses[i]);
    }
  }

  lemma ProofBelow(cfg: Config, w: World, pc: PC)
    requires PcOk(cfg, w, pc) && ProofOf(pc).Some?
    ensures ProofOf(pc).value < |w.accepted|
  {}

  lemma ConsumeJtiKeeps(cfg: Config, w: World, t: nat)
    requires Inv(cfg, w)
    ensures Inv(cfg, ConsumeJti(w, t)) && Evolves(w, ConsumeJti(w, t))
  {
    hide SessionsInv, ContextsInv, CodesInv, RegistryInv, ThreadsInv, OutputsInv, ReplayInv, AcceptedOk, CodesApart;
    hide ProofsApart, Evolves;
    hide TicketOk, BasisOk, Consume, Accepts, VerifiedWith;
    EvolvesSelf(w);
    if t in w.threads && w.threads[t].Consuming? {
      ThreadOk(cfg, w, t);
      var pc := w.threads[t];
      var asn := pc.ticket.creds.assertion.value;
      var a := Acceptance(pc.ticket.g.clientID, asn.jti, asn.exp.value, pc.verifiedAt, w.now);
      var accepts := Accepts(w.srv.jtis, KeyOf(a), w.now);
      var w1 := w.(srv := w.srv.(jtis := Consume(w.srv.jtis, KeyOf(a), a.exp, w.now)),
                   accepted := if accepts then w.accepted + [a] else w.accepted);
      PendingIsDocument(cfg, w, pc.ticket, pc.basis);
      AcceptanceKeeps(cfg, w, a);
      if accepts {
        PendingLasts(cfg, w, w1, pc.ticket, pc.basis);
        assert w1.accepted[|w.accepted|] == a;
        VerifiedLasts(cfg, w, w1, a.clientID, asn, pc.verifiedAt);
        var next := Responding(pc.ticket, pc.basis, Some(|w.accepted|));
        NextUnshown(cfg, w, w1);
        GotoKeeps(cfg, w1, t, next);
        EvolvesTransitive(w, w1, Goto(w1, t, next));
      } else {
        EndKeeps(cfg, w1, t);
        EvolvesTransitive(w, w1, End(w1, t));
      }
    }
  }

  // ---------------------------------------------------------------- grants

  lemma TakenKeeps(cfg: Config, w: World, code: string)
    requires Inv(cfg, w) && code in w.srv.codeMeta
    ensures var w' := w.(srv := TakeCode(w.srv, code), consumed := w.consumed + {code}); Inv(cfg, w') && Evolves(w, w')
  {
    hide PastEvolves;
    hide SessionsInv, ContextsInv, CodesInv, RegistryInv, ThreadsInv, OutputsInv, ReplayInv, AcceptedOk, CodesApart;
    hide ProofsApart;
    var w' := w.(srv := TakeCode(w.srv, code), consumed := w.consumed + {code});
    PastIdle(w);
    assert Evolves(w, w');
    CodesTaken(w, w', code);
    SessionsQuiet(cfg, w, w');
    ContextsQuiet(cfg, w, w');
    RegistryQuiet(cfg, w, w');
    Settle(cfg, w, w');
  }

  lemma LiveCodeAt(cfg: Config, w: World, code: string)
    requires Inv(cfg, w) && code in w.srv.codeMeta
    ensures code in w.issued
    ensures w.srv.codeMeta[code] == CodeMeta(w.issued[code].cookie, w.issued[code].clientID, w.issued[code].nonce)
  {}

  lemma CodesTaken(w: World, w': World, code: string)
    requires CodesInv(w) && code in w.srv.codeMeta && w' == w.(srv := TakeCode(w.srv, code),
               consumed := w.consumed + {code})
    ensures CodesInv(w')
  {
    assert w'.srv.codeMeta.Keys == w.srv.codeMeta.Keys - {code};
  }

  /** A live code is with no request and behind no response. */
  lemma HoldersConsumed(cfg: Config, w: World, code: string)
    requires Inv(cfg, w) && code in w.srv.codeMeta
    ensures NobodyHas(w, code)
  {
    hide SessionsInv, ContextsInv, RegistryInv, ReplayInv, AcceptedOk, CodesApart, ProofsApart;
    forall u | u in w.threads ensures CodeOf(w.threads[u]) != Some(code) {
      if CodeOf(w.threads[u]).Some? { CodeIsConsumed(cfg, w, w.threads[u]); }
    }
    forall i | 0 <= i < |w.responses| ensures TicketCode(w.responses[i].ticket) != Some(code) {
      assert ResponseOk(cfg, w, w.responses[i]);
    }
  }

  lemma CodeIsConsumed(cfg: Config, w: World, pc: PC)
    requires PcOk(cfg, w, pc) && CodeOf(pc).Some?
    ensures CodeOf(pc).value in w.consumed
  {}

  lemma PresentCodeKeeps(cfg: Config, w: World, t: nat, code: string, verifier: string, creds: Credentials)
    requires Inv(cfg, w)
    ensures Inv(cfg, PresentCode(w, t, code, verifier, creds)) && Evolves(w, PresentCode(w, t, code, verifier, creds))
  {
    hide SessionsInv, ContextsInv, CodesInv, RegistryInv, ThreadsInv, OutputsInv, ReplayInv, AcceptedOk, CodesApart;
    hide ProofsApart, Evolves;
    EvolvesSelf(w);
    if t !in w.threads && code in w.srv.codeMeta {
      TakenKeeps(cfg, w, code);
      HoldersConsumed(cfg, w, code);
      LiveCodeAt(cfg, w, code);
      var w1 := w.(srv := TakeCode(w.srv, code), consumed := w.consumed + {code});
      var next := CodeTaken(code, w.srv.codeMeta[code], verifier, creds);
      GotoKeeps(cfg, w1, t, next);
      EvolvesTransitive(w, w1, Goto(w1, t, next));
    }
  }

  lemma GrantedKeeps(cfg: Config, w: World, g: Grant)
    requires Inv(cfg, w)
    ensures var w' := w.(granted := w.granted + [g]); Inv(cfg, w') && Evolves(w, w')
  {
    hide PastEvolves;
    hide SessionsInv, ContextsInv, CodesInv, RegistryInv, ThreadsInv, OutputsInv, ReplayInv, AcceptedOk, CodesApart;
    hide ProofsApart;
    var w' := w.(granted := w.granted + [g]);
    PastIdle(w);
    assert Evolves(w, w');
    SessionsQuiet(cfg, w, w');
    ContextsQuiet(cfg, w, w');
    CodesQuiet(w, w');
    RegistryQuiet(cfg, w, w');
    Settle(cfg, w, w');
  }

  /** The grant read off a session's client entry, and the session as the shared claim map leaves it. */
  lemma GrantFromSession(cfg: Config, w: World, key: string, i: nat, nonce: string)
    requires Inv(cfg, w) && key in w.srv.sessions && i < |w.srv.sessions[key].clientSessions|
    ensures var cs := w.srv.sessions[key].clientSessions[i];
            var g := GrantOf(cfg, key, w.srv.sessions[key], cs, nonce);
            var w' := w.(srv := StampSession(w.srv, key, i), granted := w.granted + [g]);
            && Inv(cfg, w') && Evolves(w, w') && GrantOk(cfg, w', g)
            && PkceHeld(cfg, w', cs.clientID, cs.challenge, cs.challengeMethod)
            && key in w.cookies && key !in w.dead
  {
    hide SessionsInv, ContextsInv, CodesInv, RegistryInv, ThreadsInv, OutputsInv, ReplayInv, AcceptedOk, CodesApart;
    hide ProofsApart;
    var sess := w.srv.sessions[key];
    var cs := sess.clientSessions[i];
    var g := GrantOf(cfg, key, sess, cs, nonce);
    var w0 := w.(srv := StampSession(w.srv, key, i));
    var w' := w0.(granted := w.granted + [g]);
    SessionAt(cfg, w, key);
    assert ClientSessionOk(cfg, w, key, sess.sub, cs);
    StampedOk(cfg, w, sess, i);
    SessionPutBack(cfg, w, key, sess.(clientSessions := sess.clientSessions[i := StampCsid(cs)]));
    GrantedKeeps(cfg, w0, g);
    EvolvesTransitive(w, w0, w');
    LiveIsNotDead(cfg, w, key);
    PkceLasts(cfg, w, w', cs.clientID, cs.challenge, cs.challengeMethod);
    SubjectLasts(cfg, w, w', sess.sub, cs.advertisedSub);
  }

  lemma StampedOk(cfg: Config, w: World, sess: Session, i: nat)
    requires SessionOk(cfg, w, sess) && i < |sess.clientSessions|
    ensures SessionOk(cfg, w, sess.(clientSessions := sess.clientSessions[i := StampCsid(sess.clientSessions[i])]))
  {
    var out := sess.(clientSessions := sess.clientSessions[i := StampCsid(sess.clientSessions[i])]);
    forall j | 0 <= j < |out.clientSessions|
      ensures ClientSessionOk(cfg, w, out.cookieID, out.sub, out.clientSessions[j])
    {
      assert ClientSessionOk(cfg, w, sess.cookieID, sess.sub, sess.clientSessions[j]);
    }
  }

  /** A grant keeps the invariant if what it was asked with checks out against the entry read. */
  lemma GrantToKeeps(cfg: Config, w: World, t: nat, origin: Origin, key: string, i: nat, nonce: string,
                     creds: Credentials)
    requires Inv(cfg, w) && key in w.srv.sessions && i < |w.srv.sessions[key].clientSessions|
    requires var cs := w.srv.sessions[key].clientSessions[i];
             match origin
             case FromCode(code, challenge, how, verifier) =>
               && code in w.consumed && code in w.issued && key in w.cookies && w.issued[code].sub == w.cookies[key]
               && w.issued[code].cookie == key && w.issued[code].clientID == cs.clientID
               && challenge == cs.challenge && how == cs.challengeMethod && PkceAccepts(cfg, challenge, how, verifier)
             case FromToken(token) => token in w.minted && StringClaim(token.claims, Csid) == cs.sessionID
    requires origin.FromCode? ==> t in w.threads && CodeOf(w.threads[t]) == Some(origin.code)
    ensures var w' := GrantTo(cfg, w, t, origin, key, i, nonce, creds); Inv(cfg, w') && Evolves(w, w')
  {
    hide SessionsInv, ContextsInv, CodesInv, RegistryInv, ThreadsInv, OutputsInv, ReplayInv, AcceptedOk, CodesApart;
    hide ProofsApart, Evolves;
    hide GrantOk, PkceHeld, StampSession, PkceAccepts;
    var g := GrantOf(cfg, key, w.srv.sessions[key], w.srv.sessions[key].clientSessions[i], nonce);
    GrantFromSession(cfg, w, key, i, nonce);
    var w1 := w.(srv := StampSession(w.srv, key, i), granted := w.granted + [g]);
    var ticket := Ticket(origin, g, creds, |w.granted|);
    GotoKeeps(cfg, w1, t, Authenticating(ticket));
    EvolvesTransitive(w, w1, Goto(w1, t, Authenticating(ticket)));
  }

  lemma CheckCodeKeeps(cfg: Config, w: World, t: nat)
    requires Inv(cfg, w)
    ensures Inv(cfg, CheckCode(cfg, w, t)) && Evolves(w, CheckCode(cfg, w, t))
  {
    hide SessionsInv, ContextsInv, CodesInv, RegistryInv, ThreadsInv, OutputsInv, ReplayInv, AcceptedOk, CodesApart;
    hide ProofsApart, Evolves;
    hide GrantOk, PkceHeld, GrantTo, PkceAccepts;
    EvolvesSelf(w);
    if t in w.threads && w.threads[t].CodeTaken? {
      ThreadOk(cfg, w, t);
      var pc := w.threads[t];
      var key := pc.meta.cookieID;
      if key !in w.srv.sessions {
        EndKeeps(cfg, w, t);
      } else {
        var sess := w.srv.sessions[key];
        var i := FindClient(sess.clientSessions, pc.meta.clientID);
        if i == |sess.clientSessions|
           || !PkceAccepts(cfg, sess.clientSessions[i].challenge, sess.clientSessions[i].challengeMethod, pc.verifier) {
          EndKeeps(cfg, w, t);
        } else {
          var cs := sess.clientSessions[i];
          CodeAt(cfg, w, pc.code);
          GrantToKeeps(cfg, w, t, FromCode(pc.code, cs.challenge, cs.challengeMethod, pc.verifier), key, i,
              pc.meta.nonce, pc.creds);
        }
      }
    }
  }

  lemma CodeAt(cfg: Config, w: World, code: string)
    requires Inv(cfg, w) && code in w.issued
    ensures w.issued[code].cookie in w.cookies && w.issued[code].sub == w.cookies[w.issued[code].cookie]
  {}

  lemma PresentTokenKeeps(cfg: Config, w: World, t: nat, token: Token, creds: Credentials, found: Option<string>)
    requires Inv(cfg, w)
    ensures Inv(cfg, PresentToken(cfg, w, t, token, creds, found))
              && Evolves(w, PresentToken(cfg, w, t, token, creds, found))
  {
    hide SessionsInv, ContextsInv, CodesInv, RegistryInv, ThreadsInv, OutputsInv, ReplayInv, AcceptedOk, CodesApart;
    hide ProofsApart, Evolves;
    hide GrantOk, PkceHeld, GrantTo;
    var csid := StringClaim(token.claims, Csid);
    EvolvesSelf(w);
    if t !in w.threads && token in w.minted && FoundByCsid(w.srv.sessions, csid, found) && found.Some? {
      var i := FindCsid(w.srv.sessions[found.value].clientSessions, csid);
      GrantToKeeps(cfg, w, t, FromToken(token), found.value, i, "", creds);
    }
  }

  // ---------------------------------------------------------------- the response

  lemma IssuedSessionOk(cfg: Config, w: World, sess: Session, i: nat, g: Grant, issued: Issued)
    requires SessionOk(cfg, w, sess) && i < |sess.clientSessions| && SubjectKnown(cfg, w, sess.sub, g.advertisedSub)
    ensures SessionOk(cfg, w, sess.(clientSessions := sess.clientSessions[i := WithIssued(sess.clientSessions[i], g,
              issued)]))
  {
    var out := sess.(clientSessions := sess.clientSessions[i := WithIssued(sess.clientSessions[i], g, issued)]);
    forall j | 0 <= j < |out.clientSessions|
      ensures ClientSessionOk(cfg, w, out.cookieID, out.sub, out.clientSessions[j])
    {
      assert ClientSessionOk(cfg, w, sess.cookieID, sess.sub, sess.clientSessions[j]);
    }
  }

  lemma StoreIssuedKeeps(cfg: Config, w: World, g: Grant, issued: Issued)
    requires Inv(cfg, w) && GrantOk(cfg, w, g)
    ensures var w' := w.(srv := StoreIssued(w.srv, g, issued)); Inv(cfg, w') && Evolves(w, w')
  {
    hide SessionsInv, ContextsInv, CodesInv, RegistryInv, ThreadsInv, OutputsInv, ReplayInv, AcceptedOk, CodesApart;
    hide ProofsApart;
    if g.cookieID in w.srv.sessions {
      var sess := w.srv.sessions[g.cookieID];
      var i := FindCsid(sess.clientSessions, g.csid);
      SessionAt(cfg, w, g.cookieID);
      if i < |sess.clientSessions| {
        IssuedSessionOk(cfg, w, sess, i, g, issued);
        SessionPutBack(cfg, w, g.cookieID,
            sess.(clientSessions := sess.clientSessions[i := WithIssued(sess.clientSessions[i], g, issued)]));
      }
    }
  }

  lemma GrantNames(cfg: Config, w: World, g: Grant)
    requires GrantOk(cfg, w, g)
    ensures g.csid in w.csids && w.csids[g.csid].cookie in w.cookies && w.csids[g.csid].clientID == g.clientID
    ensures Csid in g.accessClaims && g.accessClaims[Csid] == Str(g.csid)
  {}

  lemma TokensOk(cfg: Config, w: World, g: Grant, now: int, token: Token)
    requires GrantOk(cfg, w, g) && token in TokensOf(g, IssueFor(cfg, g, now))
    ensures TokenOk(cfg, w, token)
  {
    hide Sign, GrantOk, HasScope, AccessAudience;
    GrantNames(cfg, w, g);
    SignOverrides(cfg.externalURL, g.advertisedSub, AccessAudience(cfg), g.accessClaims, now,
        now + cfg.accessLifetime * SECOND);
    SignOverrides(cfg.externalURL, g.advertisedSub, [cfg.externalURL + "/token"],
                  map[TokenUse := Str("refresh"), Csid := Str(g.csid)], now, now + cfg.refreshLifetime * SECOND);
    SignOverrides(cfg.externalURL, g.advertisedSub, [g.clientID], g.idTokenClaims, now, now + 3600 * SECOND);
  }

  lemma MintKeeps(cfg: Config, w: World, tokens: set<Token>)
    requires Inv(cfg, w) && forall token :: token in tokens ==> TokenOk(cfg, w, token)
    ensures var w' := w.(minted := w.minted + tokens); Inv(cfg, w') && Evolves(w, w')
  {
    hide PastEvolves;
    hide SessionsInv, ContextsInv, CodesInv, RegistryInv, ThreadsInv, OutputsInv, ReplayInv, AcceptedOk, CodesApart;
    hide ProofsApart;
    var w' := w.(minted := w.minted + tokens);
    PastIdle(w);
    assert Evolves(w, w');
    SessionsQuiet(cfg, w, w');
    ContextsQuiet(cfg, w, w');
    CodesQuiet(w, w');
    RegistryQuiet(cfg, w, w');
    Settle(cfg, w, w');
  }

  lemma AnswerEvolves(w: World, t: nat, r: Response)
    ensures var w' := End(w.(responses := w.responses + [r]), t);
            && Evolves(w, w') && w' == w.(responses := w.responses + [r], threads := w.threads - {t})
  {
    hide PastEvolves;
    PastIdle(w);
  }

  lemma AnsweredOk(cfg: Config, w: World, w': World, r: Response)
    requires PcOk(cfg, w, Responding(r.ticket, r.basis, r.proof)) && Evolves(w, w')
    ensures ResponseOk(cfg, w', r)
  {
    AuthenticatedLasts(cfg, w, w', r.ticket, r.basis, r.proof);
  }

  lemma AnswerKeeps(cfg: Config, w: World, t: nat, r: Response)
    requires Inv(cfg, w) && t in w.threads && w.threads[t] == Responding(r.ticket, r.basis, r.proof)
    requires Given(cfg, r) <= w.minted
    ensures var w' := End(w.(responses := w.responses + [r]), t); Inv(cfg, w') && Evolves(w, w')
  {
    hide PastEvolves, Evolves;
    hide SessionsInv, ContextsInv, CodesInv, RegistryInv, ThreadsInv, OutputsInv, ReplayInv, AcceptedOk, CodesApart;
    hide ProofsApart, Given, ResponseOk;
    var w' := End(w.(responses := w.responses + [r]), t);
    AnswerEvolves(w, t, r);
    ThreadOk(cfg, w, t);
    AnsweredOk(cfg, w, w', r);
    AnswerThreads(cfg, w, w');
    AnswerOutputs(cfg, w, w', r);
    AnswerCodes(w, t, r);
    AnswerProofs(w, t, r);
    SessionsQuiet(cfg, w, w');
    ContextsQuiet(cfg, w, w');
    CodesQuiet(w, w');
    RegistryQuiet(cfg, w, w');
  }

  lemma AnswerThreads(cfg: Config, w: World, w': World)
    requires ThreadsInv(cfg, w) && Evolves(w, w')
    requires forall u :: u in w'.threads ==> u in w.threads && w'.threads[u] == w.threads[u]
    ensures ThreadsInv(cfg, w')
  {
    forall u | u in w'.threads ensures PcOk(cfg, w', w'.threads[u]) { PcLasts(cfg, w, w', w.threads[u]); }
  }

  lemma AnswerOutputs(cfg: Config, w: World, w': World, r: Response)
    requires OutputsInv(cfg, w) && Evolves(w, w') && w'.responses == w.responses + [r] && ResponseOk(cfg, w', r)
    requires w'.redirects == w.redirects && w'.minted == w.minted && Given(cfg, r) <= w.minted
    ensures OutputsInv(cfg, w')
  {
    hide TicketOk, BasisOk, CredentialsMeet, Given;
    forall d | d in w'.redirects ensures RedirectAllowed(cfg, w', d.clientID, d.uri) {
        RedirectLasts(cfg, w, w', d.clientID, d.uri); }
    forall i | 0 <= i < |w'.responses|
      ensures ResponseOk(cfg, w', w'.responses[i]) && Given(cfg, w'.responses[i]) <= w'.minted
    {
      if i < |w.responses| {
        AuthenticatedLasts(cfg, w, w', w.responses[i].ticket, w.responses[i].basis, w.responses[i].proof);
      }
    }
  }

  lemma AnswerCodes(w: World, t: nat, r: Response)
    requires CodesApart(w.threads, w.responses) && t in w.threads && CodeOf(w.threads[t]) == TicketCode(r.ticket)
    ensures CodesApart(w.threads - {t}, w.responses + [r])
  {}

  lemma AnswerProofs(w: World, t: nat, r: Response)
    requires ProofsApart(w.threads, w.responses) && t in w.threads && ProofOf(w.threads[t]) == r.proof
    ensures ProofsApart(w.threads - {t}, w.responses + [r])
  {}

  lemma RespondKeeps(cfg: Config, w: World, t: nat)
    requires Inv(cfg, w)
    ensures Inv(cfg, Respond(cfg, w, t)) && Evolves(w, Respond(cfg, w, t))
  {
    hide SessionsInv, ContextsInv, CodesInv, RegistryInv, ThreadsInv, OutputsInv, ReplayInv, AcceptedOk, CodesApart;
    hide ProofsApart, Evolves;
    hide IssueFor, TokensOf, StoreIssued, OriginOk, BasisOk, CredentialsMeet, TokenOk;
    EvolvesSelf(w);
    if t in w.threads && w.threads[t].Responding? {
      ThreadOk(cfg, w, t);
      var pc := w.threads[t];
      var g := pc.ticket.g;
      var issued := IssueFor(cfg, g, w.now);
      StoreIssuedKeeps(cfg, w, g, issued);
      var w1 := w.(srv := StoreIssued(w.srv, g, issued));
      TicketLasts(cfg, w, w1, pc.ticket);
      forall token | token in TokensOf(g, issued) ensures TokenOk(cfg, w1, token) {
          TokensOk(cfg, w1, g, w.now, token); }
      MintKeeps(cfg, w1, TokensOf(g, issued));
      var w2 := w1.(minted := w1.minted + TokensOf(g, issued));
      var r := Response(pc.ticket, pc.basis, pc.proof, w.now);
      AnswerKeeps(cfg, w2, t, r);
      EvolvesTransitive(w, w1, w2);
      EvolvesTransitive(w, w2, End(w2.(responses := w2.responses + [r]), t));
    }
  }

  // ---------------------------------------------------------------- all steps, all runs

  lemma StepKeeps(cfg: Config, w: World, e: Event)
    requires UrlsSane(cfg) && Inv(cfg, w)
    ensures Inv(cfg, Apply(cfg, w, e)) && Evolves(w, Apply(cfg, w, e))
  {
    hide Inv, Evolves, UrlsSane;
    hide Tick, Register, Authorize, SeeAndAdmit, LookUpSession, LookUpHint, SaveContext, IssueCode, Login, Approve;
    hide Commit, Logout;
    hide PresentCode, CheckCode, PresentToken, Authenticate, Resolve, FetchDone, Store, FindKeys, KeysArrive, Verify;
    hide ConsumeJti, Respond;
    match e
    case ETick(d) => TickKeeps(cfg, w, d);
    case ERegister(raw, id, secret) => RegisterKeeps(cfg, w, raw, id, secret);
    case EAuthorize(t, req) => AuthorizeKeeps(cfg, w, t, req);
    case ESeeAndAdmit(t) => SeeAndAdmitKeeps(cfg, w, t);
    case ELookUpSession(t) => LookUpSessionKeeps(cfg, w, t);
    case ELookUpHint(t, found) => LookUpHintKeeps(cfg, w, t, found);
    case ESaveContext(t, reqID) => SaveContextKeeps(cfg, w, t, reqID);
    case EIssueCode(t, code) => IssueCodeKeeps(cfg, w, t, code);
    case ELogin(reqID, username) => LoginKeeps(cfg, w, reqID, username);
    case EApprove(t, reqID, idc, acc) => ApproveKeeps(cfg, w, t, reqID, idc, acc);
    case ECommit(t, found, cookie, csid) => CommitKeeps(cfg, w, t, found, cookie, csid);
    case ELogout(cookie) => LogoutKeeps(cfg, w, cookie);
    case EPresentCode(t, code, verifier, creds) => PresentCodeKeeps(cfg, w, t, code, verifier, creds);
    case ECheckCode(t) => CheckCodeKeeps(cfg, w, t);
    case EPresentToken(t, token, creds, found) => PresentTokenKeeps(cfg, w, t, token, creds, found);
    case EAuthenticate(t) => AuthenticateKeeps(cfg, w, t);
    case EResolve(t) => ResolveKeeps(cfg, w, t);
    case EFetchDone(t, doc, directives) => FetchDoneKeeps(cfg, w, t, doc, directives);
    case EStore(t) => StoreKeeps(cfg, w, t);
    case EFindKeys(t) => FindKeysKeeps(cfg, w, t);
    case EKeysArrive(t, fetched) => KeysArriveKeeps(cfg, w, t, fetched);
    case EVerify(t) => VerifyKeeps(cfg, w, t);
    case EConsume(t) => ConsumeJtiKeeps(cfg, w, t);
    case ERespond(t) => RespondKeeps(cfg, w, t);
  }

  lemma StartOk(cfg: Config, now: int)
    requires SECOND <= now
    ensures Inv(cfg, Start(now))
  {}

  /** From any good world, every interleaving of any length stays good and only moves forward. */
  lemma {:induction false} RunKeeps(cfg: Config, w: World, events: seq<Event>)
    requires UrlsSane(cfg) && Inv(cfg, w)
    ensures Inv(cfg, Run(cfg, w, events)) && Evolves(w, Run(cfg, w, events))
  {
    hide Inv, UrlsSane, Apply;
    if events != [] {
      var mid := Run(cfg, w, events[..|events| - 1]);
      RunKeeps(cfg, w, events[..|events| - 1]);
      StepKeeps(cfg, mid, events[|events| - 1]);
      EvolvesTransitive(w, mid, Run(cfg, w, events));
    }
  }
}
