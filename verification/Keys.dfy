// Where the keys a client is verified with come from. Keys are cached next to the document
// they were fetched for, but written back onto whichever document is live by then.
module Keys {
  import opened Lists
  import opened Scopes
  import opened Claims
  import opened Registration
  import opened Idp
  import opened Documents
  import opened Replay
  import opened IdpState
  import opened Machine
  import opened Invariants
  import opened Steps
  import opened TokenSteps
  import opened Frames
  import opened Theorems

  /** Cached keys come from where the document cached next to them says. */
  ghost predicate EntryMatches(entry: MetadataEntry) {
    entry.keys.Some? ==> SourceOf(entry.reg) == Some(entry.keys.value.source)
  }

  ghost predicate KeysMatch(s: State) {
    forall c :: c in s.metadata ==> EntryMatches(s.metadata[c])
  }

  // ---------------------------------------------------------------- any interleaving

  /** Keys that arrive leave the cache matched if and only if the document that is live by then
      names the same key source as the one they were fetched for. */
  lemma PutKeysExactly(s: State, reg: Registration, c: string, keys: KeySet, now: int)
    requires KeysMatch(s) && SourceOf(reg) == Some(keys.source)
    ensures KeysMatch(PutKeys(s, c, keys, now)) <==> (Live(s, c, now) ==> SourceOf(s.metadata[c].reg) == SourceOf(reg))
  {
    hide SourceOf;
    var s' := PutKeys(s, c, keys, now);
    if Live(s, c, now) {
      assert EntryMatches(s'.metadata[c]) <==> SourceOf(s.metadata[c].reg) == SourceOf(reg);
    }
  }

  /** Storing a document forgets the keys of the one before it. */
  lemma StoreMatches(s: State, c: string, reg: Registration, ttl: int, now: int)
    requires KeysMatch(s)
    ensures KeysMatch(StoreDocument(s, c, reg, ttl, now))
  {}

  /** No step but the arrival of keys can unmatch the cache. */
  lemma StepMatches(cfg: Config, w: World, e: Event)
    requires KeysMatch(w.srv) && !e.EKeysArrive?
    ensures KeysMatch(Apply(cfg, w, e).srv)
  {
    hide EntryMatches, Apply;
    if e.EStore? { StoreStepMatches(cfg, w, e.t); } else { AwaySame(cfg, w, e); }
  }

  lemma StoreStepMatches(cfg: Config, w: World, t: nat)
    requires KeysMatch(w.srv)
    ensures KeysMatch(Apply(cfg, w, EStore(t)).srv)
  {
    hide Resolved, EntryMatches, KeysMatch;
    if t in w.threads && w.threads[t].Storing? {
      var pc := w.threads[t];
      var w1 := Stored(w, pc.clientID, pc.reg, pc.ttl, pc.got);
      ForgetKeys(w, pc.clientID, pc.reg, pc.ttl, pc.got);
      ResolvedSame(w1, t, pc.cont, w1.srv.clients[pc.clientID], w.now);
      SameMatches(w1, Store(w, t));
    }
  }

  lemma ForgetKeys(w: World, c: string, reg: Registration, ttl: int, got: DocumentFetch)
    requires KeysMatch(w.srv)
    ensures KeysMatch(Stored(w, c, reg, ttl, got).srv)
  {
    StoreMatches(w.srv, c, reg, ttl, w.now);
  }

  lemma SameMatches(w: World, w': World)
    requires KeysMatch(w.srv) && SameCache(w, w')
    ensures KeysMatch(w'.srv)
  {}

  /** A document naming a new key URL, stored while the keys of the one before it are on their
      way: the cache then holds keys the live document never named. */
  lemma KeysUnmatched(s: State, c: string, before: Registration, after: Registration, keys: KeySet, now: int)
    requires before.jwksURI == "https://rp.example/a.jwks" && before.jwks == ""
               && after == before.(jwksURI := "https://rp.example/b.jwks")
    requires SourceOf(before) == Some(keys.source) && KeysMatch(s)
    ensures var s' := StoreDocument(s, c, after, DEFAULT_TTL, now);
            KeysMatch(s') && !KeysMatch(PutKeys(s', c, keys, now))
  {
    var s' := StoreDocument(s, c, after, DEFAULT_TTL, now);
    StoreMatches(s, c, after, DEFAULT_TTL, now);
    PutKeysExactly(s', before, c, keys, now);
    assert "https://rp.example/a.jwks"[19] != "https://rp.example/b.jwks"[19];
  }

  // ---------------------------------------------------------------- one authentication at a time

  /** A request about to look for keys has read the very document that is cached. */
  ghost predicate Ready(w: World, t: nat) {
    t in w.threads ==>
      match w.threads[t]
      case FindingKeys(ticket, basis) =>
        && !basis.NoRegistration? && ticket.g.clientID in w.srv.metadata
        && w.srv.metadata[ticket.g.clientID].reg == basis.reg
      case FetchingKeys(_, _) => false
      case Verifying(_, _, _) => false
      case _ => true
  }

  /** A request verifying an assertion holds keys from where its registration says. */
  ghost predicate KeysInHand(w: World, t: nat) {
    t in w.threads && w.threads[t].Verifying? ==>
      var basis := w.threads[t].basis;
      !basis.NoRegistration? && SourceOf(basis.reg) == Some(w.threads[t].keys.source)
  }

  /** What a request for a document can be doing once the document is in hand, or given up on. */
  ghost predicate Past(w: World, t: nat) {
    t in w.threads ==> !w.threads[t].Resolving? && !w.threads[t].Fetching? && !w.threads[t].Storing?
  }

  /** The step ahead leaves a request ready to look for keys, or with no use for them. */
  ghost predicate Forward(w: World, w': World, t: nat) {
    Ready(w', t) && Past(w', t) && w'.srv == w.srv && w'.now == w.now
  }

  ghost predicate ContFor(c: string, cont: Cont) {
    cont.ForToken? ==>
      cont.ticket.g.clientID == c && (cont.known.authMethod == NoAuth || cont.known.authMethod == PrivateKeyJwt)
  }

  lemma OnlyKeysNeedAssertions(reg: Registration, c: string, creds: Credentials)
    ensures Decide(reg, c, creds).NeedsAssertion? ==> reg.authMethod == PrivateKeyJwt
  {}

  lemma ForwardTo(w: World, t: nat, pc: PC)
    requires !pc.Resolving? && !pc.Fetching? && !pc.Storing? && !pc.FindingKeys? && !pc.FetchingKeys? && !pc.Verifying?
    ensures Forward(w, Goto(w, t, pc), t) && Forward(w, End(w, t), t)
  {}

  lemma ForwardToKeys(w: World, t: nat, ticket: Ticket, basis: Basis)
    requires !basis.NoRegistration? && ticket.g.clientID in w.srv.metadata
               && w.srv.metadata[ticket.g.clientID].reg == basis.reg
    ensures Forward(w, Goto(w, t, FindingKeys(ticket, basis)), t)
  {}

  lemma ReadyWith(w: World, t: nat, ticket: Ticket, basis: Basis)
    requires !basis.NoRegistration? && t in w.threads
    requires basis.reg.authMethod == PrivateKeyJwt ==>
               ticket.g.clientID in w.srv.metadata && w.srv.metadata[ticket.g.clientID].reg == basis.reg
    ensures Forward(w, TokenWith(w, t, ticket, basis), t)
  {
    hide Forward, Goto, End, Decide;
    OnlyKeysNeedAssertions(basis.reg, ticket.g.clientID, ticket.creds);
    ForwardTo(w, t, Responding(ticket, basis, None));
    if basis.reg.authMethod == PrivateKeyJwt { ForwardToKeys(w, t, ticket, basis); }
  }

  lemma ReadyAuthorize(w: World, t: nat, req: Request, reg: Registration)
    ensures Forward(w, AuthorizeWith(w, t, req, reg), t)
  {
    hide Forward, Goto, End;
    ForwardTo(w, t, LookingUpSession(req));
  }

  lemma ReadyResolved(w: World, t: nat, c: string, cont: Cont, reg: Registration, storedAt: int)
    requires ContFor(c, cont) && c in w.srv.metadata && w.srv.metadata[c].reg == reg && t in w.threads
    ensures Forward(w, Resolved(w, t, cont, reg, storedAt), t)
  {
    hide Forward, TokenWith, AuthorizeWith;
    match cont
    case ForAuthorize(req) => ReadyAuthorize(w, t, req, reg);
    case ForToken(ticket, _) => ReadyWith(w, t, ticket, FreshDocument(reg, storedAt, w.now));
  }

  lemma ReadyUnresolved(w: World, t: nat, c: string, cont: Cont)
    requires ContFor(c, cont) && t in w.threads
    ensures Forward(w, Unresolved(w, t, cont), t)
  {
    hide TokenWith;
    match cont
    case ForAuthorize(_) =>
    case ForToken(ticket, known) =>
      if known.authMethod != PrivateKeyJwt { ReadyWith(w, t, ticket, StaleDocument(known)); }
  }

  /** resolveClientIDMetadata without interruption: cache, or fetch and store. */
  function ResolveAtOnce(cfg: Config, w: World, t: nat, doc: Option<Document>, directives: seq<Directive>): World {
    Store(FetchDone(cfg, Resolve(w, t), t, doc, directives), t)
  }

  lemma ReadyAtOnce(cfg: Config, w: World, t: nat, doc: Option<Document>, directives: seq<Directive>)
    requires Inv(cfg, w) && KeysMatch(w.srv) && t in w.threads && w.threads[t].Resolving?
    ensures var w' := ResolveAtOnce(cfg, w, t, doc, directives); Ready(w', t) && KeysMatch(w'.srv) && w'.now == w.now
  {
    hide Inv, Ready, KeysMatch, Resolved, Unresolved, Validate, TtlFrom, Stored;
    ThreadOk(cfg, w, t);
    var c, cont := w.threads[t].clientID, w.threads[t].cont;
    if Live(w.srv, c, w.now) {
      LiveAtOnce(cfg, w, t, doc, directives);
    } else {
      FetchAtOnce(cfg, w, t, c, cont, doc, directives);
    }
  }

  lemma PastStays(cfg: Config, w: World, t: nat, doc: Option<Document>, directives: seq<Directive>)
    requires Past(w, t)
    ensures Store(FetchDone(cfg, w, t, doc, directives), t) == w
  {
    hide Unresolved, Validate, TtlFrom, Resolved, StoreDocument;
  }

  lemma LiveAtOnce(cfg: Config, w: World, t: nat, doc: Option<Document>, directives: seq<Directive>)
    requires Inv(cfg, w) && KeysMatch(w.srv) && t in w.threads && w.threads[t].Resolving?
               && Live(w.srv, w.threads[t].clientID, w.now)
    ensures var w' := ResolveAtOnce(cfg, w, t, doc, directives); Ready(w', t) && KeysMatch(w'.srv) && w'.now == w.now
  {
    hide Inv, Ready, KeysMatch, Resolved, Store, FetchDone, Past;
    ThreadOk(cfg, w, t);
    var c, cont := w.threads[t].clientID, w.threads[t].cont;
    var reg, at := w.srv.metadata[c].reg, if c in w.storedAt then w.storedAt[c] else w.now;
    ReadyResolved(w, t, c, cont, reg, at);
    PastStays(cfg, Resolved(w, t, cont, reg, at), t, doc, directives);
  }

  lemma FetchAtOnce(cfg: Config, w: World, t: nat, c: string, cont: Cont, doc: Option<Document>,
                    directives: seq<Directive>)
    requires ContFor(c, cont) && KeysMatch(w.srv)
    ensures var w' := Store(FetchDone(cfg, Goto(w, t, Fetching(c, cont)), t, doc, directives), t);
            Ready(w', t) && KeysMatch(w'.srv) && w'.now == w.now
  {
    hide Ready, Resolved, Unresolved, ContFor, Validate, TtlFrom, EntryMatches, Past;
    var w1 := Goto(w, t, Fetching(c, cont));
    if doc.None? || Validate(cfg, c, doc.value, w.now).Err? {
      ReadyUnresolved(w1, t, c, cont);
      StoreStays(Unresolved(w1, t, cont), t);
    } else {
      var reg, ttl := Validate(cfg, c, doc.value, w.now).value, TtlFrom(cfg, directives);
      var got := DocumentFetch(doc.value, directives, w.now);
      var w2 := Goto(w1, t, Storing(c, reg, ttl, got, cont));
      var w3 := Stored(w2, c, reg, ttl, got);
      StoredThen(w2, t, c, reg, ttl, got, cont);
      ForgetKeys(w2, c, reg, ttl, got);
      ReadyResolved(w3, t, c, cont, w3.srv.clients[c], w.now);
    }
  }

  lemma StoreStays(w: World, t: nat)
    requires Past(w, t)
    ensures Store(w, t) == w
  {
    hide Resolved, StoreDocument;
  }

  lemma StoredThen(w: World, t: nat, c: string, reg: Registration, ttl: int, got: DocumentFetch, cont: Cont)
    requires t in w.threads && w.threads[t] == Storing(c, reg, ttl, got, cont)
    ensures var w' := Stored(w, c, reg, ttl, got);
            && Store(w, t) == Resolved(w', t, cont, w'.srv.clients[c], w.now) && w'.now == w.now
                && w'.threads == w.threads
            && c in w'.srv.metadata && w'.srv.metadata[c].reg == w'.srv.clients[c]
  {
    hide Resolved;
  }

  // The look-up of keys, again without interruption.
  function KeysAtOnce(cfg: Config, w: World, t: nat, fetched: string): World {
    KeysArrive(cfg, FindKeys(w, t), t, fetched)
  }

  lemma FoundKeys(w: World, t: nat)
    requires Ready(w, t) && KeysMatch(w.srv)
    ensures var w' := FindKeys(w, t);
            && w'.srv == w.srv && KeysInHand(w', t)
            && (t in w'.threads && w'.threads[t].FetchingKeys? ==>
                  var pc := w'.threads[t];
                  && !pc.basis.NoRegistration? && pc.ticket.g.clientID in w.srv.metadata
                  && w.srv.metadata[pc.ticket.g.clientID].reg == pc.basis.reg)
  {
    hide SourceOf;
    if t in w.threads && w.threads[t].FindingKeys? {
      assert EntryMatches(w.srv.metadata[w.threads[t].ticket.g.clientID]);
    }
  }

  lemma ArrivedKeys(cfg: Config, w: World, t: nat, fetched: string)
    requires KeysMatch(w.srv) && KeysInHand(w, t)
    requires t in w.threads && w.threads[t].FetchingKeys? ==>
               var pc := w.threads[t];
               && !pc.basis.NoRegistration? && pc.ticket.g.clientID in w.srv.metadata
               && w.srv.metadata[pc.ticket.g.clientID].reg == pc.basis.reg
    ensures var w' := KeysArrive(cfg, w, t, fetched); KeysInHand(w', t) && KeysMatch(w'.srv)
  {
    hide SourceOf, KeysMatch, PutKeys;
    if t in w.threads && w.threads[t].FetchingKeys? && SourceOf(w.threads[t].basis.reg).Some? {
      var pc := w.threads[t];
      var source := SourceOf(pc.basis.reg).value;
      var keys := cfg.parseKeys(if source.Inline? then source.jwks else fetched);
      PutKeysExactly(w.srv, pc.basis.reg, pc.ticket.g.clientID, KeySet(source, keys), w.now);
    }
  }

  lemma KeysAtOnceMatch(cfg: Config, w: World, t: nat, fetched: string)
    requires Ready(w, t) && KeysMatch(w.srv)
    ensures var w' := KeysAtOnce(cfg, w, t, fetched); KeysInHand(w', t) && KeysMatch(w'.srv)
  {
    hide FindKeys, KeysArrive, KeysInHand, KeysMatch;
    FoundKeys(w, t);
    ArrivedKeys(cfg, FindKeys(w, t), t, fetched);
  }

  /** A move: one step of some request, or one request resolving its client's document and keys
      with no other request in between. */
  datatype Move = Alone(e: Event) | Keyed(t: nat, doc: Option<Document>, directives: seq<Directive>, fetched: string)

  ghost function Make(cfg: Config, w: World, m: Move): World {
    match m
    case Alone(e) => if e.EFindKeys? || e.EKeysArrive? then w else Apply(cfg, w, e)
    case Keyed(t, doc, directives, fetched) =>
      if t in w.threads && w.threads[t].Resolving?
      then KeysAtOnce(cfg, ResolveAtOnce(cfg, w, t, doc, directives), t, fetched) else w
  }

  ghost function MakeAll(cfg: Config, w: World, moves: seq<Move>): World {
    if moves == [] then w else Make(cfg, MakeAll(cfg, w, moves[..|moves| - 1]), moves[|moves| - 1])
  }

  /** Every request verifying an assertion, now or later, does so with keys of its registration. */
  ghost predicate HandsMatch(w: World) {
    forall t :: t in w.threads ==> KeysInHand(w, t)
  }

  lemma HandsStay(w: World, w': World)
    requires HandsMatch(w) && NoNewKeys(w, w')
    ensures HandsMatch(w')
  {
    hide SourceOf;
    forall t | t in w'.threads ensures KeysInHand(w', t) {
      if w'.threads[t].Verifying? { assert KeysInHand(w, t); }
    }
  }

  lemma KeyedKeeps(cfg: Config, w: World, t: nat, doc: Option<Document>, directives: seq<Directive>, fetched: string)
    requires UrlsSane(cfg) && Inv(cfg, w)
    ensures Inv(cfg, Make(cfg, w, Keyed(t, doc, directives, fetched)))
  {
    hide Inv, UrlsSane, Resolve, FetchDone, Store, FindKeys, KeysArrive;
    ResolveKeeps(cfg, w, t);
    FetchDoneKeeps(cfg, Resolve(w, t), t, doc, directives);
    var w2 := FetchDone(cfg, Resolve(w, t), t, doc, directives);
    StoreKeeps(cfg, w2, t);
    FindKeysKeeps(cfg, Store(w2, t), t);
    KeysArriveKeeps(cfg, FindKeys(Store(w2, t), t), t, fetched);
  }

  lemma OthersFind(w: World, t: nat)
    ensures var w' := FindKeys(w, t);
            forall u :: u in w'.threads && u != t ==> u in w.threads && w'.threads[u] == w.threads[u]
  {}

  lemma OthersArrive(cfg: Config, w: World, t: nat, fetched: string)
    ensures var w' := KeysArrive(cfg, w, t, fetched);
            forall u :: u in w'.threads && u != t ==> u in w.threads && w'.threads[u] == w.threads[u]
  {
    hide SourceOf, PutKeys;
  }

  /** A request that resolves its document and keys in one go leaves the other requests' keys alone. */
  lemma KeyedHands(cfg: Config, w: World, t: nat, doc: Option<Document>, directives: seq<Directive>, fetched: string)
    requires HandsMatch(w)
    ensures var w1 := ResolveAtOnce(cfg, w, t, doc, directives);
            var w2 := KeysAtOnce(cfg, w1, t, fetched);
            KeysInHand(w2, t) ==> HandsMatch(w2)
  {
    hide HandsMatch, Resolve, FetchDone, Store, FindKeys, KeysArrive, NoNewKeys, SameSessions, SameCache;
    var r, f := Resolve(w, t), FetchDone(cfg, Resolve(w, t), t, doc, directives);
    ResolveSame(w, t);
    FetchDoneSame(cfg, r, t, doc, directives);
    StoreSame(f, t);
    HandsStay(w, r);
    HandsStay(r, f);
    HandsStay(f, Store(f, t));
    OthersFind(Store(f, t), t);
    OthersArrive(cfg, FindKeys(Store(f, t), t), t, fetched);
    OthersMatch(Store(f, t), KeysAtOnce(cfg, Store(f, t), t, fetched), t);
  }

  lemma OthersMatch(w: World, w': World, t: nat)
    requires HandsMatch(w) && forall u :: u in w'.threads && u != t ==> u in w.threads && w'.threads[u] == w.threads[u]
    ensures KeysInHand(w', t) ==> HandsMatch(w')
  {
    hide SourceOf;
    forall u | u in w'.threads && u != t ensures KeysInHand(w', u) { assert KeysInHand(w, u); }
  }

  /** With each authentication's document and keys taken in one go, and everything else in any
      order: the cached keys always come from the cached document, and whoever is verifying an
      assertion - right away or much later - does so with keys from the registration it is held to. */
  lemma KeysFromRegistration(cfg: Config, start: int, moves: seq<Move>)
    requires UrlsSane(cfg) && SECOND <= start
    ensures var w := MakeAll(cfg, Start(start), moves);
            && Inv(cfg, w) && KeysMatch(w.srv)
            && forall t :: t in w.threads && w.threads[t].Verifying? ==>
                 var pc := w.threads[t];
                 !pc.basis.NoRegistration? && SourceOf(pc.basis.reg) == Some(pc.keys.source)
  {
    AllMovesSound(cfg, start, moves);
    var w := MakeAll(cfg, Start(start), moves);
    assert forall t :: t in w.threads ==> KeysInHand(w, t);
  }

  lemma {:induction false} AllMovesSound(cfg: Config, start: int, moves: seq<Move>)
    requires UrlsSane(cfg) && SECOND <= start
    ensures var w := MakeAll(cfg, Start(start), moves); Inv(cfg, w) && KeysMatch(w.srv) && HandsMatch(w)
  {
    hide Inv, UrlsSane, Apply, KeysMatch, HandsMatch, KeysInHand, Ready, ResolveAtOnce, KeysAtOnce, Start, NoNewKeys;
    if moves == [] {
      StartOk(cfg, start);
      StartMatches(start);
    } else {
      var front, m := moves[..|moves| - 1], moves[|moves| - 1];
      var w := MakeAll(cfg, Start(start), front);
      AllMovesSound(cfg, start, front);
      match m
      case Alone(e) =>
        StepKeeps(cfg, w, e);
        if AwayFromKeys(e) {
          StepMatches(cfg, w, e);
          AwaySame(cfg, w, e);
          HandsStay(w, Apply(cfg, w, e));
        }
      case Keyed(t, doc, directives, fetched) =>
        KeyedKeeps(cfg, w, t, doc, directives, fetched);
        if t in w.threads && w.threads[t].Resolving? {
          ReadyAtOnce(cfg, w, t, doc, directives);
          KeysAtOnceMatch(cfg, ResolveAtOnce(cfg, w, t, doc, directives), t, fetched);
          KeyedHands(cfg, w, t, doc, directives, fetched);
        }
    }
  }

  lemma StartMatches(start: int)
    ensures KeysMatch(Start(start).srv) && HandsMatch(Start(start))
  {}
}
