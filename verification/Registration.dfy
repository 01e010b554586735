// Client registrations: RFC 7591 normalization, dynamic registration and the
// automatic registration that records what a client was seen to send.
module Registration {
  import opened Lists
  import opened Scopes

  /** How a client came to be registered; Unregistered is Go's zero value. */
  datatype RegistrationMethod = Unregistered | Automatic | Dynamic | MetadataDocument

  datatype AuthMethod = Unset | ClientSecretBasic | ClientSecretPost | NoAuth | PrivateKeyJwt | OtherAuth(name: string)

  datatype GrantType = AuthorizationCode | RefreshToken | OtherGrant(name: string)

  datatype ResponseType = CodeResponse | OtherResponse(name: string)

  datatype Registration = Registration(
    clientID: string,
    issuedAt: int,
    secret: string,
    secretExpiresAt: Option<int>,
    redirectURIs: seq<string>,
    authMethod: AuthMethod,
    grantTypes: seq<GrantType>,
    responseTypes: seq<ResponseType>,
    scope: string,
    jwks: string,
    jwksURI: string,
    registeredBy: RegistrationMethod)

  datatype RegistrationError = InvalidClientMetadata | InvalidRedirectURI

  const REGISTER_AUTH_METHODS: seq<AuthMethod> := [ClientSecretBasic, ClientSecretPost, NoAuth]
  const DOCUMENT_AUTH_METHODS: seq<AuthMethod> := [NoAuth, PrivateKeyJwt]

  predicate SupportedGrant(g: GrantType) { g == AuthorizationCode || g == RefreshToken }

  predicate SupportedResponse(r: ResponseType) { r == CodeResponse }

  predicate AllGrantsSupported(gs: seq<GrantType>) { forall i :: 0 <= i < |gs| ==> SupportedGrant(gs[i]) }

  predicate AllResponsesSupported(rs: seq<ResponseType>) { forall i :: 0 <= i < |rs| ==> SupportedResponse(rs[i]) }

  predicate AllValid(validURI: string -> bool, us: seq<string>) { forall i :: 0 <= i < |us| ==> validURI(us[i]) }

  // ---------------------------------------------------------------- normalization

  /** RFC 7591 defaults for what the client left out. */
  function WithDefaults(reg: Registration, defaultAuth: AuthMethod): Registration {
    reg.(grantTypes := if reg.grantTypes == [] then [AuthorizationCode] else reg.grantTypes,
         responseTypes := if reg.responseTypes == [] then [CodeResponse] else reg.responseTypes,
         authMethod := if reg.authMethod == Unset then defaultAuth else reg.authMethod)
  }

  /** The first objection to a registration whose defaults are filled in. */
  function Objection(validURI: string -> bool, reg: Registration, allowed: seq<AuthMethod>): Option<RegistrationError> {
    if !AllGrantsSupported(reg.grantTypes) then Some(InvalidClientMetadata)
    else if !AllResponsesSupported(reg.responseTypes) then Some(InvalidClientMetadata)
    else if reg.authMethod !in allowed then Some(InvalidClientMetadata)
    else if AuthorizationCode in reg.grantTypes && reg.redirectURIs == [] then Some(InvalidRedirectURI)
    else if !AllValid(validURI, reg.redirectURIs) then Some(InvalidRedirectURI)
    else None
  }

  function Tidy(reg: Registration): Registration {
    reg.(redirectURIs := Dedupe(reg.redirectURIs),
         scope := Join(Dedupe(Fields(reg.scope))),
         grantTypes := Dedupe(reg.grantTypes),
         responseTypes := Dedupe(reg.responseTypes))
  }

  /** normalizeRegistration: defaults, then checks, then clean-up. */
  function Normalize(validURI: string -> bool, raw: Registration, allowed: seq<AuthMethod>, defaultAuth: AuthMethod)
    : Result<Registration, RegistrationError>
  {
    var reg := WithDefaults(raw, defaultAuth);
    match Objection(validURI, reg, allowed)
    case Some(e) => Err(e)
    case None => Ok(Tidy(reg))
  }

  /** What a normalized registration looks like, said without normalizing anything. */
  ghost predicate Canonical(validURI: string -> bool, reg: Registration, allowed: seq<AuthMethod>,
                            defaultAuth: AuthMethod) {
    && reg.grantTypes != [] && NoDup(reg.grantTypes) && AllGrantsSupported(reg.grantTypes)
    && reg.responseTypes == [CodeResponse]
    && reg.authMethod in allowed && (reg.authMethod == Unset ==> defaultAuth == Unset)
    && NoDup(reg.redirectURIs) && AllValid(validURI, reg.redirectURIs)
    && (AuthorizationCode in reg.grantTypes ==> reg.redirectURIs != [])
    && (exists ws :: AllTokens(ws) && NoDup(ws) && reg.scope == Join(ws))
  }

  lemma DedupeTokens(ws: seq<string>)
    requires AllTokens(ws)
    ensures AllTokens(Dedupe(ws))
  {
    forall i | 0 <= i < |Dedupe(ws)| ensures IsToken(Dedupe(ws)[i]) {
      DedupeElements(ws, Dedupe(ws)[i]);
    }
  }

  /** A list that can only hold one value de-duplicates to that value alone. */
  lemma {:induction false} DedupeConstant<T>(xs: seq<T>, x: T)
    requires xs != [] && forall i :: 0 <= i < |xs| ==> xs[i] == x
    ensures Dedupe(xs) == [x]
  {
    if |xs| > 1 {
      DedupeConstant(xs[..|xs| - 1], x);
      assert xs[..|xs| - 1][0] == x;
    } else {
      assert xs[..0] == [];
    }
  }

  /** A successful normalization is canonical, and normalizing it again changes nothing. */
  lemma NormalizeCanonical(validURI: string -> bool, raw: Registration, allowed: seq<AuthMethod>,
                           defaultAuth: AuthMethod)
    requires Normalize(validURI, raw, allowed, defaultAuth).Ok?
    ensures var reg := Normalize(validURI, raw, allowed, defaultAuth).value;
            && Canonical(validURI, reg, allowed, defaultAuth)
            && Normalize(validURI, reg, allowed, defaultAuth) == Ok(reg)
            && (forall u :: u in reg.redirectURIs <==> u in raw.redirectURIs)
            && (forall t :: HasScope(reg.scope, t) <==> HasScope(raw.scope, t))
  {
    var base := WithDefaults(raw, defaultAuth);
    var reg := Normalize(validURI, raw, allowed, defaultAuth).value;
    var words := Dedupe(Fields(base.scope));
    DedupeNoDup(base.redirectURIs); DedupeNoDup(base.grantTypes); DedupeNoDup(Fields(base.scope));
    DedupeTokens(Fields(base.scope));
    FieldsJoin(words);
    forall u ensures u in reg.redirectURIs <==> u in raw.redirectURIs { DedupeElements(base.redirectURIs, u); }
    forall t ensures t in words <==> t in Fields(raw.scope) { DedupeElements(Fields(raw.scope), t); }
    forall g ensures g in reg.grantTypes <==> g in base.grantTypes { DedupeElements(base.grantTypes, g); }
    assert base.grantTypes[0] in reg.grantTypes;
    DedupeConstant(base.responseTypes, CodeResponse);
    if base.redirectURIs != [] { assert base.redirectURIs[0] in reg.redirectURIs; }
    forall i | 0 <= i < |reg.grantTypes| ensures SupportedGrant(reg.grantTypes[i]) {
      assert reg.grantTypes[i] in base.grantTypes;
    }
    forall i | 0 <= i < |reg.redirectURIs| ensures validURI(reg.redirectURIs[i]) {
      assert reg.redirectURIs[i] in base.redirectURIs;
    }
    CanonicalIsFixed(validURI, reg, allowed, defaultAuth);
  }

  /** The fixed points of normalization are exactly the canonical registrations. */
  lemma CanonicalIsFixed(validURI: string -> bool, reg: Registration, allowed: seq<AuthMethod>, defaultAuth: AuthMethod)
    requires Canonical(validURI, reg, allowed, defaultAuth)
    ensures Normalize(validURI, reg, allowed, defaultAuth) == Ok(reg)
  {
    CanonicalIsTidy(validURI, reg, allowed, defaultAuth);
    assert WithDefaults(reg, defaultAuth) == reg;
  }

  lemma CanonicalIsTidy(validURI: string -> bool, reg: Registration, allowed: seq<AuthMethod>, defaultAuth: AuthMethod)
    requires Canonical(validURI, reg, allowed, defaultAuth)
    ensures Tidy(reg) == reg
  {
    var ws :| AllTokens(ws) && NoDup(ws) && reg.scope == Join(ws);
    FieldsJoin(ws);
    DedupeFixesNoDup(ws); DedupeFixesNoDup(reg.redirectURIs);
    DedupeFixesNoDup(reg.grantTypes); DedupeFixesNoDup(reg.responseTypes);
  }

  lemma FixedExactlyCanonical(validURI: string -> bool, reg: Registration, allowed: seq<AuthMethod>,
                              defaultAuth: AuthMethod)
    ensures Normalize(validURI, reg, allowed, defaultAuth) == Ok(reg)
            <==> Canonical(validURI, reg, allowed, defaultAuth)
  {
    if Normalize(validURI, reg, allowed, defaultAuth) == Ok(reg) {
      NormalizeCanonical(validURI, reg, allowed, defaultAuth);
    } else if Canonical(validURI, reg, allowed, defaultAuth) {
      CanonicalIsFixed(validURI, reg, allowed, defaultAuth);
    }
  }

  /** Normalization in terms of what was sent: the defaults for what was left out, each list without its
      duplicates, the rest untouched. */
  lemma NormalizeExactly(validURI: string -> bool, raw: Registration, allowed: seq<AuthMethod>, defaultAuth: AuthMethod)
    requires Normalize(validURI, raw, allowed, defaultAuth).Ok?
    ensures var reg := Normalize(validURI, raw, allowed, defaultAuth).value;
            && reg.grantTypes == (if raw.grantTypes == [] then [AuthorizationCode] else Dedupe(raw.grantTypes))
            && reg.responseTypes == (if raw.responseTypes == [] then [CodeResponse] else Dedupe(raw.responseTypes))
            && reg.authMethod == (if raw.authMethod == Unset then defaultAuth else raw.authMethod)
            && reg.redirectURIs == Dedupe(raw.redirectURIs) && Fields(reg.scope) == Dedupe(Fields(raw.scope))
            && reg.jwks == raw.jwks && reg.jwksURI == raw.jwksURI
            && reg.secret == raw.secret && reg.secretExpiresAt == raw.secretExpiresAt
  {
    DedupeTokens(Fields(raw.scope));
    FieldsJoin(Dedupe(Fields(raw.scope)));
    DedupeConstant([AuthorizationCode], AuthorizationCode);
    DedupeConstant([CodeResponse], CodeResponse);
  }

  /** And when it succeeds: exactly when every grant and response type sent is supported, the method sent
      or implied is allowed, and the redirect URIs are valid - and there, for the code grant, which is the
      default. Bad redirect URIs are reported as such only when all else is right. */
  lemma NormalizeSucceedsExactly(validURI: string -> bool, raw: Registration, allowed: seq<AuthMethod>,
                                 defaultAuth: AuthMethod)
    ensures var result := Normalize(validURI, raw, allowed, defaultAuth);
            var metadata := && (forall g :: g in raw.grantTypes ==> g == AuthorizationCode || g == RefreshToken)
                            && (forall r :: r in raw.responseTypes ==> r == CodeResponse)
                            && (if raw.authMethod == Unset then defaultAuth else raw.authMethod) in allowed;
            var uris := && (forall u :: u in raw.redirectURIs ==> validURI(u))
                        && (raw.grantTypes == [] || AuthorizationCode in raw.grantTypes ==> raw.redirectURIs != []);
            && (result.Ok? <==> metadata && uris)
            && (result == Err(InvalidClientMetadata) <==> !metadata)
            && (result == Err(InvalidRedirectURI) <==> metadata && !uris)
  {
    var reg := WithDefaults(raw, defaultAuth);
    assert forall i :: 0 <= i < |raw.grantTypes| ==> raw.grantTypes[i] in raw.grantTypes;
    assert forall i :: 0 <= i < |raw.responseTypes| ==> raw.responseTypes[i] in raw.responseTypes;
    assert forall i :: 0 <= i < |raw.redirectURIs| ==> raw.redirectURIs[i] in raw.redirectURIs;
    assert reg.grantTypes != [];
  }

  method CheckRegistration(validURI: string -> bool, reg: Registration, allowed: seq<AuthMethod>)
    returns (objection: Option<RegistrationError>)
    ensures objection == Objection(validURI, reg, allowed)
  {
    for i := 0 to |reg.grantTypes|
      invariant AllGrantsSupported(reg.grantTypes[..i])
    {
      if !SupportedGrant(reg.grantTypes[i]) { return Some(InvalidClientMetadata); }
    }
    for i := 0 to |reg.responseTypes|
      invariant AllResponsesSupported(reg.responseTypes[..i])
    {
      if !SupportedResponse(reg.responseTypes[i]) { return Some(InvalidClientMetadata); }
    }
    if reg.authMethod !in allowed { return Some(InvalidClientMetadata); }
    if AuthorizationCode in reg.grantTypes && |reg.redirectURIs| == 0 { return Some(InvalidRedirectURI); }
    for i := 0 to |reg.redirectURIs|
      invariant AllValid(validURI, reg.redirectURIs[..i])
    {
      if !validURI(reg.redirectURIs[i]) { return Some(InvalidRedirectURI); }
    }
    return None;
  }

  method NormalizeRegistration(validURI: string -> bool, raw: Registration, allowed: seq<AuthMethod>,
                               defaultAuth: AuthMethod)
    returns (result: Result<Registration, RegistrationError>)
    ensures result == Normalize(validURI, raw, allowed, defaultAuth)
  {
    var reg := raw;
    if |reg.grantTypes| == 0 { reg := reg.(grantTypes := [AuthorizationCode]); }
    if |reg.responseTypes| == 0 { reg := reg.(responseTypes := [CodeResponse]); }
    if reg.authMethod == Unset { reg := reg.(authMethod := defaultAuth); }
    assert reg == WithDefaults(raw, defaultAuth);
    var objection := CheckRegistration(validURI, reg, allowed);
    if objection.Some? { return Err(objection.value); }
    var uris := DedupeStrings(reg.redirectURIs);
    var words := DedupeStrings(Fields(reg.scope));
    var grants := DedupeStrings(reg.grantTypes);
    var responses := DedupeStrings(reg.responseTypes);
    return Ok(reg.(redirectURIs := uris, scope := Join(words), grantTypes := grants, responseTypes := responses));
  }

  // ---------------------------------------------------------------- automatic registration

  /** What one /authorize request shows of a client. */
  datatype Observation = Observation(redirectURI: string, scope: string)

  function FirstSight(clientID: string, issuedAt: int): Registration {
    Registration(clientID, issuedAt, "", None, [], NoAuth, [AuthorizationCode], [CodeResponse], "", "", "", Automatic)
  }

  /** registerClientLocked on a registration it may still change. */
  function Observe(reg: Registration, o: Observation): Registration {
    reg.(
      redirectURIs := if o.redirectURI == "" then reg.redirectURIs else Dedupe(reg.redirectURIs + [o.redirectURI]),
      scope := if o.scope == "" then reg.scope else Join(Dedupe(Fields(reg.scope) + Fields(o.scope))),
      grantTypes := if HasScope(o.scope, "offline_access") then Dedupe(reg.grantTypes + [RefreshToken])
          else reg.grantTypes)
  }

  function ObserveAll(clientID: string, issuedAt: int, history: seq<Observation>): Registration {
    if history == [] then FirstSight(clientID, issuedAt)
    else Observe(ObserveAll(clientID, issuedAt, history[..|history| - 1]), history[|history| - 1])
  }

  function URIsSeen(history: seq<Observation>): seq<string> {
    if history == [] then []
    else
      var o := history[|history| - 1];
      URIsSeen(history[..|history| - 1]) + (if o.redirectURI == "" then [] else [o.redirectURI])
  }

  function ScopesSeen(history: seq<Observation>): seq<string> {
    if history == [] then [] else ScopesSeen(history[..|history| - 1]) + Fields(history[|history| - 1].scope)
  }

  /** The same registration computed in one go from everything ever observed. */
  function FromHistory(clientID: string, issuedAt: int, history: seq<Observation>): Registration {
    FirstSight(clientID, issuedAt).(
      redirectURIs := Dedupe(URIsSeen(history)),
      scope := Join(Dedupe(ScopesSeen(history))),
      grantTypes := [AuthorizationCode] + (if "offline_access" in ScopesSeen(history) then [RefreshToken] else []))
  }

  lemma ScopesSeenTokens(history: seq<Observation>)
    ensures AllTokens(ScopesSeen(history))
  {}

  lemma ObserveGrants(granted: bool, asked: bool)
    ensures var before := if granted then [AuthorizationCode, RefreshToken] else [AuthorizationCode];
            (if asked then Dedupe(before + [RefreshToken]) else before)
            == if granted || asked then [AuthorizationCode, RefreshToken] else [AuthorizationCode]
  {
    hide Dedupe;
    var both, twice := [AuthorizationCode, RefreshToken], [AuthorizationCode, RefreshToken, RefreshToken];
    assert [AuthorizationCode] + [RefreshToken] == both && both + [RefreshToken] == twice;
    DedupeFixesNoDup(both);
    DedupeLast(both, RefreshToken);
  }

  lemma DedupeLast<T>(xs: seq<T>, x: T)
    requires x in xs
    ensures Dedupe(xs + [x]) == Dedupe(xs)
  {
    assert (xs + [x])[..|xs|] == xs;
  }

  lemma ObserveScope(seen: seq<string>, scope: string)
    requires AllTokens(seen)
    ensures var before := Join(Dedupe(seen));
            (if scope == "" then before else Join(Dedupe(Fields(before) + Fields(scope))))
                == Join(Dedupe(seen + Fields(scope)))
  {
    DedupeTokens(seen);
    FieldsJoin(Dedupe(seen));
    DedupeAbsorb(seen, Fields(scope));
    if scope == "" { assert seen + Fields(scope) == seen; }
  }

  lemma ObserveURI(seen: seq<string>, uri: string)
    ensures var before := Dedupe(seen);
            (if uri == "" then before else Dedupe(before + [uri])) == Dedupe(seen + if uri == "" then [] else [uri])
  {
    DedupeAbsorb(seen, [uri]);
    assert seen + [] == seen;
  }

  /** The incremental fold equals the one-shot computation over the whole history. */
  lemma {:induction false} AutomaticEqualsHistory(clientID: string, issuedAt: int, history: seq<Observation>)
    ensures ObserveAll(clientID, issuedAt, history) == FromHistory(clientID, issuedAt, history)
  {
    if history != [] {
      var front, o := history[..|history| - 1], history[|history| - 1];
      AutomaticEqualsHistory(clientID, issuedAt, front);
      ScopesSeenTokens(front);
      ObserveURI(URIsSeen(front), o.redirectURI);
      ObserveScope(ScopesSeen(front), o.scope);
      var granted, asked := "offline_access" in ScopesSeen(front), HasScope(o.scope, "offline_access");
      ObserveGrants(granted, asked);
      assert "offline_access" in ScopesSeen(history) <==> granted || asked;
      assert [AuthorizationCode] + [RefreshToken] == [AuthorizationCode, RefreshToken];
      assert [AuthorizationCode] + [] == [AuthorizationCode];
      assert FromHistory(clientID, issuedAt, history).grantTypes
          == if granted || asked then [AuthorizationCode, RefreshToken] else [AuthorizationCode];
      assert FromHistory(clientID, issuedAt, front).grantTypes
          == if granted then [AuthorizationCode, RefreshToken] else [AuthorizationCode];
    } else {
      assert Dedupe(URIsSeen(history)) == [] && Join(Dedupe(ScopesSeen(history))) == "";
    }
  }

  ghost predicate SameObservations(a: seq<Observation>, b: seq<Observation>) {
    forall o :: o in a <==> o in b
  }

  lemma {:induction false} URISeenExactly(history: seq<Observation>, u: string)
    ensures u in URIsSeen(history) <==> u != "" && exists o :: o in history && o.redirectURI == u
  {
    if history != [] {
      var front, last := history[..|history| - 1], history[|history| - 1];
      assert history == front + [last];
      URISeenExactly(front, u);
    }
  }

  lemma {:induction false} ScopeSeenExactly(history: seq<Observation>, t: string)
    ensures t in ScopesSeen(history) <==> exists o :: o in history && HasScope(o.scope, t)
  {
    if history != [] {
      var front, last := history[..|history| - 1], history[|history| - 1];
      assert history == front + [last];
      ScopeSeenExactly(front, t);
    }
  }

  /** What an automatic registration ends up containing: exactly what was observed, with
      refresh_token granted if and only if offline_access is in the recorded scope. */
  lemma AutomaticContents(clientID: string, issuedAt: int, history: seq<Observation>)
    ensures var reg := ObserveAll(clientID, issuedAt, history);
            && NoDup(reg.redirectURIs) && NoDup(Fields(reg.scope))
            && (forall u :: u in reg.redirectURIs <==> u != "" && exists o :: o in history && o.redirectURI == u)
            && (forall t :: HasScope(reg.scope, t) <==> exists o :: o in history && HasScope(o.scope, t))
            && (RefreshToken in reg.grantTypes <==> HasScope(reg.scope, "offline_access"))
  {
    AutomaticEqualsHistory(clientID, issuedAt, history);
    var reg := ObserveAll(clientID, issuedAt, history);
    ScopesSeenTokens(history);
    DedupeTokens(ScopesSeen(history));
    FieldsJoin(Dedupe(ScopesSeen(history)));
    DedupeNoDup(URIsSeen(history)); DedupeNoDup(ScopesSeen(history));
    forall u ensures u in reg.redirectURIs <==> u != "" && exists o :: o in history && o.redirectURI == u {
      DedupeElements(URIsSeen(history), u); URISeenExactly(history, u);
    }
    forall t ensures HasScope(reg.scope, t) <==> t in ScopesSeen(history) { DedupeElements(ScopesSeen(history), t); }
    forall t ensures HasScope(reg.scope, t) <==> exists o :: o in history && HasScope(o.scope, t) {
      ScopeSeenExactly(history, t);
    }
  }

  /** The order in which requests arrive does not change what ends up registered. */
  lemma AutomaticOrderIrrelevant(clientID: string, issuedAt: int, a: seq<Observation>, b: seq<Observation>)
    requires SameObservations(a, b)
    ensures var ra, rb := ObserveAll(clientID, issuedAt, a), ObserveAll(clientID, issuedAt, b);
            && (forall u :: u in ra.redirectURIs <==> u in rb.redirectURIs)
            && (forall t :: HasScope(ra.scope, t) <==> HasScope(rb.scope, t))
            && (forall g :: g in ra.grantTypes <==> g in rb.grantTypes)
  {
    AutomaticContents(clientID, issuedAt, a);
    AutomaticContents(clientID, issuedAt, b);
    AutomaticEqualsHistory(clientID, issuedAt, a);
    AutomaticEqualsHistory(clientID, issuedAt, b);
  }

  /** Later requests only append: earlier entries keep their places. */
  lemma {:induction false} AutomaticGrows(clientID: string, issuedAt: int, earlier: seq<Observation>,
                                          later: seq<Observation>)
    ensures var r0, r1 := ObserveAll(clientID, issuedAt, earlier), ObserveAll(clientID, issuedAt, earlier + later);
            && r0.redirectURIs <= r1.redirectURIs
            && Fields(r0.scope) <= Fields(r1.scope)
            && r0.grantTypes <= r1.grantTypes
    decreases |later|
  {
    if later == [] {
      assert earlier + later == earlier;
    } else {
      var mid := later[..|later| - 1];
      assert (earlier + later)[..|earlier + later| - 1] == earlier + mid;
      AutomaticGrows(clientID, issuedAt, earlier, mid);
      var h := earlier + mid;
      var o := later[|later| - 1];
      AutomaticEqualsHistory(clientID, issuedAt, h);
      AutomaticEqualsHistory(clientID, issuedAt, earlier + later);
      DedupePrefix(URIsSeen(h), [o.redirectURI]);
      DedupePrefix(ScopesSeen(h), Fields(o.scope));
      assert Fields(ObserveAll(clientID, issuedAt, h).scope) == Dedupe(ScopesSeen(h)) by {
        ScopesSeenTokens(h); DedupeTokens(ScopesSeen(h)); FieldsJoin(Dedupe(ScopesSeen(h)));
      }
      assert Fields(ObserveAll(clientID, issuedAt, earlier + later).scope) == Dedupe(ScopesSeen(earlier + later)) by {
        ScopesSeenTokens(earlier + later); DedupeTokens(ScopesSeen(earlier + later));
        FieldsJoin(Dedupe(ScopesSeen(earlier + later)));
      }
    }
  }
}
