// The entities of the identity provider and the look-ups and updates on one
// login session.
module Idp {
  import opened Lists
  import opened Scopes
  import opened Claims
  import opened Registration

  // ---------------------------------------------------------------- entities

  datatype PkceMethod = NoMethod | Plain | S256 | OtherMethod(name: string)

  datatype ClientSession = ClientSession(
    sessionID: string,
    clientID: string,
    advertisedSub: string,
    scope: string,
    redirectURI: string,
    challenge: string,
    challengeMethod: PkceMethod,
    idTokenClaims: Option<ClaimSet>,
    accessTokenClaims: Option<ClaimSet>,
    refreshTokenClaims: Option<ClaimSet>)

  datatype Session = Session(username: string, sub: string, cookieID: string, clientSessions: seq<ClientSession>)

  datatype AuthContext = AuthContext(
    scope: string,
    clientID: string,
    redirectURI: string,
    state: string,
    nonce: string,
    challenge: string,
    challengeMethod: PkceMethod,
    username: string,
    sub: string)

  const ZERO_CONTEXT := AuthContext("", "", "", "", "", "", NoMethod, "", "")

  datatype CodeMeta = CodeMeta(cookieID: string, clientID: string, nonce: string)

  datatype KeyKind = Rsa | Ec | OtherKey

  datatype Jwk = Jwk(kid: string, use: string, alg: string, kind: KeyKind, key: string)

  datatype KeySource = Inline(jwks: string) | Fetched(uri: string)

  datatype KeySet = KeySet(source: KeySource, keys: seq<Jwk>)

  datatype MetadataEntry = MetadataEntry(reg: Registration, keys: Option<KeySet>, expiresAt: int)

  /** Deployment settings, and the library functions the server relies on. */
  datatype Config = Config(
    externalURL: string,
    extraAudiences: seq<string>,
    accessLifetime: int,
    refreshLifetime: int,
    metadataTTL: int,
    pairwise: bool,
    mac: string -> string,                 // base64url of HMAC-SHA256 under the pairwise salt
    sector: (string, string) -> string,    // sectorIdentifier(redirectURI, clientID)
    s256: string -> string,                // base64url of SHA-256
    isURL: string -> bool,                 // is a Client Identifier URL
    validURI: string -> bool,              // absolute and without a fragment
    parseKeys: string -> seq<Jwk>,         // [] when the JWK set does not parse
    displayName: string -> string,
    picture: string -> string,
    email: string -> string)

  /** computeAdvertisedSub */
  function AdvertisedSub(cfg: Config, sub: string, sector: string): string {
    if cfg.pairwise then cfg.mac(sector + ['\0'] + sub) else sub
  }

  // ---------------------------------------------------------------- one session's clients

  /** Position of a client's entry, or the length of the list. */
  function FindClient(css: seq<ClientSession>, clientID: string): (i: nat)
    ensures i <= |css|
    ensures i < |css| ==> css[i].clientID == clientID
    ensures forall j :: 0 <= j < i ==> css[j].clientID != clientID
  {
    if css == [] then 0 else if css[0].clientID == clientID then 0 else 1 + FindClient(css[1..], clientID)
  }

  /** Position of a client session ID, or the length of the list. */
  function FindCsid(css: seq<ClientSession>, csid: string): (i: nat)
    ensures i <= |css|
    ensures i < |css| ==> css[i].sessionID == csid
    ensures forall j :: 0 <= j < i ==> css[j].sessionID != csid
  {
    if css == [] then 0 else if css[0].sessionID == csid then 0 else 1 + FindCsid(css[1..], csid)
  }

  function Upsert(css: seq<ClientSession>, cs: ClientSession): seq<ClientSession> {
    var i := FindClient(css, cs.clientID);
    if i < |css| then css[i := cs] else css + [cs]
  }

  /** updateClientSessionPKCE followed by updateClientSessionRedirectURI */
  function Touch(sess: Session, clientID: string, challenge: string, challengeMethod: PkceMethod,
                 redirectURI: string): Session {
    var i := FindClient(sess.clientSessions, clientID);
    if i < |sess.clientSessions|
    then sess.(clientSessions := sess.clientSessions[i :=
           sess.clientSessions[i].(challenge := challenge, challengeMethod := challengeMethod,
               redirectURI := redirectURI)])
    else sess
  }

  /** A client's entry in a session. */
  function Entry(css: seq<ClientSession>, clientID: string): Option<ClientSession> {
    var i := FindClient(css, clientID);
    if i < |css| then Some(css[i]) else None
  }

  lemma FindClientIs(css: seq<ClientSession>, clientID: string, i: nat)
    requires i < |css| && css[i].clientID == clientID && forall j :: 0 <= j < i ==> css[j].clientID != clientID
    ensures FindClient(css, clientID) == i
  {}

  lemma FindClientNone(css: seq<ClientSession>, clientID: string)
    requires forall j :: 0 <= j < |css| ==> css[j].clientID != clientID
    ensures FindClient(css, clientID) == |css|
  {}

  /** Reading after writing: an upsert shows in its own client's entry and in no other. */
  lemma EntryAfterUpsert(css: seq<ClientSession>, cs: ClientSession, clientID: string)
    ensures Entry(Upsert(css, cs), clientID) == if clientID == cs.clientID then Some(cs) else Entry(css, clientID)
  {
    var i, k, out := FindClient(css, cs.clientID), FindClient(css, clientID), Upsert(css, cs);
    if clientID == cs.clientID { FindClientIs(out, clientID, i); }
    else if k < |css| { FindClientIs(out, clientID, k); }
    else { FindClientNone(out, clientID); }
  }

  /** An authorize request shows in its client's entry, if there is one, and nowhere else. */
  lemma EntryAfterTouch(sess: Session, clientID: string, challenge: string, how: PkceMethod, uri: string, other: string)
    ensures var before := Entry(sess.clientSessions, other);
            Entry(Touch(sess, clientID, challenge, how, uri).clientSessions, other)
            == if other == clientID && before.Some?
               then Some(before.value.(challenge := challenge, challengeMethod := how, redirectURI := uri)) else before
  {
    var css, out := sess.clientSessions, Touch(sess, clientID, challenge, how, uri).clientSessions;
    var k := FindClient(css, other);
    if k < |css| { FindClientIs(out, other, k); } else { FindClientNone(out, other); }
  }

  ghost predicate DistinctClients(css: seq<ClientSession>) {
    forall i, j :: 0 <= i < j < |css| ==> css[i].clientID != css[j].clientID
  }

  method GetClientSessionByID(sess: Session, clientID: string) returns (i: nat)
    ensures i == FindClient(sess.clientSessions, clientID)
  {
    i := 0;
    while i < |sess.clientSessions|
      invariant i <= |sess.clientSessions|
      invariant forall j :: 0 <= j < i ==> sess.clientSessions[j].clientID != clientID
    {
      if sess.clientSessions[i].clientID == clientID { return; }
      i := i + 1;
    }
  }

  method UpsertClientSession(sessions: seq<ClientSession>, cs: ClientSession) returns (out: seq<ClientSession>)
    ensures out == Upsert(sessions, cs)
  {
    for i := 0 to |sessions|
      invariant forall j :: 0 <= j < i ==> sessions[j].clientID != cs.clientID
    {
      if sessions[i].clientID == cs.clientID { return sessions[i := cs]; }
    }
    return sessions + [cs];
  }

  method UpdateClientSession(sess: Session, clientID: string, challenge: string, challengeMethod: PkceMethod,
                             redirectURI: string)
    returns (out: Session)
    ensures out == Touch(sess, clientID, challenge, challengeMethod, redirectURI)
  {
    for i := 0 to |sess.clientSessions|
      invariant forall j :: 0 <= j < i ==> sess.clientSessions[j].clientID != clientID
    {
      if sess.clientSessions[i].clientID == clientID {
        var cs := sess.clientSessions[i].(challenge := challenge, challengeMethod := challengeMethod);
        cs := cs.(redirectURI := redirectURI);
        return sess.(clientSessions := sess.clientSessions[i := cs]);
      }
    }
    return sess;
  }

  // ---------------------------------------------------------------- sessions by subject, hint and csid

  /** The possible answers of the map scans: Go visits a map in no fixed order, so a
      scan may return any matching session, and none only if none matches. */
  ghost predicate FoundBySub(sessions: map<string, Session>, sub: string, found: Option<string>) {
    match found
    case Some(k) => k in sessions && sessions[k].sub == sub
    case None => forall k :: k in sessions ==> sessions[k].sub != sub
  }

  predicate HasAdvertisedSub(sess: Session, sub: string) {
    exists i :: 0 <= i < |sess.clientSessions| && sess.clientSessions[i].advertisedSub == sub
  }

  ghost predicate FoundByHint(sessions: map<string, Session>, sub: string, found: Option<string>) {
    match found
    case Some(k) => k in sessions && HasAdvertisedSub(sessions[k], sub)
    case None => forall k :: k in sessions ==> !HasAdvertisedSub(sessions[k], sub)
  }

  predicate HasCsid(sess: Session, csid: string) {
    FindCsid(sess.clientSessions, csid) < |sess.clientSessions|
  }

  ghost predicate FoundByCsid(sessions: map<string, Session>, csid: string, found: Option<string>) {
    match found
    case Some(k) => csid != "" && k in sessions && HasCsid(sessions[k], csid)
    case None => csid != "" ==> forall k :: k in sessions ==> !HasCsid(sessions[k], csid)
  }

  method GetSessionBySub(sessions: map<string, Session>, sub: string) returns (found: Option<string>)
    ensures FoundBySub(sessions, sub, found)
  {
    var todo := sessions.Keys;
    while todo != {}
      invariant todo <= sessions.Keys
      invariant forall k :: k in sessions && k !in todo ==> sessions[k].sub != sub
      decreases |todo|
    {
      var k :| k in todo;
      if sessions[k].sub == sub { return Some(k); }
      todo := todo - {k};
    }
    return None;
  }

  method GetSessionByAdvertisedSub(sessions: map<string, Session>, sub: string) returns (found: Option<string>)
    ensures FoundByHint(sessions, sub, found)
  {
    var todo := sessions.Keys;
    while todo != {}
      invariant todo <= sessions.Keys
      invariant forall k :: k in sessions && k !in todo ==> !HasAdvertisedSub(sessions[k], sub)
      decreases |todo|
    {
      var k :| k in todo;
      for i := 0 to |sessions[k].clientSessions|
        invariant forall j :: 0 <= j < i ==> sessions[k].clientSessions[j].advertisedSub != sub
      {
        if sessions[k].clientSessions[i].advertisedSub == sub { return Some(k); }
      }
      todo := todo - {k};
    }
    return None;
  }

  method GetSessionByClientSessionID(sessions: map<string, Session>, csid: string) returns (found: Option<string>)
    ensures FoundByCsid(sessions, csid, found)
  {
    if csid == "" { return None; }
    var todo := sessions.Keys;
    while todo != {}
      invariant todo <= sessions.Keys
      invariant forall k :: k in sessions && k !in todo ==> !HasCsid(sessions[k], csid)
      decreases |todo|
    {
      var k :| k in todo;
      for i := 0 to |sessions[k].clientSessions|
        invariant forall j :: 0 <= j < i ==> sessions[k].clientSessions[j].sessionID != csid
      {
        if sessions[k].clientSessions[i].sessionID == csid { return Some(k); }
      }
      todo := todo - {k};
    }
    return None;
  }

  // ---------------------------------------------------------------- subjects

  predicate NulFree(s: string) { '\0' !in s }

  ghost predicate MacInjective(cfg: Config) {
    forall a, b :: cfg.mac(a) == cfg.mac(b) ==> a == b
  }

  const SUBJECT_PREFIX := "internal|"

  function InternalSub(username: string): string { SUBJECT_PREFIX + username }

  /** What can stand in a session as its subject: a user's, or none when a request was approved
      that nobody had logged in to. */
  predicate IsSubject(sub: string) { sub == "" || SUBJECT_PREFIX <= sub }

  /** One sector begins like the other with the start of a subject behind it. */
  predicate Overlap(sector: string, sector': string) {
    sector + ['\0'] + SUBJECT_PREFIX <= sector' || sector' + ['\0'] + SUBJECT_PREFIX <= sector
  }

  lemma Cut(sector: string, sub: string, sector': string, sub': string)
    requires sector + ['\0'] + sub == sector' + ['\0'] + sub' && |sector| <= |sector'|
    ensures sector == sector'[..|sector|] && sub == (sector' + ['\0'] + sub')[|sector| + 1..]
    ensures |sector| == |sector'| ==> sub == sub'
  {
    var m, m' := sector + ['\0'] + sub, sector' + ['\0'] + sub';
    assert m[..|sector|] == sector && m'[..|sector|] == sector'[..|sector|];
    assert m[|sector| + 1..] == sub;
    if |sector| == |sector'| { assert m'[|sector'| + 1..] == sub'; }
  }

  /** If two subjects hash the same input from sectors of different length, the sectors overlap. */
  lemma SameInputOverlaps(sub: string, sector: string, sub': string, sector': string)
    requires IsSubject(sub) && |sector| < |sector'| && sector + ['\0'] + sub == sector' + ['\0'] + sub'
    ensures Overlap(sector, sector')
  {
    var m, n := sector' + ['\0'] + sub', |sector|;
    Cut(sector, sub, sector', sub');
    assert m[|sector'|] == '\0' && m[|sector'|] == sub[|sector'| - n - 1];
    assert SUBJECT_PREFIX <= sub;
    assert forall i :: 0 <= i < 9 ==> sub[i] == SUBJECT_PREFIX[i] && sub[i] != '\0';
    assert n + 10 <= |sector'|;
    assert m[n] == '\0' && m[n + 1..n + 10] == sub[..9] == SUBJECT_PREFIX;
    assert sector'[..n + 10] == m[..n + 10] == sector + ['\0'] + SUBJECT_PREFIX;
  }

  /** Two users never share an advertised subject - in public mode from any sectors, in pairwise
      mode from sectors that do not overlap. */
  lemma AdvertisedSubInjective(cfg: Config, sub: string, sector: string, sub': string, sector': string)
    requires IsSubject(sub) && IsSubject(sub')
    requires cfg.pairwise ==> MacInjective(cfg) && !Overlap(sector, sector')
    requires AdvertisedSub(cfg, sub, sector) == AdvertisedSub(cfg, sub', sector')
    ensures sub == sub'
  {
    if cfg.pairwise {
      if |sector| < |sector'| { SameInputOverlaps(sub, sector, sub', sector'); }
      else if |sector'| < |sector| { SameInputOverlaps(sub', sector', sub, sector); }
      else { Cut(sector, sub, sector', sub'); }
    }
  }

  ghost predicate SharedByUsers(cfg: Config, u: string, sector: string, u': string, sector': string) {
    u != u' && AdvertisedSub(cfg, InternalSub(u), sector) == AdvertisedSub(cfg, InternalSub(u'), sector')
  }

  /** And only from those: from two sectors some two users share a pairwise subject if and only if
      the sectors overlap, which a caller can see before hashing anything. */
  lemma AdvertisedSubSharedExactly(cfg: Config, sector: string, sector': string)
    requires cfg.pairwise && MacInjective(cfg)
    ensures (exists u, u' :: SharedByUsers(cfg, u, sector, u', sector')) <==> Overlap(sector, sector')
  {
    if u, u' :| SharedByUsers(cfg, u, sector, u', sector') {
      assert InternalSub(u)[9..] == u && InternalSub(u')[9..] == u';
      if !Overlap(sector, sector') { AdvertisedSubInjective(cfg, InternalSub(u), sector, InternalSub(u'), sector'); }
    }
    if Overlap(sector, sector') {
      if sector + ['\0'] + SUBJECT_PREFIX <= sector' {
        SharedIfExtended(cfg, sector, sector');
      } else {
        SharedIfExtended(cfg, sector', sector);
        var u, u' :| SharedByUsers(cfg, u, sector', u', sector);
        assert SharedByUsers(cfg, u', sector, u, sector');
      }
    }
  }

  lemma SharedIfExtended(cfg: Config, sector: string, sector': string)
    requires cfg.pairwise && sector + ['\0'] + SUBJECT_PREFIX <= sector'
    ensures exists u, u' :: SharedByUsers(cfg, u, sector, u', sector')
  {
    var head := sector + ['\0'] + SUBJECT_PREFIX;
    var u := sector'[|head|..] + ['\0'] + SUBJECT_PREFIX;
    assert sector' == head + sector'[|head|..];
    assert sector + ['\0'] + InternalSub(u) == sector' + ['\0'] + InternalSub("");
    assert SharedByUsers(cfg, u, sector, "", sector');
  }

  /** One such pair: a NUL in a sector traded for one in a username. */
  lemma AdvertisedSubCollision(cfg: Config)
    requires cfg.pairwise
    ensures AdvertisedSub(cfg, "internal|x\0internal|y", "rp") == AdvertisedSub(cfg, "internal|y", "rp\0internal|x")
  {
    assert "rp" + ['\0'] + "internal|x\0internal|y" == "rp\0internal|x" + ['\0'] + "internal|y";
  }
}
