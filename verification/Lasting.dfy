// What keeps working: a client session id is found until its login session is logged out,
// and a code redeems for the entry it was issued under.
module Lasting {
  import opened Lists
  import opened Scopes
  import opened Claims
  import opened Registration
  import opened Idp
  import opened Documents
  import opened Replay
  import opened IdpState
  import opened Machine
  import opened Invariants
  import opened Steps
  import opened TokenSteps
  import opened Frames
  import opened Theorems

  /** No csid of a live session is ever lost. */
  ghost predicate Kept(w: World) {
    forall c :: c in w.csids && w.csids[c].cookie in w.srv.sessions ==> HasCsid(w.srv.sessions[w.csids[c].cookie], c)
  }

  ghost predicate Carries(css: seq<ClientSession>, c: string) {
    exists i :: 0 <= i < |css| && css[i].sessionID == c
  }

  lemma HasIsCarries(sess: Session, c: string)
    ensures HasCsid(sess, c) <==> Carries(sess.clientSessions, c)
  {}

  /** Every csid a session has, the other has too. */
  ghost predicate CarriesOver(sess: Session, sess': Session) {
    forall c :: Carries(sess.clientSessions, c) ==> Carries(sess'.clientSessions, c)
  }

  lemma SameIds(sess: Session, sess': Session)
    requires |sess.clientSessions| == |sess'.clientSessions|
    requires forall i :: 0 <= i < |sess.clientSessions| ==>
               sess.clientSessions[i].sessionID == sess'.clientSessions[i].sessionID
    ensures CarriesOver(sess, sess')
  {
    forall c | Carries(sess.clientSessions, c) ensures Carries(sess'.clientSessions, c) {
      var i :| 0 <= i < |sess.clientSessions| && sess.clientSessions[i].sessionID == c;
      assert sess'.clientSessions[i].sessionID == c;
    }
  }

  lemma KeptReplaced(w: World, w': World, key: string)
    requires Kept(w) && w'.csids == w.csids && key in w.srv.sessions && key in w'.srv.sessions
    requires w'.srv.sessions == w.srv.sessions[key := w'.srv.sessions[key]]
               && CarriesOver(w.srv.sessions[key], w'.srv.sessions[key])
    ensures Kept(w')
  {
    hide HasCsid, Carries;
    forall c | c in w'.csids && w'.csids[c].cookie in w'.srv.sessions
        ensures HasCsid(w'.srv.sessions[w'.csids[c].cookie], c) {
      HasIsCarries(w.srv.sessions[w.csids[c].cookie], c);
      HasIsCarries(w'.srv.sessions[w.csids[c].cookie], c);
    }
  }

  lemma KeptSame(w: World, w': World)
    requires Kept(w) && SameSessions(w, w')
    ensures Kept(w')
  {}

  lemma KeptMoves(w: World, t: nat)
    requires Kept(w)
    ensures Kept(End(w, t)) && forall pc :: Kept(Goto(w, t, pc))
  {
    hide HasCsid;
  }

  // ---------------------------------------------------------------- the steps on sessions

  lemma TouchKept(w: World, t: nat, key: string, req: Request)
    requires Kept(w) && key in w.srv.sessions
    ensures var s' := TouchSession(w.srv, key, req.clientID, req.challenge, req.challengeMethod, req.redirectURI);
            Kept(Goto(w.(srv := s'), t, IssuingCode(s'.sessions[key], req.clientID, req.state, req.nonce)))
  {
    hide HasCsid, Kept, CarriesOver, Goto;
    var s' := TouchSession(w.srv, key, req.clientID, req.challenge, req.challengeMethod, req.redirectURI);
    SameIds(w.srv.sessions[key], s'.sessions[key]);
    KeptReplaced(w, w.(srv := s'), key);
    KeptMoves(w.(srv := s'), t);
  }

  lemma LookUpKept(w: World, t: nat)
    requires Kept(w)
    ensures Kept(LookUpSession(w, t))
  {
    hide Kept, TouchSession, Goto, End, StringClaim;
    KeptMoves(w, t);
    if t in w.threads && w.threads[t].LookingUpSession? {
      var req := w.threads[t].req;
      RequiredKept(w, t, req);
      if req.cookie in w.srv.sessions { TouchKept(w, t, req.cookie, req); }
    }
  }

  lemma RequiredKept(w: World, t: nat, req: Request)
    requires Kept(w)
    ensures Kept(LoginRequired(w, t, req))
  {
    hide HasCsid;
  }

  lemma LookUpHintKept(w: World, t: nat, found: Option<string>)
    requires Kept(w)
    ensures Kept(LookUpHint(w, t, found))
  {
    hide Kept, TouchSession, Goto, End;
    if t in w.threads && w.threads[t].LookingUpHint? && FoundByHint(w.srv.sessions, w.threads[t].hintSub, found) {
      var req := w.threads[t].req;
      RequiredKept(w, t, req);
      if found.Some? { TouchKept(w, t, found.value, req); }
    }
  }

  lemma GrantKept(cfg: Config, w: World, t: nat, origin: Origin, key: string, i: nat, nonce: string, creds: Credentials)
    requires Kept(w) && key in w.srv.sessions && i < |w.srv.sessions[key].clientSessions|
    ensures Kept(GrantTo(cfg, w, t, origin, key, i, nonce, creds))
  {
    hide HasCsid, Kept, CarriesOver, Goto, GrantOf;
    var sess := w.srv.sessions[key];
    var sess' := sess.(clientSessions := sess.clientSessions[i := StampCsid(sess.clientSessions[i])]);
    var g := GrantOf(cfg, key, sess, sess.clientSessions[i], nonce);
    var w1 := w.(srv := StampSession(w.srv, key, i), granted := w.granted + [g]);
    SameIds(sess, sess');
    KeptReplaced(w, w1, key);
    KeptMoves(w1, t);
  }

  lemma CheckCodeKept(cfg: Config, w: World, t: nat)
    requires Kept(w)
    ensures Kept(CheckCode(cfg, w, t))
  {
    hide Kept, GrantTo, PkceAccepts, End;
    KeptMoves(w, t);
    if t in w.threads && w.threads[t].CodeTaken? && w.threads[t].meta.cookieID in w.srv.sessions {
      var pc := w.threads[t];
      var sess := w.srv.sessions[pc.meta.cookieID];
      var i := FindClient(sess.clientSessions, pc.meta.clientID);
      if i < |sess.clientSessions| {
        var cs := sess.clientSessions[i];
        GrantKept(cfg, w, t, FromCode(pc.code, cs.challenge, cs.challengeMethod, pc.verifier),
                  pc.meta.cookieID, i, pc.meta.nonce, pc.creds);
      }
    }
  }

  lemma PresentTokenKept(cfg: Config, w: World, t: nat, token: Token, creds: Credentials, found: Option<string>)
    requires Kept(w)
    ensures Kept(PresentToken(cfg, w, t, token, creds, found))
  {
    hide Kept, GrantTo;
    var csid := StringClaim(token.claims, Csid);
    if FoundByCsid(w.srv.sessions, csid, found) && found.Some? {
      GrantKept(cfg, w, t, FromToken(token), found.value, FindCsid(w.srv.sessions[found.value].clientSessions, csid),
          "", creds);
    }
  }

  lemma RespondKept(cfg: Config, w: World, t: nat)
    requires Kept(w)
    ensures Kept(Respond(cfg, w, t))
  {
    hide HasCsid, Kept, CarriesOver, IssueFor, TokensOf, End;
    if t in w.threads && w.threads[t].Responding? {
      var pc := w.threads[t];
      var g := pc.ticket.g;
      var issued := IssueFor(cfg, g, w.now);
      var w1 := w.(srv := StoreIssued(w.srv, g, issued), minted := w.minted + TokensOf(g, issued),
                   responses := w.responses + [Response(pc.ticket, pc.basis, pc.proof, w.now)]);
      if g.cookieID in w.srv.sessions && FindCsid(w.srv.sessions[g.cookieID].clientSessions,
          g.csid) < |w.srv.sessions[g.cookieID].clientSessions| {
        SameIds(w.srv.sessions[g.cookieID], w1.srv.sessions[g.cookieID]);
        KeptReplaced(w, w1, g.cookieID);
      } else {
        KeptSame(w, w1);
      }
      KeptMoves(w1, t);
    }
  }

  lemma LogoutKept(w: World, cookie: string)
    requires Kept(w)
    ensures Kept(Logout(w, cookie))
  {
    hide HasCsid;
  }

  /** An approval keeps every csid of its session, its own client's included. */
  lemma ApprovedCarries(cfg: Config, w: World, ctx: AuthContext, found: Option<string>, cookie: string, csid: string,
                        idc: Option<ClaimSet>, acc: Option<ClaimSet>)
    requires Inv(cfg, w) && FoundBySub(w.srv.sessions, ctx.sub, found)
    ensures var base := BaseSession(w.srv, ctx, found, cookie);
            var sess := ApprovedSession(cfg, w.srv, ctx, found, cookie, csid, idc, acc);
            CarriesOver(base, sess) && Carries(sess.clientSessions, CsidFor(base, ctx.clientID, csid))
  {
    hide Inv, AdvertisedSub, Admitted, SubjectKnown;
    var base := BaseSession(w.srv, ctx, found, cookie);
    var used := CsidFor(base, ctx.clientID, csid);
    var sess := ApprovedSession(cfg, w.srv, ctx, found, cookie, csid, idc, acc);
    var i := FindClient(base.clientSessions, ctx.clientID);
    assert sess.clientSessions[i].sessionID == used;
    if found.Some? && i < |base.clientSessions| {
      SessionAt(cfg, w, found.value);
      assert ClientSessionOk(cfg, w, base.cookieID, base.sub, base.clientSessions[i]);
      SameIds(base, sess);
    } else {
      forall c | Carries(base.clientSessions, c) ensures Carries(sess.clientSessions, c) {
        var j :| 0 <= j < |base.clientSessions| && base.clientSessions[j].sessionID == c;
        assert sess.clientSessions[j].sessionID == c;
      }
    }
  }

  lemma CommittedKept(cfg: Config, w: World, reqID: string, ctx: AuthContext, idc: Option<ClaimSet>,
                      acc: Option<ClaimSet>, found: Option<string>, cookie: string, csid: string)
    requires Inv(cfg, w) && Kept(w) && FoundBySub(w.srv.sessions, ctx.sub, found) && cookie !in w.seen
               && csid !in w.seen
    ensures Kept(Committed(cfg, w, reqID, ctx, idc, acc, found, cookie, csid))
  {
    hide Inv, HasCsid, Carries, ApprovedSession, CsidFor;
    var w' := Committed(cfg, w, reqID, ctx, idc, acc, found, cookie, csid);
    var sess := ApprovedSession(cfg, w.srv, ctx, found, cookie, csid, idc, acc);
    ApprovedCarries(cfg, w, ctx, found, cookie, csid, idc, acc);
    ApprovedShape(cfg, w, ctx, found, cookie, csid, idc, acc);
    IdsSeen(cfg, w, cookie);
    IdsSeen(cfg, w, csid);
    OwnedNow(cfg, w);
    if found.Some? { SessionAt(cfg, w, found.value); }
    forall c | c in w'.csids && w'.csids[c].cookie in w'.srv.sessions
        ensures HasCsid(w'.srv.sessions[w'.csids[c].cookie], c) {
      HasIsCarries(w'.srv.sessions[w'.csids[c].cookie], c);
      if c in w.csids && w.csids[c].cookie in w.srv.sessions { HasIsCarries(w.srv.sessions[w.csids[c].cookie], c); }
    }
  }

  lemma CommitKept(cfg: Config, w: World, t: nat, found: Option<string>, cookie: string, csid: string)
    requires Inv(cfg, w) && Kept(w)
    ensures Kept(Commit(cfg, w, t, found, cookie, csid))
  {
    hide Inv, Kept, Committed, ApprovedSession, Goto;
    if t in w.threads && w.threads[t].Approving? && Unused(cfg, w, cookie) && Unused(cfg, w, csid) && cookie != csid
       && FoundBySub(w.srv.sessions, w.threads[t].ctx.sub, found) {
      var pc := w.threads[t];
      CommittedKept(cfg, w, pc.reqID, pc.ctx, pc.idc, pc.acc, found, cookie, csid);
      KeptMoves(Committed(cfg, w, pc.reqID, pc.ctx, pc.idc, pc.acc, found, cookie, csid), t);
    }
  }

  lemma StepKept(cfg: Config, w: World, e: Event)
    requires Inv(cfg, w) && Kept(w)
    ensures Kept(Apply(cfg, w, e))
  {
    hide Inv, Kept, LookUpSession, LookUpHint, Commit, Logout, CheckCode, PresentToken, Respond;
    if AwayFromSessions(e) {
      AwaySame(cfg, w, e);
      KeptSame(w, Apply(cfg, w, e));
    } else {
      match e
      case ELookUpSession(t) => LookUpKept(w, t);
      case ELookUpHint(t, found) => LookUpHintKept(w, t, found);
      case ECommit(t, found, cookie, csid) => CommitKept(cfg, w, t, found, cookie, csid);
      case ELogout(cookie) => LogoutKept(w, cookie);
      case ECheckCode(t) => CheckCodeKept(cfg, w, t);
      case EPresentToken(t, token, creds, found) => PresentTokenKept(cfg, w, t, token, creds, found);
      case ERespond(t) => RespondKept(cfg, w, t);
    }
  }

  lemma {:induction false} RunKept(cfg: Config, start: int, events: seq<Event>)
    requires UrlsSane(cfg) && SECOND <= start
    ensures Kept(Run(cfg, Start(start), events)) && Inv(cfg, Run(cfg, Start(start), events))
  {
    hide Inv, UrlsSane, Apply, Kept;
    if events == [] {
      StartOk(cfg, start);
      StartKept(start);
    } else {
      var front := events[..|events| - 1];
      RunKept(cfg, start, front);
      StepKept(cfg, Run(cfg, Start(start), front), events[|events| - 1]);
      StepKeeps(cfg, Run(cfg, Start(start), front), events[|events| - 1]);
    }
  }

  lemma StartKept(start: int)
    ensures Kept(Start(start))
  {}

  // ---------------------------------------------------------------- refresh tokens and codes

  /** A refresh or access token is found in its own login session until that is logged out, and
      nowhere afterwards, whatever else has happened and whatever order sessions are visited in. */
  lemma TokenLastsUntilLogout(cfg: Config, w: World, token: Token, found: Option<string>)
    requires UrlsSane(cfg) && Reachable(cfg, w) && token in w.minted && !token.kind.IDKind?
    requires FoundByCsid(w.srv.sessions, StringClaim(token.claims, Csid), found)
    ensures token.csid in w.csids
    ensures var owner := w.csids[token.csid].cookie;
            found == if owner in w.srv.sessions then Some(owner) else None
  {
    hide Inv, UrlsSane, Run;
    var start: int, events: seq<Event> :| SECOND <= start && w == Run(cfg, Start(start), events);
    RunKept(cfg, start, events);
    TokensNameTheServer(cfg, w, token);
    if w.csids[token.csid].cookie in w.srv.sessions { CsidNotEmpty(cfg, w, token.csid); }
    if found.Some? {
      CsidOwned(cfg, w, found.value, FindCsid(w.srv.sessions[found.value].clientSessions, token.csid));
    }
  }

  lemma CsidNotEmpty(cfg: Config, w: World, csid: string)
    requires Inv(cfg, w) && Kept(w) && csid in w.csids && w.csids[csid].cookie in w.srv.sessions
    ensures csid != ""
  {
    hide ContextsInv, CodesInv, RegistryInv, ThreadsInv, OutputsInv, ReplayInv, AcceptedOk, CodesApart, ProofsApart;
    var owner := w.csids[csid].cookie;
    SessionAt(cfg, w, owner);
    var i := FindCsid(w.srv.sessions[owner].clientSessions, csid);
    assert ClientSessionOk(cfg, w, owner, w.srv.sessions[owner].sub, w.srv.sessions[owner].clientSessions[i]);
  }

  /** What a code is good for: the entry for its client, in the session it was issued for. */
  function CodeEntry(w: World, code: string): Option<ClientSession>
    requires code in w.issued
  {
    var record := w.issued[code];
    if record.cookie in w.srv.sessions then Entry(w.srv.sessions[record.cookie].clientSessions, record.clientID)
        else None
  }

  /** RFC 7636 section 4.6: no challenge, or a verifier that is it or hashes to it. */
  predicate Proves(cfg: Config, challenge: string, how: PkceMethod, verifier: string) {
    challenge == "" || (how == Plain && verifier == challenge) || (how == S256 && cfg.s256(verifier) == challenge)
  }

  lemma AcceptsIsProves(cfg: Config, challenge: string, how: PkceMethod, verifier: string)
    ensures PkceAccepts(cfg, challenge, how, verifier) <==> Proves(cfg, challenge, how, verifier)
  {}

  /** A request that has taken a code out of circulation, whatever ran since: it gets a grant if and
      only if the session the code was issued for still has the client's entry and PKCE accepts, and
      then the grant is for exactly that entry. */
  lemma CodeRedeems(cfg: Config, w: World, u: nat)
    requires UrlsSane(cfg) && Reachable(cfg, w) && u in w.threads && w.threads[u].CodeTaken?
    ensures var pc, w' := w.threads[u], CheckCode(cfg, w, u);
            && pc.code in w.issued
            && var record, entry := w.issued[pc.code], CodeEntry(w, pc.code);
               if entry.Some? && Proves(cfg, entry.value.challenge, entry.value.challengeMethod, pc.verifier) then
                 && u in w'.threads && w'.threads[u].Authenticating?
                 && var g := w'.threads[u].ticket.g;
                    && g == GrantOf(cfg, record.cookie, w.srv.sessions[record.cookie], entry.value, record.nonce)
                    && g.csid in w.csids && w.csids[g.csid] == Owner(record.cookie, record.clientID)
               else u !in w'.threads
  {
    hide Inv, UrlsSane, Reachable, PkceAccepts, Proves, GrantOf, CheckCode;
    ReachableOk(cfg, w);
    ThreadOk(cfg, w, u);
    CheckedShape(cfg, w, u);
    if CodeEntry(w, w.threads[u].code).Some? {
      var cs := CodeEntry(w, w.threads[u].code).value;
      AcceptsIsProves(cfg, cs.challenge, cs.challengeMethod, w.threads[u].verifier);
    }
    var record := w.issued[w.threads[u].code];
    if record.cookie in w.srv.sessions {
      var css := w.srv.sessions[record.cookie].clientSessions;
      var i := FindClient(css, record.clientID);
      if i < |css| {
        CsidOwned(cfg, w, record.cookie, i);
        SameCsidGrant(cfg, record.cookie, w.srv.sessions[record.cookie], css[i], record.nonce);
      }
    }
  }

  lemma CheckedShape(cfg: Config, w: World, u: nat)
    requires u in w.threads && w.threads[u].CodeTaken?
    ensures var pc, w' := w.threads[u], CheckCode(cfg, w, u);
            var key, c := pc.meta.cookieID, pc.meta.clientID;
            var entry := if key in w.srv.sessions then Entry(w.srv.sessions[key].clientSessions, c) else None;
            if entry.Some? && PkceAccepts(cfg, entry.value.challenge, entry.value.challengeMethod, pc.verifier) then
              && u in w'.threads && w'.threads[u].Authenticating?
              && w'.threads[u].ticket.g == GrantOf(cfg, key, w.srv.sessions[key], entry.value, pc.meta.nonce)
            else u !in w'.threads
  {
    hide PkceAccepts, GrantOf, GrantTo;
    var pc := w.threads[u];
    var key := pc.meta.cookieID;
    if key in w.srv.sessions {
      var css := w.srv.sessions[key].clientSessions;
      var i := FindClient(css, pc.meta.clientID);
      if i < |css| {
        GrantToThread(cfg, w, u, FromCode(pc.code, css[i].challenge, css[i].challengeMethod, pc.verifier),
                      key, i, pc.meta.nonce, pc.creds);
      }
    }
  }

  /** The code round trip, from its issue: in every later world in which the code is still live it can
      be presented, and then redeems as said - for the session, client and nonce it was issued with. */
  lemma CodeRoundTrip(cfg: Config, w: World, t: nat, code: string, later: seq<Event>, u: nat, verifier: string,
                      creds: Credentials)
    requires UrlsSane(cfg) && Reachable(cfg, w) && t in w.threads && w.threads[t].IssuingCode? && Unused(cfg, w, code)
    requires var w1 := Run(cfg, IssueCode(cfg, w, t, code), later); code in w1.srv.codeMeta && u !in w1.threads
    ensures var pc, w1 := w.threads[t], Run(cfg, IssueCode(cfg, w, t, code), later);
            var w2 := PresentCode(w1, u, code, verifier, creds);
            && w2.issued == w1.issued && code in w2.issued
            && w2.issued[code] == CodeRecord(pc.sess.cookieID, pc.codeClient, pc.sess.sub, pc.nonce)
            && u in w2.threads && w2.threads[u].CodeTaken? && w2.threads[u].code == code
                && w2.threads[u].verifier == verifier
            && w2.srv.sessions == w1.srv.sessions
  {
    hide Inv, UrlsSane, Reachable, Apply, Run, FindClient, IssueCode, PresentCode;
    ReachableOk(cfg, w);
    IssueCodeKeeps(cfg, w, t, code);
    RunKeeps(cfg, IssueCode(cfg, w, t, code), later);
    IssueRecorded(cfg, w, t, code);
    RecordsStay(IssueCode(cfg, w, t, code), Run(cfg, IssueCode(cfg, w, t, code), later));
    PresentTakes(Run(cfg, IssueCode(cfg, w, t, code), later), u, code, verifier, creds);
  }

  lemma IssueRecorded(cfg: Config, w: World, t: nat, code: string)
    requires t in w.threads && w.threads[t].IssuingCode? && Unused(cfg, w, code)
    ensures var pc, w' := w.threads[t], IssueCode(cfg, w, t, code);
            code in w'.issued && w'.issued[code] == CodeRecord(pc.sess.cookieID, pc.codeClient, pc.sess.sub, pc.nonce)
  {
    hide FindClient;
  }

  lemma RecordsStay(w: World, w': World)
    requires Evolves(w, w')
    ensures Extends(w.issued, w'.issued)
  {}

  lemma PresentTakes(w: World, u: nat, code: string, verifier: string, creds: Credentials)
    requires u !in w.threads && code in w.srv.codeMeta
    ensures var w' := PresentCode(w, u, code, verifier, creds);
            && w'.issued == w.issued && w'.srv.sessions == w.srv.sessions
            && u in w'.threads && w'.threads[u] == CodeTaken(code, w.srv.codeMeta[code], verifier, creds)
  {}

  lemma GrantToThread(cfg: Config, w: World, t: nat, origin: Origin, key: string, i: nat, nonce: string,
                      creds: Credentials)
    requires key in w.srv.sessions && i < |w.srv.sessions[key].clientSessions|
    ensures var w' := GrantTo(cfg, w, t, origin, key, i, nonce, creds);
            && t in w'.threads && w'.threads[t].Authenticating?
            && w'.threads[t].ticket.g == GrantOf(cfg, key, w.srv.sessions[key], w.srv.sessions[key].clientSessions[i],
                nonce)
  {
    hide GrantOf, StampSession;
  }

  lemma SameCsidGrant(cfg: Config, key: string, sess: Session, cs: ClientSession, nonce: string)
    ensures GrantOf(cfg, key, sess, cs, nonce).csid == cs.sessionID
  {}

  /** What an approval puts on record: its client's entry says what was asked and approved, keeps the
      csid the client had in that login session, and no other client's entry changes. */
  lemma ApprovalRecorded(cfg: Config, w: World, ctx: AuthContext, found: Option<string>, cookie: string, csid: string,
                         idc: Option<ClaimSet>, acc: Option<ClaimSet>, other: string)
    requires UrlsSane(cfg) && Reachable(cfg, w) && FoundBySub(w.srv.sessions, ctx.sub, found)
    ensures var base := BaseSession(w.srv, ctx, found, cookie);
            var sess := ApprovedSession(cfg, w.srv, ctx, found, cookie, csid, idc, acc);
            var before, after := Entry(base.clientSessions, other), Entry(sess.clientSessions, other);
            && sess.sub == ctx.sub && sess.cookieID == (if found.Some? then found.value else cookie)
            && (other != ctx.clientID ==> after == before)
            && (other == ctx.clientID ==>
                  && after.Some? && after.value.sessionID == (if before.Some? then before.value.sessionID else csid)
                  && after.value.scope == ctx.scope && after.value.redirectURI == ctx.redirectURI
                  && after.value.challenge == ctx.challenge && after.value.challengeMethod == ctx.challengeMethod
                  && after.value.idTokenClaims == idc && after.value.accessTokenClaims == acc)
  {
    hide Inv, UrlsSane, Reachable, Upsert, AdvertisedSub, Admitted, SubjectKnown;
    ReachableOk(cfg, w);
    var base := BaseSession(w.srv, ctx, found, cookie);
    EntryAfterUpsert(base.clientSessions, ApprovedClient(cfg, ctx, CsidFor(base, ctx.clientID, csid), idc, acc), other);
    if found.Some? {
      SessionAt(cfg, w, found.value);
      var i := FindClient(base.clientSessions, ctx.clientID);
      if i < |base.clientSessions| { assert ClientSessionOk(cfg, w, base.cookieID, base.sub, base.clientSessions[i]); }
    }
  }
}
