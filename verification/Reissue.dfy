// Between two approvals a client session's tokens settle: every access token and every
// ID token issued says the same, up to the clock, however many are issued and whatever
// other requests run in between.
module Reissue {
  import opened Lists
  import opened Scopes
  import opened Claims
  import opened Registration
  import opened Idp
  import opened Documents
  import opened Replay
  import opened IdpState
  import opened Machine
  import opened Invariants
  import opened Steps
  import opened TokenSteps
  import opened Frames
  import opened Theorems

  /** Everything an access token for this grant says that does not come from the clock. */
  function AccessContent(cfg: Config, g: Grant): ClaimSet {
    Timeless(Sign(cfg.externalURL, g.advertisedSub, AccessAudience(cfg), g.accessClaims, 0, 0))
  }

  function IDContent(cfg: Config, g: Grant): ClaimSet {
    Timeless(Sign(cfg.externalURL, g.advertisedSub, [g.clientID], g.idTokenClaims, 0, 0))
  }

  /** What tokens are measured against: a grant, and whether its ID token claims count. */
  datatype Baseline = Baseline(g: Grant, withID: bool)

  /** Whatever tokens this grant is answered with, they say what the baseline's would: the same
      subject where no claim names one, the same access token and, if it counts, ID token. */
  ghost predicate Says(cfg: Config, g: Grant, b: Baseline) {
    && g.advertisedSub == b.g.advertisedSub
    && AccessContent(cfg, g) == AccessContent(cfg, b.g)
    && (b.withID ==> IDContent(cfg, g) == IDContent(cfg, b.g))
  }

  /** A grant of the baseline's client session that says the same. */
  ghost predicate Fits(cfg: Config, g: Grant, b: Baseline) {
    && g.csid == b.g.csid && g.clientID == b.g.clientID
    && Csid in g.accessClaims && g.accessClaims[Csid] == Str(g.csid)
    && Says(cfg, g, b)
  }

  ghost predicate Alike(cfg: Config, g: Grant, b: Baseline) {
    Fits(cfg, g, b) && g.scope == b.g.scope
  }

  /** What an entry has on file, as a grant; without access token claims on file it is the defaults. */
  function EntryGrant(cs: ClientSession): Grant {
    Grant("", cs.clientID, cs.sessionID, cs.advertisedSub, cs.scope,
          if cs.idTokenClaims.Some? then cs.idTokenClaims.value else map[],
          (if cs.accessTokenClaims.Some? then cs.accessTokenClaims.value else DefaultAccessTokenClaims(cs.scope))
            [Csid := Str(cs.sessionID)])
  }

  ghost predicate Settled(cfg: Config, cs: ClientSession, b: Baseline) {
    (b.withID ==> cs.idTokenClaims.Some?) && Alike(cfg, EntryGrant(cs), b)
  }

  ghost predicate SettledIn(cfg: Config, sess: Session, b: Baseline) {
    forall i :: 0 <= i < |sess.clientSessions| && sess.clientSessions[i].sessionID == b.g.csid ==>
      Settled(cfg, sess.clientSessions[i], b)
  }

  ghost predicate SettledAll(cfg: Config, sessions: map<string, Session>, b: Baseline) {
    forall k :: k in sessions ==> SettledIn(cfg, sessions[k], b)
  }

  /** Every grant of this client session made since the `from`-th says the same. */
  ghost predicate GrantsAlike(cfg: Config, granted: seq<Grant>, from: nat, b: Baseline) {
    forall n :: from <= n < |granted| && granted[n].csid == b.g.csid ==> Alike(cfg, granted[n], b)
  }

  ghost predicate Steady(cfg: Config, w: World, from: nat, b: Baseline) {
    SettledAll(cfg, w.srv.sessions, b) && GrantsAlike(cfg, w.granted, from, b)
  }

  // ---------------------------------------------------------------- one entry

  lemma TouchSettled(cfg: Config, sess: Session, c: string, challenge: string, how: PkceMethod, uri: string,
                     b: Baseline)
    requires SettledIn(cfg, sess, b)
    ensures SettledIn(cfg, Touch(sess, c, challenge, how, uri), b)
  {
    hide AccessContent, IDContent;
    var out := Touch(sess, c, challenge, how, uri);
    forall i | 0 <= i < |out.clientSessions| && out.clientSessions[i].sessionID == b.g.csid
      ensures Settled(cfg, out.clientSessions[i], b)
    {
      assert Settled(cfg, sess.clientSessions[i], b);
      assert EntryGrant(out.clientSessions[i]) == EntryGrant(sess.clientSessions[i]);
    }
  }

  lemma StampSettled(cfg: Config, cs: ClientSession, b: Baseline)
    requires Settled(cfg, cs, b)
    ensures Settled(cfg, StampCsid(cs), b)
  {
    hide AccessContent, IDContent;
    if cs.accessTokenClaims.Some? {
      var acc, sid := cs.accessTokenClaims.value, Str(cs.sessionID);
      assert acc[Csid := sid][Csid := sid] == acc[Csid := sid];
    }
    assert EntryGrant(StampCsid(cs)) == EntryGrant(cs);
  }

  /** The grant read off a settled entry, by code or by token, with whatever nonce. */
  lemma GrantSettled(cfg: Config, key: string, sess: Session, cs: ClientSession, nonce: string, b: Baseline)
    requires Settled(cfg, cs, b)
    ensures Alike(cfg, GrantOf(cfg, key, sess, cs, nonce), b)
  {}

  /** Signing does not look at the clock for anything but iat and exp. */
  lemma TimelessSign(issuer: string, subject: string, audience: seq<string>, claims: ClaimSet, now: int, expiry: int)
    ensures Timeless(Sign(issuer, subject, audience, claims, now, expiry))
              == Timeless(Sign(issuer, subject, audience, claims, 0, 0))
  {}

  lemma RememberCsid(cfg: Config, g: Grant, now: int)
    requires Csid in g.accessClaims && g.accessClaims[Csid] == Str(g.csid)
    ensures var acc := Remembered(IssueFor(cfg, g, now).access); acc[Csid := Str(g.csid)] == acc
  {}

  /** The last answer stands: whatever was on file, an answer leaves there what its own access token
      said, and what its ID token said if it had one. So an answer to a grant from before an approval
      puts the older claims back. */
  lemma LastAnswerStands(cfg: Config, cs: ClientSession, g: Grant, now: int)
    requires g.csid == cs.sessionID && g.clientID == cs.clientID && Csid in g.accessClaims
               && g.accessClaims[Csid] == Str(g.csid)
    ensures var after := EntryGrant(WithIssued(cs, g, IssueFor(cfg, g, now)));
            && after.advertisedSub == g.advertisedSub
            && AccessContent(cfg, after) == AccessContent(cfg, g)
            && (HasScope(g.scope, "openid") ==> IDContent(cfg, after) == IDContent(cfg, g))
            && (!HasScope(g.scope, "openid") ==> after.idTokenClaims == EntryGrant(cs).idTokenClaims)
  {
    hide Sign, Timeless, Remembered, HasScope, AccessAudience;
    RememberCsid(cfg, g, now);
    ResignFixed(cfg.externalURL, g.advertisedSub, g.advertisedSub, AccessAudience(cfg), g.accessClaims,
                now, now + cfg.accessLifetime * SECOND, 0, 0);
    TimelessSign(cfg.externalURL, g.advertisedSub, AccessAudience(cfg), g.accessClaims, now,
        now + cfg.accessLifetime * SECOND);
    ResignFixed(cfg.externalURL, g.advertisedSub, g.advertisedSub, [g.clientID], g.idTokenClaims, now,
        now + 3600 * SECOND, 0, 0);
    TimelessSign(cfg.externalURL, g.advertisedSub, [g.clientID], g.idTokenClaims, now, now + 3600 * SECOND);
    RememberedCsid(cfg, g, now);
  }

  /** What an answer to a fitting grant leaves in its entry is settled again. */
  lemma IssuedSettled(cfg: Config, cs: ClientSession, g: Grant, now: int, b: Baseline)
    requires Settled(cfg, cs, b) && Fits(cfg, g, b) && cs.sessionID == b.g.csid
    ensures Settled(cfg, WithIssued(cs, g, IssueFor(cfg, g, now)), b)
  {
    hide Sign, Timeless, Remembered, HasScope, AccessAudience;
    LastAnswerStands(cfg, cs, g, now);
    RememberedCsid(cfg, g, now);
  }

  lemma RememberedCsid(cfg: Config, g: Grant, now: int)
    requires Csid in g.accessClaims && g.accessClaims[Csid] == Str(g.csid)
    ensures var acc := Remembered(IssueFor(cfg, g, now).access); Csid in acc && acc[Csid] == Str(g.csid)
  {}

  // ---------------------------------------------------------------- one step

  lemma SessionReplaced(cfg: Config, sessions: map<string, Session>, key: string, sess: Session, b: Baseline)
    requires SettledAll(cfg, sessions, b) && SettledIn(cfg, sess, b)
    ensures SettledAll(cfg, sessions[key := sess], b)
  {}

  lemma EntryReplaced(cfg: Config, sess: Session, i: nat, cs: ClientSession, b: Baseline)
    requires SettledIn(cfg, sess, b) && i < |sess.clientSessions|
    requires cs.sessionID == b.g.csid ==> Settled(cfg, cs, b)
    ensures SettledIn(cfg, sess.(clientSessions := sess.clientSessions[i := cs]), b)
  {}

  lemma GrantToParts(cfg: Config, w: World, t: nat, origin: Origin, key: string, i: nat, nonce: string,
                     creds: Credentials)
    requires key in w.srv.sessions && i < |w.srv.sessions[key].clientSessions|
    ensures var w', sess := GrantTo(cfg, w, t, origin, key, i, nonce, creds), w.srv.sessions[key];
            var cs := sess.clientSessions[i];
            && w'.granted == w.granted + [GrantOf(cfg, key, sess, cs, nonce)]
            && w'.srv.sessions
                == w.srv.sessions[key := sess.(clientSessions := sess.clientSessions[i := StampCsid(cs)])]
  {
    hide GrantOf, StampCsid;
  }

  lemma GrantSteady(cfg: Config, w: World, t: nat, origin: Origin, key: string, i: nat, nonce: string,
                    creds: Credentials, from: nat, b: Baseline)
    requires Steady(cfg, w, from, b) && key in w.srv.sessions && i < |w.srv.sessions[key].clientSessions|
    ensures Steady(cfg, GrantTo(cfg, w, t, origin, key, i, nonce, creds), from, b)
  {
    hide Settled, Alike, GrantOf, StampCsid, GrantTo;
    var sess := w.srv.sessions[key];
    var cs := sess.clientSessions[i];
    GrantToParts(cfg, w, t, origin, key, i, nonce, creds);
    SameCsid(cfg, key, sess, cs, nonce);
    assert SettledIn(cfg, sess, b);
    if cs.sessionID == b.g.csid {
      StampSettled(cfg, cs, b);
      GrantSettled(cfg, key, sess, cs, nonce, b);
    }
    EntryReplaced(cfg, sess, i, StampCsid(cs), b);
    SessionReplaced(cfg, w.srv.sessions, key, sess.(clientSessions := sess.clientSessions[i := StampCsid(cs)]), b);
  }

  lemma SameCsid(cfg: Config, key: string, sess: Session, cs: ClientSession, nonce: string)
    ensures GrantOf(cfg, key, sess, cs, nonce).csid == cs.sessionID && StampCsid(cs).sessionID == cs.sessionID
  {}

  lemma StoreIssuedSteady(cfg: Config, s: State, g: Grant, now: int, b: Baseline)
    requires SettledAll(cfg, s.sessions, b) && (g.csid == b.g.csid ==> Fits(cfg, g, b))
    ensures SettledAll(cfg, StoreIssued(s, g, IssueFor(cfg, g, now)).sessions, b)
  {
    hide Settled, Fits, IssueFor, WithIssued;
    if g.cookieID in s.sessions {
      var sess := s.sessions[g.cookieID];
      var i := FindCsid(sess.clientSessions, g.csid);
      if i < |sess.clientSessions| {
        var cs := sess.clientSessions[i];
        var cs' := WithIssued(cs, g, IssueFor(cfg, g, now));
        if g.csid == b.g.csid { IssuedSettled(cfg, cs, g, now, b); }
        KeepsCsid(cs, g, IssueFor(cfg, g, now));
        EntryReplaced(cfg, sess, i, cs', b);
        SessionReplaced(cfg, s.sessions, g.cookieID, sess.(clientSessions := sess.clientSessions[i := cs']), b);
      }
    }
  }

  lemma KeepsCsid(cs: ClientSession, g: Grant, issued: Issued)
    ensures WithIssued(cs, g, issued).sessionID == cs.sessionID
  {}

  lemma CommitSteady(cfg: Config, w: World, reqID: string, ctx: AuthContext, idc: Option<ClaimSet>,
                     acc: Option<ClaimSet>, found: Option<string>, cookie: string, csid: string, from: nat, b: Baseline)
    requires Steady(cfg, w, from, b) && (found.Some? ==> found.value in w.srv.sessions)
    requires CsidFor(BaseSession(w.srv, ctx, found, cookie), ctx.clientID, csid) != b.g.csid
    ensures Steady(cfg, Committed(cfg, w, reqID, ctx, idc, acc, found, cookie, csid), from, b)
  {
    hide Settled, Alike, CsidFor;
    var base := BaseSession(w.srv, ctx, found, cookie);
    var sess := ApprovedSession(cfg, w.srv, ctx, found, cookie, csid, idc, acc);
    assert SettledIn(cfg, base, b);
    assert SettledIn(cfg, sess, b);
    SessionReplaced(cfg, w.srv.sessions, sess.cookieID, sess, b);
  }

  /** The answers after `n` to grants of this client session made before the `from`-th say the same. */
  ghost predicate OlderSay(cfg: Config, w: World, n: nat, from: nat, b: Baseline) {
    forall i :: n <= i < |w.responses| && w.responses[i].ticket.g.csid == b.g.csid
                && w.responses[i].ticket.serial < from ==>
      Says(cfg, w.responses[i].ticket.g, b)
  }

  ghost predicate NotApproved(w: World, n: nat, csid: string) {
    forall i :: n <= i < |w.approvals| ==> w.approvals[i] != csid
  }

  /** The baseline is of the client its csid was drawn for. */
  ghost predicate Owned(w: World, b: Baseline) {
    b.g.csid in w.csids && w.csids[b.g.csid].clientID == b.g.clientID
  }

  lemma AnsweredFits(cfg: Config, w: World, ticket: Ticket, from: nat, b: Baseline)
    requires TicketOk(cfg, w, ticket) && GrantsAlike(cfg, w.granted, from, b) && Owned(w, b)
               && ticket.g.csid == b.g.csid
    requires ticket.serial < from ==> Says(cfg, ticket.g, b)
    ensures Fits(cfg, ticket.g, b)
  {
    hide OriginOk, Says, SubjectKnown;
    if from <= ticket.serial { assert Alike(cfg, w.granted[ticket.serial], b); }
  }

  lemma RespondSteady(cfg: Config, w: World, t: nat, n: nat, from: nat, b: Baseline)
    requires Inv(cfg, w) && Steady(cfg, w, from, b) && n <= |w.responses|
    requires OlderSay(cfg, Respond(cfg, w, t), n, from, b) && Owned(w, b)
    ensures Steady(cfg, Respond(cfg, w, t), from, b)
  {
    hide SessionsInv, ContextsInv, CodesInv, RegistryInv, ThreadsInv, OutputsInv, ReplayInv, AcceptedOk, CodesApart;
    hide ProofsApart;
    hide Fits, Says, StoreIssued, IssueFor, SettledAll, TokensOf, TicketOk, BasisOk, CredentialsMeet;
    if t in w.threads && w.threads[t].Responding? {
      var pc := w.threads[t];
      ThreadOk(cfg, w, t);
      var w' := Respond(cfg, w, t);
      assert w'.responses[|w.responses|].ticket == pc.ticket;
      if pc.ticket.g.csid == b.g.csid { AnsweredFits(cfg, w, pc.ticket, from, b); }
      StoreIssuedSteady(cfg, w.srv, pc.ticket.g, w.now, b);
    }
  }

  lemma SessionsAndGrantsSame(cfg: Config, w: World, w': World, from: nat, b: Baseline)
    requires Steady(cfg, w, from, b) && SameSessions(w, w')
    ensures Steady(cfg, w', from, b)
  {}

  lemma LogoutSteady(cfg: Config, w: World, cookie: string, from: nat, b: Baseline)
    requires Steady(cfg, w, from, b)
    ensures Steady(cfg, Logout(w, cookie), from, b)
  {
    hide SettledIn, Alike;
  }

  lemma StepSteady(cfg: Config, w: World, e: Event, n: nat, m: nat, from: nat, b: Baseline)
    requires Inv(cfg, w) && Steady(cfg, w, from, b) && n <= |w.responses| && m <= |w.approvals|
    requires OlderSay(cfg, Apply(cfg, w, e), n, from, b) && Owned(w, b) && NotApproved(Apply(cfg, w, e), m, b.g.csid)
    ensures Steady(cfg, Apply(cfg, w, e), from, b)
  {
    hide Inv, Steady, OlderSay, NotApproved, Owned, LookUpSession, LookUpHint, Commit, Logout, CheckCode;
    hide PresentToken, Respond;
    if AwayFromSessions(e) {
      AwaySame(cfg, w, e);
      SessionsAndGrantsSame(cfg, w, Apply(cfg, w, e), from, b);
    } else {
      match e
      case ELookUpSession(t) => LookUpSteady(cfg, w, t, from, b);
      case ELookUpHint(t, found) => LookUpHintSteady(cfg, w, t, found, from, b);
      case ECommit(t, found, cookie, csid) => CommitStepSteady(cfg, w, t, found, cookie, csid, m, from, b);
      case ELogout(cookie) => LogoutSteady(cfg, w, cookie, from, b);
      case ECheckCode(t) => CheckCodeSteady(cfg, w, t, from, b);
      case EPresentToken(t, token, creds, found) => PresentTokenSteady(cfg, w, t, token, creds, found, from, b);
      case ERespond(t) => RespondSteady(cfg, w, t, n, from, b);
    }
  }

  /** authorize with a session: its entry is touched, and the request goes on to issue a code. */
  lemma TouchSteady(cfg: Config, w: World, t: nat, key: string, req: Request, from: nat, b: Baseline)
    requires Steady(cfg, w, from, b) && key in w.srv.sessions
    ensures var s' := TouchSession(w.srv, key, req.clientID, req.challenge, req.challengeMethod, req.redirectURI);
            Steady(cfg, Goto(w.(srv := s'), t, IssuingCode(s'.sessions[key], req.clientID, req.state, req.nonce)),
                from, b)
  {
    hide SettledIn, Touch, GrantsAlike;
    TouchSettled(cfg, w.srv.sessions[key], req.clientID, req.challenge, req.challengeMethod, req.redirectURI, b);
  }

  lemma LookUpSteady(cfg: Config, w: World, t: nat, from: nat, b: Baseline)
    requires Steady(cfg, w, from, b)
    ensures Steady(cfg, LookUpSession(w, t), from, b)
  {
    hide SettledAll, GrantsAlike, TouchSession, Goto, StringClaim;
    MovesSame(w, t);
    if t in w.threads && w.threads[t].LookingUpSession? && w.threads[t].req.cookie in w.srv.sessions {
      TouchSteady(cfg, w, t, w.threads[t].req.cookie, w.threads[t].req, from, b);
    }
  }

  lemma LookUpHintSteady(cfg: Config, w: World, t: nat, found: Option<string>, from: nat, b: Baseline)
    requires Steady(cfg, w, from, b)
    ensures Steady(cfg, LookUpHint(w, t, found), from, b)
  {
    hide SettledAll, GrantsAlike, TouchSession, Goto;
    if t in w.threads && w.threads[t].LookingUpHint? && found.Some? && found.value in w.srv.sessions {
      TouchSteady(cfg, w, t, found.value, w.threads[t].req, from, b);
    }
  }

  lemma CommitStepSteady(cfg: Config, w: World, t: nat, found: Option<string>, cookie: string, csid: string,
                         m: nat, from: nat, b: Baseline)
    requires Steady(cfg, w, from, b) && m <= |w.approvals|
    requires NotApproved(Commit(cfg, w, t, found, cookie, csid), m, b.g.csid)
    ensures Steady(cfg, Commit(cfg, w, t, found, cookie, csid), from, b)
  {
    hide SettledIn, Alike, ApprovedSession, CsidFor;
    if t in w.threads && w.threads[t].Approving? && Unused(cfg, w, cookie) && Unused(cfg, w, csid) && cookie != csid
       && FoundBySub(w.srv.sessions, w.threads[t].ctx.sub, found) {
      var pc := w.threads[t];
      var w' := Commit(cfg, w, t, found, cookie, csid);
      var used := CsidFor(BaseSession(w.srv, pc.ctx, found, cookie), pc.ctx.clientID, csid);
      assert w'.approvals == w.approvals + [used];
      assert w'.approvals[|w.approvals|] == used;
      CommitSteady(cfg, w, pc.reqID, pc.ctx, pc.idc, pc.acc, found, cookie, csid, from, b);
    }
  }

  lemma CheckCodeSteady(cfg: Config, w: World, t: nat, from: nat, b: Baseline)
    requires Steady(cfg, w, from, b)
    ensures Steady(cfg, CheckCode(cfg, w, t), from, b)
  {
    hide SettledIn, Alike, GrantTo, PkceAccepts;
    if t in w.threads && w.threads[t].CodeTaken? && w.threads[t].meta.cookieID in w.srv.sessions {
      var pc := w.threads[t];
      var sess := w.srv.sessions[pc.meta.cookieID];
      var i := FindClient(sess.clientSessions, pc.meta.clientID);
      if i < |sess.clientSessions| {
        var cs := sess.clientSessions[i];
        GrantSteady(cfg, w, t, FromCode(pc.code, cs.challenge, cs.challengeMethod, pc.verifier),
                    pc.meta.cookieID, i, pc.meta.nonce, pc.creds, from, b);
      }
    }
  }

  lemma PresentTokenSteady(cfg: Config, w: World, t: nat, token: Token, creds: Credentials, found: Option<string>,
                           from: nat, b: Baseline)
    requires Steady(cfg, w, from, b)
    ensures Steady(cfg, PresentToken(cfg, w, t, token, creds, found), from, b)
  {
    hide SettledIn, Alike, GrantTo;
    var csid := StringClaim(token.claims, Csid);
    if FoundByCsid(w.srv.sessions, csid, found) && found.Some? {
      var i := FindCsid(w.srv.sessions[found.value].clientSessions, csid);
      GrantSteady(cfg, w, t, FromToken(token), found.value, i, "", creds, from, b);
    }
  }

  // ---------------------------------------------------------------- whole runs

  lemma {:induction false} RunSteady(cfg: Config, w: World, later: seq<Event>, n: nat, m: nat, from: nat, b: Baseline)
    requires UrlsSane(cfg) && Inv(cfg, w) && Steady(cfg, w, from, b) && n <= |w.responses| && m <= |w.approvals|
    requires OlderSay(cfg, Run(cfg, w, later), n, from, b) && Owned(w, b)
               && NotApproved(Run(cfg, w, later), m, b.g.csid)
    ensures Steady(cfg, Run(cfg, w, later), from, b)
  {
    hide Inv, UrlsSane, Apply, Steady;
    if later != [] {
      var front, e := later[..|later| - 1], later[|later| - 1];
      var mid := Run(cfg, w, front);
      RunKeeps(cfg, w, front);
      StepKeeps(cfg, mid, e);
      HistoryGrows(mid, Apply(cfg, mid, e));
      HistoryGrows(w, mid);
      assert forall i :: 0 <= i < |mid.responses| ==> mid.responses[i] == Apply(cfg, mid, e).responses[i];
      assert forall i :: 0 <= i < |mid.approvals| ==> mid.approvals[i] == Apply(cfg, mid, e).approvals[i];
      RunSteady(cfg, w, front, n, m, from, b);
      StepSteady(cfg, mid, e, n, m, from, b);
    }
  }

  lemma HistoryGrows(w: World, w': World)
    requires Evolves(w, w')
    ensures w.responses <= w'.responses && w.approvals <= w'.approvals && w.granted <= w'.granted
              && Extends(w.csids, w'.csids)
  {}

  lemma EntrySteady(cfg: Config, w: World, k: string, i: nat, withID: bool)
    requires Inv(cfg, w) && k in w.srv.sessions && i < |w.srv.sessions[k].clientSessions|
    requires withID ==> w.srv.sessions[k].clientSessions[i].idTokenClaims.Some?
    ensures var b := Baseline(EntryGrant(w.srv.sessions[k].clientSessions[i]), withID);
            Steady(cfg, w, |w.granted|, b) && Owned(w, b)
  {
    hide Inv, AccessContent, IDContent;
    var cs := w.srv.sessions[k].clientSessions[i];
    CsidOwned(cfg, w, k, i);
    forall k', j | k' in w.srv.sessions && 0 <= j < |w.srv.sessions[k'].clientSessions|
                   && w.srv.sessions[k'].clientSessions[j].sessionID == cs.sessionID
      ensures w.srv.sessions[k'].clientSessions[j] == cs
    {
      CsidOwned(cfg, w, k', j);
      OneEntry(cfg, w, k, i, j);
    }
  }

  lemma OneEntry(cfg: Config, w: World, k: string, i: nat, j: nat)
    requires Inv(cfg, w) && k in w.srv.sessions && i < |w.srv.sessions[k].clientSessions|
               && j < |w.srv.sessions[k].clientSessions|
    requires w.srv.sessions[k].clientSessions[i].clientID == w.srv.sessions[k].clientSessions[j].clientID
    ensures i == j
  {
    hide ContextsInv, CodesInv, RegistryInv, ThreadsInv, OutputsInv, ReplayInv, AcceptedOk, CodesApart, ProofsApart;
    hide ClientSessionOk;
    SessionAt(cfg, w, k);
  }

  /** A window on one client session: a reachable moment, its entry there, and a run without an
      approval for it. `withID` says whether its ID token claims are on file and count. */
  ghost predicate ClearRun(cfg: Config, w: World, k: string, i: nat, withID: bool, later: seq<Event>) {
    && Reachable(cfg, w) && k in w.srv.sessions && i < |w.srv.sessions[k].clientSessions|
    && (withID ==> w.srv.sessions[k].clientSessions[i].idTokenClaims.Some?)
    && NotApproved(Run(cfg, w, later), |w.approvals|, w.srv.sessions[k].clientSessions[i].sessionID)
  }

  /** Every answer in the window says what is on file at its start if and only if every answer in it
      to a grant from before the window does. */
  lemma AnswersSayExactly(cfg: Config, w: World, k: string, i: nat, withID: bool, later: seq<Event>)
    requires UrlsSane(cfg) && ClearRun(cfg, w, k, i, withID, later)
    ensures var b, w' := Baseline(EntryGrant(w.srv.sessions[k].clientSessions[i]), withID), Run(cfg, w, later);
            (forall a :: |w.responses| <= a < |w'.responses| && w'.responses[a].ticket.g.csid == b.g.csid ==>
               Says(cfg, w'.responses[a].ticket.g, b))
            <==> OlderSay(cfg, w', |w.responses|, |w.granted|, b)
  {
    hide UrlsSane, Reachable, Inv, Says, Steady, Alike, NotApproved;
    var b, w' := Baseline(EntryGrant(w.srv.sessions[k].clientSessions[i]), withID), Run(cfg, w, later);
    if OlderSay(cfg, w', |w.responses|, |w.granted|, b) {
      forall a | |w.responses| <= a < |w'.responses| && w'.responses[a].ticket.g.csid == b.g.csid
        ensures Says(cfg, w'.responses[a].ticket.g, b)
      {
        AnswerFits(cfg, w, k, i, withID, later, a);
      }
    }
  }

  lemma AnswerFits(cfg: Config, w: World, k: string, i: nat, withID: bool, later: seq<Event>, a: nat)
    requires UrlsSane(cfg) && ClearRun(cfg, w, k, i, withID, later)
    requires var b, w' := Baseline(EntryGrant(w.srv.sessions[k].clientSessions[i]), withID), Run(cfg, w, later);
             && OlderSay(cfg, w', |w.responses|, |w.granted|, b)
             && |w.responses| <= a < |w'.responses| && w'.responses[a].ticket.g.csid == b.g.csid
    ensures var b, r := Baseline(EntryGrant(w.srv.sessions[k].clientSessions[i]), withID),
              Run(cfg, w, later).responses[a];
            Says(cfg, r.ticket.g, b) && (|w.granted| <= r.ticket.serial ==> r.ticket.g.scope == b.g.scope)
  {
    hide Inv, UrlsSane, Reachable, SettledAll, Says, Run, NotApproved;
    var b, w' := Baseline(EntryGrant(w.srv.sessions[k].clientSessions[i]), withID), Run(cfg, w, later);
    ReachableOk(cfg, w);
    EntrySteady(cfg, w, k, i, withID);
    RunSteady(cfg, w, later, |w.responses|, |w.approvals|, |w.granted|, b);
    RunKeeps(cfg, w, later);
    AnswerGranted(cfg, w', a);
    var r := w'.responses[a];
    if |w.granted| <= r.ticket.serial { assert Alike(cfg, w'.granted[r.ticket.serial], b); }
  }

  /** Tokens for a grant that says the same, say the same. */
  lemma SaysIssue(cfg: Config, g: Grant, b: Baseline, now: int)
    requires Says(cfg, g, b)
    ensures var issued := IssueFor(cfg, g, now);
            && Timeless(issued.access) == AccessContent(cfg, b.g)
            && (b.withID && issued.id.Some? ==> Timeless(issued.id.value) == IDContent(cfg, b.g))
            && (issued.id.Some? <==> HasScope(g.scope, "openid"))
                && (issued.refresh.Some? <==> HasScope(g.scope, "offline_access"))
  {
    hide Sign, Timeless, HasScope, AccessAudience;
    TimelessSign(cfg.externalURL, g.advertisedSub, AccessAudience(cfg), g.accessClaims, now,
        now + cfg.accessLifetime * SECOND);
    TimelessSign(cfg.externalURL, g.advertisedSub, [g.clientID], g.idTokenClaims, now, now + 3600 * SECOND);
  }

  /** From any reachable moment of a client session until its next approval, and with any other
      requests in between: all its access tokens say the same up to iat and exp, and so do all its
      ID tokens once there are ID token claims on file - as approval leaves them, or the first
      answer - as long as no older grant is answered that says something else. */
  lemma ReissueFixed(cfg: Config, w: World, k: string, i: nat, withID: bool, later: seq<Event>, a: nat)
    requires UrlsSane(cfg) && ClearRun(cfg, w, k, i, withID, later)
    requires var b, w' := Baseline(EntryGrant(w.srv.sessions[k].clientSessions[i]), withID), Run(cfg, w, later);
             && OlderSay(cfg, w', |w.responses|, |w.granted|, b)
             && |w.responses| <= a < |w'.responses| && w'.responses[a].ticket.g.csid == b.g.csid
    ensures var r, g0 := Run(cfg, w, later).responses[a], EntryGrant(w.srv.sessions[k].clientSessions[i]);
            var issued := IssueFor(cfg, r.ticket.g, r.at);
            && Timeless(issued.access) == AccessContent(cfg, g0)
            && (withID && issued.id.Some? ==> Timeless(issued.id.value) == IDContent(cfg, g0))
            && (|w.granted| <= r.ticket.serial ==>
                  (issued.id.Some? <==> HasScope(g0.scope, "openid"))
                  && (issued.refresh.Some? <==> HasScope(g0.scope, "offline_access")))
  {
    hide Reachable, NotApproved, UrlsSane, Says, IssueFor, Timeless, HasScope, Run, AccessContent, IDContent, OlderSay;
    var b, r := Baseline(EntryGrant(w.srv.sessions[k].clientSessions[i]), withID), Run(cfg, w, later).responses[a];
    AnswerFits(cfg, w, k, i, withID, later, a);
    SaysIssue(cfg, r.ticket.g, b, r.at);
  }

  lemma AnswerGranted(cfg: Config, w: World, a: nat)
    requires Inv(cfg, w) && a < |w.responses|
    ensures var ticket := w.responses[a].ticket; ticket.serial < |w.granted| && w.granted[ticket.serial] == ticket.g
  {
    hide SessionsInv, ContextsInv, CodesInv, RegistryInv, ThreadsInv, ReplayInv, AcceptedOk, CodesApart, ProofsApart;
    hide GrantOk, OriginOk, BasisOk;
    assert ResponseOk(cfg, w, w.responses[a]);
  }
}
