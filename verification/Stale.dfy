// A run in which a client session's tokens change between approvals: a code is redeemed under
// one approval, the user approves again, and only then is the first request answered.
module Stale {
  import opened Lists
  import opened Scopes
  import opened Claims
  import opened Registration
  import opened Idp
  import opened Documents
  import opened Replay
  import opened IdpState
  import opened Machine
  import opened Invariants
  import opened Theorems
  import opened Reissue

  const FIRST: ClaimSet := map[TokenUse := Str("first")]
  const LATER: ClaimSet := map[TokenUse := Str("later")]
  const NOTHING_SHOWN := Credentials("", "", NoAuth, None)

  /** The context of a login on a request id the server has never seen. */
  function BlankContext(): AuthContext { ZERO_CONTEXT.(username := "u", sub := InternalSub("u")) }

  function ApprovedEntry(cfg: Config, acc: ClaimSet): ClientSession {
    ApprovedClient(cfg, BlankContext(), "csid", Some(map[]), Some(acc))
  }

  function SessionWith(cs: ClientSession): Session { Session("u", InternalSub("u"), "cookie", [cs]) }

  function FirstGrant(cfg: Config): Grant {
    GrantOf(cfg, "cookie", SessionWith(ApprovedEntry(cfg, FIRST)), ApprovedEntry(cfg, FIRST), "")
  }

  function FirstTicket(cfg: Config): Ticket {
    Ticket(FromCode("code", "", NoMethod, ""), FirstGrant(cfg), NOTHING_SHOWN, 0)
  }

  /** No identifier of the run is a URL. */
  ghost predicate PlainNames(cfg: Config) {
    forall id :: id in {"cookie", "csid", "code", "x", "y"} ==> !cfg.isURL(id)
  }

  lemma RunTwo(cfg: Config, w: World, e0: Event, e1: Event)
    ensures Run(cfg, w, [e0, e1]) == Apply(cfg, Apply(cfg, w, e0), e1)
  {
    hide Apply;
    var es := [e0, e1];
    assert es[..1][..0] == [] && es[..|es| - 1] == es[..1];
    assert Run(cfg, w, es[..1]) == Apply(cfg, w, e0);
  }

  lemma RunThree(cfg: Config, w: World, e0: Event, e1: Event, e2: Event)
    ensures Run(cfg, w, [e0, e1, e2]) == Apply(cfg, Apply(cfg, Apply(cfg, w, e0), e1), e2)
  {
    hide Apply;
    RunTwo(cfg, w, e0, e1);
    var es := [e0, e1, e2];
    assert es[..|es| - 1] == [e0, e1];
  }

  lemma {:induction false} RunOn(cfg: Config, w: World, a: seq<Event>, b: seq<Event>)
    ensures Run(cfg, w, a + b) == Run(cfg, Run(cfg, w, a), b)
    decreases |b|
  {
    hide Apply;
    if b == [] {
      assert a + b == a;
    } else {
      assert (a + b)[..|a + b| - 1] == a + b[..|b| - 1];
      RunOn(cfg, w, a, b[..|b| - 1]);
    }
  }

  // ---------------------------------------------------------------- an approval

  ghost predicate Asking(w: World, r: string, acc: ClaimSet) {
    && r in w.srv.authContext && w.srv.authContext[r] == BlankContext() && r in w.seen
    && 0 in w.threads && w.threads[0] == Approving(r, BlankContext(), Some(map[]), Some(acc))
  }

  /** The user logs in on a request id of their own making, and approves. */
  function Ask(w: World, r: string, acc: ClaimSet): World { Approve(Login(w, r, "u"), 0, r, Some(map[]), Some(acc)) }

  lemma Asked(w: World, r: string, acc: ClaimSet)
    requires 0 !in w.threads && r !in w.srv.authContext
    ensures var w' := Ask(w, r, acc);
            && Asking(w', r, acc) && w'.srv.authContext == w.srv.authContext[r := BlankContext()]
                && w'.seen == w.seen + {r} && w'.threads == w.threads[0 := w'.threads[0]]
            && w'.srv == w.srv.(authContext := w'.srv.authContext)
            && w' == w.(srv := w'.srv, seen := w'.seen, threads := w'.threads, past := w'.past)
  {}

  /** What the commit leaves: one session, whose entry says what was approved. */
  lemma Recorded(cfg: Config, w: World, r: string, acc: ClaimSet, found: Option<string>, cookie: string, csid: string)
    requires Asking(w, r, acc) && Unused(cfg, w, cookie) && Unused(cfg, w, csid) && cookie != csid
    requires FoundBySub(w.srv.sessions, InternalSub("u"), found)
    requires ApprovedSession(cfg, w.srv, BlankContext(), found, cookie, csid, Some(map[]), Some(acc))
               == SessionWith(ApprovedEntry(cfg, acc))
    ensures var w' := Commit(cfg, w, 0, found, cookie, csid);
            && w'.srv.sessions == w.srv.sessions["cookie" := SessionWith(ApprovedEntry(cfg, acc))]
            && w'.srv.clients == w.srv.clients && w'.srv.authContext == w.srv.authContext - {r}
                && w'.srv.codeMeta == w.srv.codeMeta
            && w'.threads == w.threads[0 := IssuingCode(SessionWith(ApprovedEntry(cfg, acc)), "", "", "")]
            && w'.seen == w.seen + {cookie, csid} && w'.granted == w.granted && w'.responses == w.responses
                && w'.now == w.now
  {
    hide ApprovedSession, ApprovedEntry, Unused, CsidFor;
  }

  lemma NewSession(cfg: Config, s: State)
    ensures ApprovedSession(cfg, s, BlankContext(), None, "cookie", "csid", Some(map[]), Some(FIRST))
              == SessionWith(ApprovedEntry(cfg, FIRST))
  {
    hide AdvertisedSub;
  }

  lemma SameSession(cfg: Config, s: State)
    requires "cookie" in s.sessions && s.sessions["cookie"] == SessionWith(StampCsid(ApprovedEntry(cfg, FIRST)))
    ensures ApprovedSession(cfg, s, BlankContext(), Some("cookie"), "x", "y", Some(map[]), Some(LATER))
              == SessionWith(ApprovedEntry(cfg, LATER))
  {
    hide AdvertisedSub, StampCsid;
    StampedId(ApprovedEntry(cfg, FIRST));
    var css := s.sessions["cookie"].clientSessions;
    assert FindClient(css, "") == 0;
    assert css[0 := ApprovedEntry(cfg, LATER)] == [ApprovedEntry(cfg, LATER)];
  }

  lemma StampedId(cs: ClientSession)
    ensures StampCsid(cs).sessionID == cs.sessionID && StampCsid(cs).clientID == cs.clientID
  {}

  lemma RunApproval(cfg: Config, w: World, r: string, acc: ClaimSet, found: Option<string>, cookie: string,
                    csid: string)
    ensures Run(cfg, w, [ELogin(r, "u"), EApprove(0, r, Some(map[]), Some(acc)), ECommit(0, found, cookie, csid)])
         == Commit(cfg, Ask(w, r, acc), 0, found, cookie, csid)
  {
    hide Run, Login, Approve, Commit;
    RunThree(cfg, w, ELogin(r, "u"), EApprove(0, r, Some(map[]), Some(acc)), ECommit(0, found, cookie, csid));
  }

  lemma FirstNames(cfg: Config, w: World)
    requires PlainNames(cfg) && w.seen == {"", "r1"}
    ensures Unused(cfg, w, "cookie") && Unused(cfg, w, "csid") && "cookie" != "csid"
  {}

  lemma LaterNames(cfg: Config, w: World)
    requires PlainNames(cfg) && w.seen == {"", "r1", "cookie", "csid", "code"} + {"r2"}
    ensures Unused(cfg, w, "x") && Unused(cfg, w, "y") && "x" != "y"
  {}

  lemma CodeName(cfg: Config, w: World)
    requires PlainNames(cfg) && w.seen == {"", "r1", "cookie", "csid"}
    ensures Unused(cfg, w, "code")
  {}

  // ---------------------------------------------------------------- approval, grant, approval

  function Approval(): seq<Event> {
    [ELogin("r1", "u"), EApprove(0, "r1", Some(map[]), Some(FIRST)), ECommit(0, None, "cookie", "csid")]
  }

  ghost predicate AfterApproval(cfg: Config, w: World) {
    && w.srv.sessions == map["cookie" := SessionWith(ApprovedEntry(cfg, FIRST))]
    && w.srv.clients == map[] && w.srv.authContext == map[] && w.srv.codeMeta == map[]
    && w.threads == map[0 := IssuingCode(SessionWith(ApprovedEntry(cfg, FIRST)), "", "", "")]
    && w.seen == {"", "r1", "cookie", "csid"} && w.granted == [] && w.responses == [] && w.now == SECOND
  }

  lemma ApprovedFirst(cfg: Config)
    requires PlainNames(cfg)
    ensures AfterApproval(cfg, Run(cfg, Start(SECOND), Approval()))
  {
    hide Run, Commit, ApprovedSession, ApprovedEntry, Ask, Unused, PlainNames;
    var w0 := Start(SECOND);
    var w2 := Ask(w0, "r1", FIRST);
    Asked(w0, "r1", FIRST);
    RunApproval(cfg, w0, "r1", FIRST, None, "cookie", "csid");
    assert w2.seen == {"", "r1"};
    FirstNames(cfg, w2);
    NewSession(cfg, w2.srv);
    Recorded(cfg, w2, "r1", FIRST, None, "cookie", "csid");
    assert w2.srv.authContext - {"r1"} == map[];
  }

  function Granting(): seq<Event> { [EIssueCode(0, "code"), EPresentCode(1, "code", "", NOTHING_SHOWN), ECheckCode(1)] }

  ghost predicate AfterGrant(cfg: Config, w: World) {
    && w.srv.sessions == map["cookie" := SessionWith(StampCsid(ApprovedEntry(cfg, FIRST)))]
    && w.srv.clients == map[] && w.srv.authContext == map[]
    && w.threads == map[1 := Authenticating(FirstTicket(cfg))]
    && w.seen == {"", "r1", "cookie", "csid", "code"} && w.granted == [FirstGrant(cfg)] && w.responses == []
        && w.now == SECOND
  }

  ghost predicate CodeInHand(cfg: Config, w: World, w': World) {
    && w'.srv.sessions == w.srv.sessions && w'.srv.clients == w.srv.clients && w'.srv.authContext == w.srv.authContext
    && w'.threads == map[1 := CodeTaken("code", CodeMeta("cookie", "", ""), "", NOTHING_SHOWN)]
    && w'.seen == w.seen + {"code"} && w'.granted == w.granted && w'.responses == w.responses && w'.now == w.now
  }

  lemma CodeIssued(cfg: Config, w: World, sess: Session)
    requires w.threads == map[0 := IssuingCode(sess, "", "", "")] && sess.cookieID == "cookie" && Unused(cfg, w, "code")
    ensures var w' := IssueCode(cfg, w, 0, "code");
            && w'.srv == w.srv.(codeMeta := w'.srv.codeMeta) && w'.threads == map[]
            && "code" in w'.srv.codeMeta && w'.srv.codeMeta["code"] == CodeMeta("cookie", "", "")
            && w'.seen == w.seen + {"code"} && w'.granted == w.granted && w'.responses == w.responses && w'.now == w.now
  {
    hide FindClient, Unused;
  }

  lemma CodeGoes(cfg: Config, w: World, sess: Session)
    requires w.threads == map[0 := IssuingCode(sess, "", "", "")] && sess.cookieID == "cookie" && Unused(cfg, w, "code")
    ensures CodeInHand(cfg, w, PresentCode(IssueCode(cfg, w, 0, "code"), 1, "code", "", NOTHING_SHOWN))
  {
    hide IssueCode, Unused;
    CodeIssued(cfg, w, sess);
  }

  lemma CodeChecks(cfg: Config, w: World)
    requires w.srv.sessions == map["cookie" := SessionWith(ApprovedEntry(cfg, FIRST))] && w.granted == []
    requires w.threads == map[1 := CodeTaken("code", CodeMeta("cookie", "", ""), "", NOTHING_SHOWN)]
    ensures CheckCode(cfg, w, 1) == GrantTo(cfg, w, 1, FromCode("code", "", NoMethod, ""), "cookie", 0, "",
              NOTHING_SHOWN)
  {
    hide GrantTo, AdvertisedSub;
    var cs := ApprovedEntry(cfg, FIRST);
    assert FindClient([cs], "") == 0;
  }

  lemma GrantMade(cfg: Config, w: World)
    requires w.srv.sessions == map["cookie" := SessionWith(ApprovedEntry(cfg, FIRST))] && w.granted == []
    ensures var w' := GrantTo(cfg, w, 1, FromCode("code", "", NoMethod, ""), "cookie", 0, "", NOTHING_SHOWN);
            && w'.srv.sessions == map["cookie" := SessionWith(StampCsid(ApprovedEntry(cfg, FIRST)))]
            && w'.srv.clients == w.srv.clients && w'.srv.authContext == w.srv.authContext
            && w'.threads == w.threads[1 := Authenticating(FirstTicket(cfg))]
            && w'.seen == w.seen && w'.granted == [FirstGrant(cfg)] && w'.responses == w.responses && w'.now == w.now
  {
    hide GrantOf, StampCsid, ApprovedEntry;
    var cs := ApprovedEntry(cfg, FIRST);
    assert [cs][0 := StampCsid(cs)] == [StampCsid(cs)];
  }

  lemma GrantedFirst(cfg: Config, w: World)
    requires PlainNames(cfg) && AfterApproval(cfg, w)
    ensures AfterGrant(cfg, Run(cfg, w, Granting()))
  {
    hide Run, IssueCode, PresentCode, CheckCode, GrantTo, ApprovedEntry, StampCsid, FirstGrant, Unused, PlainNames;
    var w2 := PresentCode(IssueCode(cfg, w, 0, "code"), 1, "code", "", NOTHING_SHOWN);
    RunThree(cfg, w, Granting()[0], Granting()[1], Granting()[2]);
    CodeName(cfg, w);
    CodeGoes(cfg, w, SessionWith(ApprovedEntry(cfg, FIRST)));
    CodeChecks(cfg, w2);
    GrantMade(cfg, w2);
    assert w2.threads[1 := Authenticating(FirstTicket(cfg))] == map[1 := Authenticating(FirstTicket(cfg))];
  }

  function Reapproval(): seq<Event> {
    [ELogin("r2", "u"), EApprove(0, "r2", Some(map[]), Some(LATER)), ECommit(0, Some("cookie"), "x", "y")]
  }

  ghost predicate AfterBoth(cfg: Config, w: World) {
    && w.srv.sessions == map["cookie" := SessionWith(ApprovedEntry(cfg, LATER))] && w.srv.clients == map[]
    && 1 in w.threads && w.threads[1] == Authenticating(FirstTicket(cfg)) && 2 !in w.threads
    && w.granted == [FirstGrant(cfg)] && w.responses == [] && w.now == SECOND
  }

  lemma ApprovedAgain(cfg: Config, w: World)
    requires PlainNames(cfg) && AfterGrant(cfg, w)
    ensures AfterBoth(cfg, Run(cfg, w, Reapproval()))
  {
    hide Run, Commit, ApprovedSession, ApprovedEntry, StampCsid, FirstGrant, FirstTicket, Ask, Unused, PlainNames;
    var w2 := Ask(w, "r2", LATER);
    Asked(w, "r2", LATER);
    RunApproval(cfg, w, "r2", LATER, Some("cookie"), "x", "y");
    LaterNames(cfg, w2);
    SameSession(cfg, w2.srv);
    assert FoundBySub(w2.srv.sessions, InternalSub("u"), Some("cookie"));
    Recorded(cfg, w2, "r2", LATER, Some("cookie"), "x", "y");
    assert w2.srv.sessions["cookie" := SessionWith(ApprovedEntry(cfg, LATER))]
        == map["cookie" := SessionWith(ApprovedEntry(cfg, LATER))];
  }

  // ---------------------------------------------------------------- the answer, and a refresh

  /** The first approval's grant is answered only now, and leaves its own claims on file. */
  function Filed(cfg: Config): ClientSession {
    WithIssued(ApprovedEntry(cfg, LATER), FirstGrant(cfg), IssueFor(cfg, FirstGrant(cfg), SECOND))
  }

  function FirstAccessToken(cfg: Config): Token {
    Token(AccessKind, IssueFor(cfg, FirstGrant(cfg), SECOND).access, "csid")
  }

  function Answering(): seq<Event> { [EAuthenticate(1), ERespond(1)] }

  ghost predicate AfterAnswer(cfg: Config, w: World, w': World) {
    && w'.srv.sessions == map["cookie" := SessionWith(Filed(cfg))] && w'.srv.clients == map[] && 2 !in w'.threads
    && FirstAccessToken(cfg) in w'.minted && w'.now == SECOND
    && |w'.responses| == 1 && w'.responses[0].ticket == FirstTicket(cfg)
    && w'.granted == w.granted && w'.approvals == w.approvals
  }

  lemma FirstNamesNobody(cfg: Config)
    ensures FirstGrant(cfg).clientID == "" && FirstGrant(cfg).csid == "csid" && FirstGrant(cfg).cookieID == "cookie"
  {}

  lemma AutoAdmits(w: World, t: nat, ticket: Ticket)
    requires t in w.threads && w.threads[t] == Authenticating(ticket) && ticket.g.clientID !in w.srv.clients
    ensures Authenticate(w, t) == Goto(w, t, Responding(ticket, NoRegistration, None))
  {}

  lemma Responds(cfg: Config, w: World, t: nat, ticket: Ticket)
    requires t in w.threads && w.threads[t] == Responding(ticket, NoRegistration, None)
    ensures var w', issued := Respond(cfg, w, t), IssueFor(cfg, ticket.g, w.now);
            && w'.srv == StoreIssued(w.srv, ticket.g, issued) && w'.threads == w.threads - {t} && w'.now == w.now
            && w'.minted == w.minted + TokensOf(ticket.g, issued)
            && w'.responses == w.responses + [Response(ticket, NoRegistration, None, w.now)]
            && w'.granted == w.granted && w'.approvals == w.approvals
  {
    hide StoreIssued, IssueFor, TokensOf;
  }

  /** A client that nobody registered is answered without being asked for anything. */
  lemma Answered(cfg: Config, w: World, t: nat, ticket: Ticket)
    requires t in w.threads && w.threads[t] == Authenticating(ticket) && ticket.g.clientID !in w.srv.clients
    ensures var w', issued := Respond(cfg, Authenticate(w, t), t), IssueFor(cfg, ticket.g, w.now);
            && w'.srv == StoreIssued(w.srv, ticket.g, issued) && w'.now == w.now
            && (forall u :: u !in w.threads ==> u !in w'.threads)
            && w'.minted == w.minted + TokensOf(ticket.g, issued)
            && w'.responses == w.responses + [Response(ticket, NoRegistration, None, w.now)]
            && w'.granted == w.granted && w'.approvals == w.approvals
  {
    hide StoreIssued, IssueFor, TokensOf, Authenticate, Respond;
    AutoAdmits(w, t, ticket);
    Responds(cfg, Goto(w, t, Responding(ticket, NoRegistration, None)), t, ticket);
  }

  lemma FilesFirst(cfg: Config, s: State)
    requires s.sessions == map["cookie" := SessionWith(ApprovedEntry(cfg, LATER))]
    ensures var s' := StoreIssued(s, FirstGrant(cfg), IssueFor(cfg, FirstGrant(cfg), SECOND));
            s'.sessions == map["cookie" := SessionWith(Filed(cfg))] && s'.clients == s.clients
  {
    hide IssueFor, FirstGrant, AdvertisedSub, WithIssued;
    FirstNamesNobody(cfg);
    var css := [ApprovedEntry(cfg, LATER)];
    assert FindCsid(css, "csid") == 0;
    assert css[0 := Filed(cfg)] == [Filed(cfg)];
  }

  lemma RunAnswer(cfg: Config, w: World)
    ensures Run(cfg, w, Answering()) == Respond(cfg, Authenticate(w, 1), 1)
  {
    hide Run, Authenticate, Respond;
    RunTwo(cfg, w, EAuthenticate(1), ERespond(1));
  }

  lemma AnsweredLate(cfg: Config, w: World)
    requires AfterBoth(cfg, w)
    ensures AfterAnswer(cfg, w, Run(cfg, w, Answering()))
  {
    hide Run, Authenticate, Respond, StoreIssued, IssueFor, FirstGrant, Filed, ApprovedEntry, TokensOf, Apply;
    RunAnswer(cfg, w);
    FirstNamesNobody(cfg);
    Answered(cfg, w, 1, FirstTicket(cfg));
    FilesFirst(cfg, w.srv);
    AccessGiven(FirstGrant(cfg), IssueFor(cfg, FirstGrant(cfg), SECOND));
  }

  lemma AccessGiven(g: Grant, issued: Issued)
    ensures Token(AccessKind, issued.access, g.csid) in TokensOf(g, issued)
  {}

  function Refreshing(cfg: Config): seq<Event> {
    [EPresentToken(2, FirstAccessToken(cfg), NOTHING_SHOWN, Some("cookie")), EAuthenticate(2), ERespond(2)]
  }

  function RefreshedGrant(cfg: Config): Grant { GrantOf(cfg, "cookie", SessionWith(Filed(cfg)), Filed(cfg), "") }

  lemma FiledSays(cfg: Config)
    ensures Filed(cfg).sessionID == "csid" && Filed(cfg).clientID == ""
    ensures StringClaim(FirstAccessToken(cfg).claims, Csid) == "csid"
    ensures RefreshedGrant(cfg).clientID == "" && RefreshedGrant(cfg).csid == "csid"
  {
    hide AdvertisedSub, AccessAudience;
  }

  lemma TokenAccepted(cfg: Config, w: World)
    requires w.srv.sessions == map["cookie" := SessionWith(Filed(cfg))] && 2 !in w.threads
               && FirstAccessToken(cfg) in w.minted
    ensures PresentToken(cfg, w, 2, FirstAccessToken(cfg), NOTHING_SHOWN, Some("cookie"))
         == GrantTo(cfg, w, 2, FromToken(FirstAccessToken(cfg)), "cookie", 0, "", NOTHING_SHOWN)
  {
    hide GrantTo, Filed, FirstAccessToken;
    FiledSays(cfg);
    assert FindCsid([Filed(cfg)], "csid") == 0;
  }

  lemma Regranted(cfg: Config, w: World, w0: World)
    requires AfterAnswer(cfg, w0, w)
    ensures var w' := GrantTo(cfg, w, 2, FromToken(FirstAccessToken(cfg)), "cookie", 0, "", NOTHING_SHOWN);
            && 2 in w'.threads && w'.threads[2].Authenticating? && w'.threads[2].ticket.g == RefreshedGrant(cfg)
            && w'.threads[2].ticket.serial == |w0.granted|
            && w'.srv.clients == map[] && w'.responses == w.responses && w'.approvals == w.approvals
  {
    hide GrantOf, Filed, FirstAccessToken, FirstGrant;
  }

  lemma RefreshedLate(cfg: Config, w: World, w0: World)
    requires AfterAnswer(cfg, w0, w)
    ensures var w' := Run(cfg, w, Refreshing(cfg));
            && |w'.responses| == 2 && w'.responses[0].ticket == FirstTicket(cfg)
            && w'.responses[1].ticket.g == RefreshedGrant(cfg) && w'.responses[1].ticket.serial == |w0.granted|
            && w'.approvals == w0.approvals
  {
    hide Run, Authenticate, Respond, StoreIssued, IssueFor, FirstGrant, Filed, ApprovedEntry, PresentToken, GrantTo;
    hide FirstAccessToken, RefreshedGrant, TokensOf;
    RunThree(cfg, w, Refreshing(cfg)[0], Refreshing(cfg)[1], Refreshing(cfg)[2]);
    TokenAccepted(cfg, w);
    Regranted(cfg, w, w0);
    FiledSays(cfg);
    var w1 := GrantTo(cfg, w, 2, FromToken(FirstAccessToken(cfg)), "cookie", 0, "", NOTHING_SHOWN);
    Answered(cfg, w1, 2, w1.threads[2].ticket);
  }

  // ---------------------------------------------------------------- the failing run

  lemma SayDifferently(cfg: Config)
    ensures var b := Baseline(EntryGrant(ApprovedEntry(cfg, LATER)), false);
            !Says(cfg, FirstGrant(cfg), b) && !Says(cfg, RefreshedGrant(cfg), b)
  {
    hide AdvertisedSub, AccessAudience;
    var b := Baseline(EntryGrant(ApprovedEntry(cfg, LATER)), false);
    assert AccessContent(cfg, b.g)[TokenUse] == Str("later");
    assert AccessContent(cfg, FirstGrant(cfg))[TokenUse] == Str("first");
    assert AccessContent(cfg, RefreshedGrant(cfg))[TokenUse] == Str("first");
  }

  /** Approved, redeemed, approved again, answered, refreshed: the second approval's claims are on
      file, no other approval follows, and yet neither the late answer nor the refresh after it says
      what was approved last. The one condition of AnswersSayExactly is what fails. */
  lemma StaleGrantFails(cfg: Config)
    requires PlainNames(cfg)
    ensures var w := Run(cfg, Start(SECOND), Approval() + Granting() + Reapproval());
            var later := Answering() + Refreshing(cfg);
            var w' := Run(cfg, w, later);
            && ClearRun(cfg, w, "cookie", 0, false, later)
            && w.srv.sessions["cookie"].clientSessions[0] == ApprovedEntry(cfg, LATER)
            && |w.responses| == 0 && |w'.responses| == 2
            && var b := Baseline(EntryGrant(ApprovedEntry(cfg, LATER)), false);
               && w'.responses[0].ticket.serial < |w.granted| && !Says(cfg, w'.responses[0].ticket.g, b)
               && |w.granted| <= w'.responses[1].ticket.serial && !Says(cfg, w'.responses[1].ticket.g, b)
               && w'.responses[0].ticket.g.csid == b.g.csid && w'.responses[1].ticket.g.csid == b.g.csid
  {
    hide Run, AfterApproval, AfterGrant, Says, ApprovedEntry, FirstGrant, RefreshedGrant, Approval, Granting;
    hide Reapproval, Answering, Refreshing;
    var w0 := Start(SECOND);
    var w1, w2 := Run(cfg, w0, Approval()), Run(cfg, w0, Approval() + Granting());
    var w := Run(cfg, w0, Approval() + Granting() + Reapproval());
    ApprovedFirst(cfg);
    RunOn(cfg, w0, Approval(), Granting());
    GrantedFirst(cfg, w1);
    RunOn(cfg, w0, Approval() + Granting(), Reapproval());
    ApprovedAgain(cfg, w2);
    var w3 := Run(cfg, w, Answering());
    AnsweredLate(cfg, w);
    RunOn(cfg, w, Answering(), Refreshing(cfg));
    RefreshedLate(cfg, w3, w);
    SayDifferently(cfg);
    FirstNamesNobody(cfg);
    FiledSays(cfg);
    EntryIds(cfg);
    assert Reachable(cfg, w);
  }

  lemma EntryIds(cfg: Config)
    ensures EntryGrant(ApprovedEntry(cfg, LATER)).csid == "csid" && ApprovedEntry(cfg, LATER).sessionID == "csid"
  {}
}
