// The BFF's handlers as code: the callback that starts a session, and the forwarder that
// keeps its access token fresh. Run without interruption, the forwarder does exactly what
// the step machine's steps do one after the other.
module BffHandler {
  import opened Lists
  import opened Scopes
  import opened BffSessions
  import opened StateClaims
  import opened BffRuns

  /** All steps of one proxied request, with nothing in between. */
  function ForwardAtOnce(canRefresh: bool, w: World, t: nat, raw: Option<string>, d1: nat, d2: nat,
                         answer: Option<TokenSet>, id: Option<string>): World {
    RefreshAtOnce(Forward(canRefresh, w, t, raw, d1, d2), t, answer, id)
  }

  function RefreshAtOnce(w: World, t: nat, answer: Option<TokenSet>, id: Option<string>): World {
    DestroyOld(SaveNew(DropOld(RefreshDone(w, t, answer), t), t, id), t)
  }

  lemma NothingToRefresh(w: World, t: nat, answer: Option<TokenSet>, id: Option<string>)
    requires t !in w.threads
    ensures RefreshAtOnce(w, t, answer, id) == w
  {}

  /** What a refresh comes to: the new session's token if it is answered and saved; otherwise the old
      token unless it had expired, and then no token and no session. */
  lemma RefreshComesTo(w: World, t: nat, f: Flight, answer: Option<TokenSet>, id: Option<string>)
    requires t in w.threads && w.threads[t] == Refreshing(f) && f.from < |w.saved|
               && (id.Some? ==> id.value !in w.index)
    ensures var w', s := RefreshAtOnce(w, t, answer, id), w.saved[f.from].session;
            var dropped := AfterDrop(w.items, f.raw);
            && t !in w'.threads
            && if answer.Some? && id.Some? then
                 var next := Refreshed(s, answer.value);
                 && Succeeds(next, s, answer.value)
                 && w'.items == AfterSave(dropped, id.value, next, w.now)
                 && w'.injected == w.injected + [Injection(next.accessToken, f.raw, f.from, Some(|w.saved|), f.at)]
               else if f.expired then w'.items == dropped && w'.injected == w.injected
               else
                 && w'.items == (if answer.Some? then dropped else w.items)
                 && w'.injected == w.injected + [Injection(s.accessToken, f.raw, f.from, None, f.at)]
  {
    hide Refreshed, Succeeds;
    if answer.Some? { RefreshedSucceeds(w.saved[f.from].session, answer.value); }
  }

  /** What a callback request carries, and what the identity provider answers to its code:
      None when the exchange fails or the ID token does not verify. */
  datatype CallbackRequest = CallbackRequest(
    stateCookie: Option<string>,
    state: string,
    verifierCookie: Option<string>,
    code: string,
    answer: Option<TokenSet>)

  /** The checks before the state is claimed. */
  predicate WellFormed(r: CallbackRequest) {
    && r.stateCookie.Some? && r.state != "" && r.stateCookie.value == r.state
    && r.verifierCookie.Some? && r.verifierCookie.value != ""
    && r.code != ""
  }

  /** What becomes of a proxied request. */
  datatype Outcome = Untouched | Refused | WithBearer(token: string)

  /** A request the forwarder has no business with. */
  predicate PassesBy(apiPrefix: string, path: string, authorization: string) {
    (!(apiPrefix + "/" <= path) && path != apiPrefix) || "Bearer " <= TrimSpace(authorization)
  }

  class Handler {
    const sessions: Manager
    const stateClaims: StateClaims
    const canRefresh: bool
    const apiPrefix: string

    constructor (sessions: Manager, stateClaims: StateClaims, canRefresh: bool, apiPrefix: string)
      ensures this.sessions == sessions && this.stateClaims == stateClaims
      ensures this.canRefresh == canRefresh && this.apiPrefix == if apiPrefix == "" then "/api" else apiPrefix
    {
      this.sessions, this.stateClaims, this.canRefresh := sessions, stateClaims, canRefresh;
      this.apiPrefix := if apiPrefix == "" then "/api" else apiPrefix;
    }

    /** A session is created if and only if the request is well formed, wins its state, and the
        code is exchanged; a well-formed request uses its state up either way. */
    method Callback(r: CallbackRequest, csrf: string, id: Option<string>, claimedAt: int,
                    now: int) returns (created: bool)
      modifies sessions.store, stateClaims
      ensures stateClaims.Model() == if WellFormed(r) then Claimed(old(stateClaims.Model()), stateClaims.ttl,
                Call(r.state, claimedAt))
                                     else old(stateClaims.Model())
      ensures created <==> && r.stateCookie == Some(r.state) && r.state != ""
                           && r.verifierCookie.Some? && r.verifierCookie.value != "" && r.code != ""
                           && Accepts(old(stateClaims.Model()), stateClaims.ttl, Call(r.state, claimedAt))
                           && r.answer.Some? && id.Some?
      ensures sessions.store.items
           == if created
              then AfterSave(old(sessions.store.items), id.value,
                             BffSession(r.answer.value.accessToken, r.answer.value.refreshToken,
                                 r.answer.value.idToken, csrf,
                                        r.answer.value.expiry), now)
              else old(sessions.store.items)
    {
      if r.stateCookie.None? || r.state == "" || r.stateCookie.value != r.state { return false; }
      if r.verifierCookie.None? || r.verifierCookie.value == "" { return false; }
      if r.code == "" { return false; }
      var ok := stateClaims.Claim(r.stateCookie.value, claimedAt);
      if !ok { return false; }
      if r.answer.None? { return false; }
      var tokens := r.answer.value;
      var cookie := sessions.Create(BffSession(tokens.accessToken, tokens.refreshToken, tokens.idToken, csrf,
          tokens.expiry), now, id);
      return cookie.Some?;
    }

    /** None when the refresh or the rotation fails. */
    method RefreshAccessToken(raw: Option<string>, current: BffSession, answer: Option<TokenSet>, now: int,
                              id: Option<string>)
      returns (updated: Option<BffSession>)
      modifies sessions.store
      ensures updated == if answer.Some? && id.Some? then Some(Refreshed(current, answer.value)) else None
      ensures updated.Some? ==> Succeeds(updated.value, current, answer.value)
      ensures answer.None? ==> sessions.store.items == old(sessions.store.items)
      ensures answer.Some? ==>
                var dropped := AfterDrop(old(sessions.store.items), raw);
                sessions.store.items == if id.Some? then AfterSave(dropped, id.value,
                    Refreshed(current, answer.value), now) else dropped
    {
      if answer.None? { return None; }
      var token := answer.value;
      var next := current;
      next := next.(accessToken := token.accessToken);
      next := next.(expiry := token.expiry);
      if token.refreshToken != "" { next := next.(refreshToken := token.refreshToken); }
      if token.idToken != "" { next := next.(idToken := token.idToken); }
      var cookie := sessions.Rotate(raw, next, now, id);
      if cookie.None? { return None; }
      return Some(next);
    }

    /** A request outside the API, or with a bearer token of its own, is passed on as it came and
        touches no session. Any other does what the steps of the machine do; `w` is the model's view. */
    method TokenForwarder(path: string, authorization: string, raw: Option<string>, now: int, d1: nat, d2: nat,
                          answer: Option<TokenSet>, id: Option<string>, ghost w: World, ghost t: nat)
      returns (out: Outcome)
      requires Inv(canRefresh, w) && w.items == sessions.store.items && w.now == now && t !in w.threads
      requires id.Some? ==> id.value !in w.index
      modifies sessions.store
      ensures out == Untouched <==> PassesBy(apiPrefix, path, authorization)
      ensures out == Untouched ==> sessions.store.items == old(sessions.store.items)
      ensures out != Untouched ==>
                var w' := ForwardAtOnce(canRefresh, w, t, raw, d1, d2, answer, id);
                && sessions.store.items == w'.items && t !in w'.threads
                && (out == Refused ==> w'.injected == w.injected)
                && (out.WithBearer? ==>
                      |w'.injected| == |w.injected| + 1 && w'.injected[|w.injected|].bearer == out.token)
    {
      hide Inv, AfterGet, AfterSave, LoadedItem, Refreshed, Succeeds, RefreshAtOnce, Failed;
      if !(apiPrefix + "/" <= path) && path != apiPrefix { return Untouched; }
      if "Bearer " <= TrimSpace(authorization) { return Untouched; }
      var got := sessions.Get(raw, now);
      if got.Some? { GotSaved(canRefresh, w, raw); }
      ghost var asked := Forward(canRefresh, w, t, raw, d1, d2);
      if t !in asked.threads { NothingToRefresh(asked, t, answer, id); }
      else { RefreshComesTo(asked, t, asked.threads[t].f, answer, id); }
      if got.None? || TrimSpace(got.value.accessToken) == "" { return Refused; }
      var current := got.value;
      if canRefresh && current.refreshToken != "" && current.expiry.Some? {
        var expired := now + d1 > current.expiry.value;
        var near := now + d1 + d2 + REFRESH_THRESHOLD > current.expiry.value;
        if expired || near {
          var refreshed := RefreshAccessToken(raw, current, answer, now + d1 + d2, id);
          if refreshed.None? {
            if expired {
              sessions.Destroy(raw);
              return Refused;
            }
          } else {
            current := refreshed.value;
          }
        }
      }
      return WithBearer(current.accessToken);
    }
  }

  /** The forwarder's request is a run of the step machine, so every theorem about runs holds of it. */
  lemma AtOnceIsRun(canRefresh: bool, w: World, t: nat, raw: Option<string>, d1: nat, d2: nat,
                    answer: Option<TokenSet>, id: Option<string>)
    ensures var events := [EForward(t, raw, d1, d2), ERefreshDone(t, answer), EDropOld(t), ESaveNew(t, id),
              EDestroyOld(t)];
            Run(canRefresh, w, events) == ForwardAtOnce(canRefresh, w, t, raw, d1, d2, answer, id)
  {
    hide Forward, RefreshDone, DropOld, SaveNew, DestroyOld;
    var events := [EForward(t, raw, d1, d2), ERefreshDone(t, answer), EDropOld(t), ESaveNew(t, id), EDestroyOld(t)];
    assert events[..4][..3] == events[..3] && events[..3][..2] == events[..2] && events[..2][..1] == events[..1];
    assert events[..1][..0] == [];
    assert Run(canRefresh, w, events[..1]) == Forward(canRefresh, w, t, raw, d1, d2);
    assert Run(canRefresh, w, events[..2]) == RefreshDone(Run(canRefresh, w, events[..1]), t, answer);
    assert Run(canRefresh, w, events[..3]) == DropOld(Run(canRefresh, w, events[..2]), t);
    assert Run(canRefresh, w, events[..4]) == SaveNew(Run(canRefresh, w, events[..3]), t, id);
  }

  /** A request whose token had expired and could not be replaced is not forwarded, and leaves its
      cookie with no session - if and only if the cookie was sent without surrounding space. */
  lemma ExpiredIsLoggedOut(w: World, raw: string, f: Flight, t: nat)
    requires Got(w.items, Some(raw), w.now).Some? && f.raw == Some(raw) && f.expired && f.from < |w.saved|
    ensures var w' := DestroyOld(Failed(w, t, f), t);
            && w'.injected == w.injected
            && (Got(w'.items, Some(raw), w'.now).None? <==> !IsSpace(raw[0]) && !IsSpace(raw[|raw| - 1]))
  {
    RevokedExactly(w.items, raw, w.now);
  }
}
