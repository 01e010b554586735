// The BFF's proxied requests as a step machine: a request that finds its access token near
// expiry refreshes it, replaces its session, and goes on - while other requests, with the
// same cookie or another, do the same.
module BffRuns {
  import opened Lists
  import opened Scopes
  import opened Claims
  import opened BffSessions

  /** An answer of the identity provider: to a login's code, or to a session's refresh token. */
  datatype Answer = Answer(to: Option<nat>, tokens: TokenSet)

  /** A session ever saved, the one it replaced - a login replaces none - and the answer it is from. */
  datatype Saved = Saved(session: BffSession, parent: Option<nat>, answer: nat)

  /** A request in flight: `from` is the session it loaded, at the reading `at`. */
  datatype Flight = Flight(raw: Option<string>, from: nat, at: int, expired: bool)

  datatype PC =
    | Refreshing(f: Flight)
    | Dropping(f: Flight, updated: BffSession, answer: nat)
    | Saving(f: Flight, updated: BffSession, answer: nat)
    | Destroying(f: Flight)

  /** A bearer token sent upstream: with the request's cookie, the session that got it, if it was refreshed for this
      request the new session, and the reading the old one's expiry was checked at. */
  datatype Injection = Injection(bearer: string, raw: Option<string>, from: nat, refreshed: Option<nat>, at: int)

  datatype World = World(
    items: Items,
    threads: map<nat, PC>,
    now: int,
    // what has happened
    saved: seq<Saved>,
    answers: seq<Answer>,          // every answer the identity provider gave
    index: map<string, nat>,       // the session saved under each store token
    csrfs: set<string>,            // CSRF tokens drawn
    injected: seq<Injection>)

  function Start(now: int): World { World(map[], map[], now, [], [], map[], {}, []) }

  function End(w: World, t: nat): World { w.(threads := w.threads - {t}) }

  function Inject(w: World, inj: Injection): World { w.(injected := w.injected + [inj]) }

  /** Create, under a fresh token. */
  function Keep(w: World, id: string, s: BffSession, parent: Option<nat>, answer: nat): World {
    w.(items := AfterSave(w.items, id, s, w.now), saved := w.saved + [Saved(s, parent, answer)],
        index := w.index[id := |w.saved|])
  }

  /** The callback after a login: a new session with a new CSRF token. */
  function Callback(w: World, tokens: TokenSet, csrf: string, id: Option<string>): World {
    if csrf in w.csrfs || id.None? || id.value in w.index then w
    else
      Keep(w.(csrfs := w.csrfs + {csrf}, answers := w.answers + [Answer(None, tokens)]), id.value,
           BffSession(tokens.accessToken, tokens.refreshToken, tokens.idToken, csrf, tokens.expiry), None, |w.answers|)
  }

  /** TokenForwarder up to the decision to refresh. The clock is read once for the store, and
      after `d1` and `d2` more for the two comparisons with the token's expiry. */
  function Forward(canRefresh: bool, w: World, t: nat, raw: Option<string>, d1: nat, d2: nat): World {
    if t in w.threads then w
    else
      var got := Got(w.items, raw, w.now);
      var w' := w.(items := AfterGet(w.items, raw, w.now), now := w.now + d1 + d2);
      if got.None? || TrimSpace(got.value.accessToken) == "" || TrimSpace(raw.value) !in w.index then w'
      else
        var from := w.index[TrimSpace(raw.value)];
        var checked := w.now + d1;
        var current := got.value;
        if !canRefresh || current.refreshToken == "" || current.expiry.None?
        then Inject(w', Injection(current.accessToken, raw, from, None, checked))
        else
          var expired := checked > current.expiry.value;
          if expired || checked + d2 + REFRESH_THRESHOLD > current.expiry.value
          then w'.(threads := w'.threads[t := Refreshing(Flight(raw, from, checked, expired))])
          else Inject(w', Injection(current.accessToken, raw, from, None, checked))
  }

  /** A refresh or a rotation failed: fatal only to a request whose token had expired. */
  function Failed(w: World, t: nat, f: Flight): World
    requires f.from < |w.saved|
  {
    if f.expired then w.(threads := w.threads[t := Destroying(f)])
    else End(Inject(w, Injection(w.saved[f.from].session.accessToken, f.raw, f.from, None, f.at)), t)
  }

  function RefreshDone(w: World, t: nat, answer: Option<TokenSet>): World {
    if t !in w.threads || !w.threads[t].Refreshing? || w.threads[t].f.from >= |w.saved| then w
    else
      var f := w.threads[t].f;
      if answer.None? then Failed(w, t, f)
      else
        w.(threads := w.threads[t := Dropping(f, Refreshed(w.saved[f.from].session, answer.value), |w.answers|)],
           answers := w.answers + [Answer(Some(f.from), answer.value)])
  }

  function DropOld(w: World, t: nat): World {
    if t !in w.threads || !w.threads[t].Dropping? then w
    else
      var pc := w.threads[t];
      w.(items := AfterDrop(w.items, pc.f.raw), threads := w.threads[t := Saving(pc.f, pc.updated, pc.answer)])
  }

  function SaveNew(w: World, t: nat, id: Option<string>): World {
    if t !in w.threads || !w.threads[t].Saving? || w.threads[t].f.from >= |w.saved| then w
    else
      var pc := w.threads[t];
      if id.None? then Failed(w, t, pc.f)
      else if id.value in w.index then w
      else
        End(Inject(Keep(w, id.value, pc.updated, Some(pc.f.from), pc.answer),
                   Injection(pc.updated.accessToken, pc.f.raw, pc.f.from, Some(|w.saved|), pc.f.at)), t)
  }

  function DestroyOld(w: World, t: nat): World {
    if t !in w.threads || !w.threads[t].Destroying? then w
    else End(w.(items := AfterDrop(w.items, w.threads[t].f.raw)), t)
  }

  datatype Event =
    | ETick(d: nat)
    | ECallback(tokens: TokenSet, csrf: string, id: Option<string>)
    | EForward(t: nat, raw: Option<string>, d1: nat, d2: nat)
    | ERefreshDone(t: nat, answer: Option<TokenSet>)
    | EDropOld(t: nat)
    | ESaveNew(t: nat, id: Option<string>)
    | EDestroyOld(t: nat)
    | ELook(raw: Option<string>)
    | ELogout(raw: Option<string>)

  function Apply(canRefresh: bool, w: World, e: Event): World {
    match e
    case ETick(d) => w.(now := w.now + d)
    case ECallback(tokens, csrf, id) => Callback(w, tokens, csrf, id)
    case EForward(t, raw, d1, d2) => Forward(canRefresh, w, t, raw, d1, d2)
    case ERefreshDone(t, answer) => RefreshDone(w, t, answer)
    case EDropOld(t) => DropOld(w, t)
    case ESaveNew(t, id) => SaveNew(w, t, id)
    case EDestroyOld(t) => DestroyOld(w, t)
    case ELook(raw) => w.(items := AfterGet(w.items, raw, w.now))
    case ELogout(raw) => w.(items := AfterDrop(w.items, raw))
  }

  function Run(canRefresh: bool, w: World, events: seq<Event>): World {
    if events == [] then w else Apply(canRefresh, Run(canRefresh, w, events[..|events| - 1]), events[|events| - 1])
  }

  // ---------------------------------------------------------------- the invariant

  /** A replacement keeps the CSRF token, and a refresh token if there was one. */
  ghost predicate Follows(s: BffSession, p: BffSession) {
    s.csrfToken == p.csrfToken && (p.refreshToken != "" ==> s.refreshToken != "")
  }

  /** A session holds what this answer brought: after a login that alone, after a refresh the refresh
      and ID tokens of the session before where the answer brought none. */
  ghost predicate FromAnswer(saved: seq<Saved>, answers: seq<Answer>, s: BffSession, parent: Option<nat>, answer: nat) {
    && answer < |answers| && answers[answer].to == parent
    && var t := answers[answer].tokens;
       match parent
       case None =>
         && s.accessToken == t.accessToken && s.refreshToken == t.refreshToken
         && s.idToken == t.idToken && s.expiry == t.expiry
       case Some(p) => p < |saved| && Succeeds(s, saved[p].session, t)
  }

  ghost predicate ParentsFirst(saved: seq<Saved>) {
    forall n :: 0 <= n < |saved| && saved[n].parent.Some? ==> saved[n].parent.value < n
  }

  ghost predicate LineageOk(saved: seq<Saved>, answers: seq<Answer>) {
    && ParentsFirst(saved)
    && forall n :: 0 <= n < |saved| ==> FromAnswer(saved, answers, saved[n].session, saved[n].parent, saved[n].answer)
  }

  /** This request's cookie names this session. */
  ghost predicate CookieOf(index: map<string, nat>, raw: Option<string>, from: nat) {
    raw.Some? && TrimSpace(raw.value) in index && index[TrimSpace(raw.value)] == from
  }

  /** Every login drew a CSRF token of its own. */
  ghost predicate LoginsApart(saved: seq<Saved>, csrfs: set<string>) {
    && (forall n :: 0 <= n < |saved| ==> saved[n].session.csrfToken in csrfs)
    && (forall m, n :: 0 <= m < n < |saved| && saved[m].parent.None? && saved[n].parent.None? ==>
          saved[m].session.csrfToken != saved[n].session.csrfToken)
  }

  ghost predicate StoreOk(w: World) {
    && (forall k :: k in w.index ==> w.index[k] < |w.saved|)
    && (forall k :: k in w.items ==> k in w.index && w.items[k].session == w.saved[w.index[k]].session)
  }

  /** A refresh is under way only for a session that has what it takes. */
  ghost predicate FlightOk(canRefresh: bool, w: World, f: Flight) {
    && f.from < |w.saved| && CookieOf(w.index, f.raw, f.from)
    && var s := w.saved[f.from].session;
       canRefresh && s.refreshToken != "" && s.expiry.Some? && (f.expired <==> f.at > s.expiry.value)
  }

  ghost predicate PcOk(canRefresh: bool, w: World, pc: PC) {
    && FlightOk(canRefresh, w, pc.f)
    && match pc
       case Dropping(f, updated, answer) => FromAnswer(w.saved, w.answers, updated, Some(f.from), answer)
       case Saving(f, updated, answer) => FromAnswer(w.saved, w.answers, updated, Some(f.from), answer)
       case _ => true
  }

  ghost predicate InjectionOk(canRefresh: bool, saved: seq<Saved>, index: map<string, nat>, inj: Injection) {
    && inj.from < |saved| && CookieOf(index, inj.raw, inj.from)
    && var s := saved[inj.from].session;
       match inj.refreshed
       case Some(n) => n < |saved| && saved[n].parent == Some(inj.from) && inj.bearer == saved[n].session.accessToken
       case None =>
         && inj.bearer == s.accessToken
         && (canRefresh && s.refreshToken != "" && s.expiry.Some? ==> inj.at <= s.expiry.value)
  }

  ghost predicate Inv(canRefresh: bool, w: World) {
    && LineageOk(w.saved, w.answers) && LoginsApart(w.saved, w.csrfs) && StoreOk(w)
    && (forall t :: t in w.threads ==> PcOk(canRefresh, w, w.threads[t]))
    && (forall i :: 0 <= i < |w.injected| ==> InjectionOk(canRefresh, w.saved, w.index, w.injected[i]))
  }

  lemma LineageGrows(saved: seq<Saved>, answers: seq<Answer>, s: BffSession, parent: Option<nat>, answer: nat)
    requires LineageOk(saved, answers) && FromAnswer(saved, answers, s, parent, answer)
    ensures LineageOk(saved + [Saved(s, parent, answer)], answers)
  {
    hide Succeeds;
    var saved' := saved + [Saved(s, parent, answer)];
    forall n | 0 <= n < |saved'|
      ensures FromAnswer(saved', answers, saved'[n].session, saved'[n].parent, saved'[n].answer)
    {
      if n < |saved| { assert FromAnswer(saved, answers, saved[n].session, saved[n].parent, saved[n].answer); }
    }
  }

  lemma StoreGrows(w: World, id: string, s: BffSession, parent: Option<nat>, answer: nat)
    requires StoreOk(w) && id !in w.index
    ensures StoreOk(Keep(w, id, s, parent, answer))
  {}

  lemma PcGrows(canRefresh: bool, w: World, id: string, s: BffSession, parent: Option<nat>, answer: nat, pc: PC)
    requires PcOk(canRefresh, w, pc) && id !in w.index
    ensures PcOk(canRefresh, Keep(w, id, s, parent, answer), pc)
  {
    hide Succeeds;
  }

  lemma InjectionGrows(canRefresh: bool, w: World, id: string, s: BffSession, parent: Option<nat>, answer: nat,
                       inj: Injection)
    requires InjectionOk(canRefresh, w.saved, w.index, inj) && id !in w.index
    ensures InjectionOk(canRefresh, w.saved + [Saved(s, parent, answer)], w.index[id := |w.saved|], inj)
  {}

  lemma KeepKeeps(canRefresh: bool, w: World, id: string, s: BffSession, parent: Option<nat>, answer: nat)
    requires Inv(canRefresh, w) && id !in w.index && s.csrfToken in w.csrfs
    requires FromAnswer(w.saved, w.answers, s, parent, answer)
    requires parent.None? ==> forall n :: 0 <= n < |w.saved| ==> w.saved[n].session.csrfToken != s.csrfToken
    ensures Inv(canRefresh, Keep(w, id, s, parent, answer))
  {
    hide LineageOk, StoreOk, PcOk, InjectionOk, FromAnswer;
    var w' := Keep(w, id, s, parent, answer);
    LineageGrows(w.saved, w.answers, s, parent, answer);
    StoreGrows(w, id, s, parent, answer);
    forall t | t in w'.threads ensures PcOk(canRefresh, w', w'.threads[t]) {
      PcGrows(canRefresh, w, id, s, parent, answer, w.threads[t]);
    }
    forall i | 0 <= i < |w'.injected| ensures InjectionOk(canRefresh, w'.saved, w'.index, w'.injected[i]) {
      InjectionGrows(canRefresh, w, id, s, parent, answer, w.injected[i]);
    }
  }

  /** The answer history grows. */
  lemma AnsweredKeeps(canRefresh: bool, w: World, answer: Answer)
    requires Inv(canRefresh, w)
    ensures Inv(canRefresh, w.(answers := w.answers + [answer]))
  {
    hide Succeeds, InjectionOk;
    var w' := w.(answers := w.answers + [answer]);
    forall t | t in w'.threads ensures PcOk(canRefresh, w', w'.threads[t]) { assert PcOk(canRefresh, w, w.threads[t]); }
  }

  ghost predicate Fewer(items: Items, items': Items) {
    forall k :: k in items' ==> k in items && items'[k] == items[k]
  }

  lemma FewerKeeps(canRefresh: bool, w: World, items: Items, now: int)
    requires Inv(canRefresh, w) && Fewer(w.items, items)
    ensures Inv(canRefresh, w.(items := items, now := now))
  {
    hide Succeeds, InjectionOk;
    var w' := w.(items := items, now := now);
    forall t | t in w'.threads ensures PcOk(canRefresh, w', w'.threads[t]) { assert PcOk(canRefresh, w, w.threads[t]); }
  }

  lemma ThreadKeeps(canRefresh: bool, w: World, t: nat, pc: PC)
    requires Inv(canRefresh, w) && PcOk(canRefresh, w, pc)
    ensures Inv(canRefresh, w.(threads := w.threads[t := pc]))
  {
    hide LineageOk, LoginsApart, Succeeds, InjectionOk;
    var w' := w.(threads := w.threads[t := pc]);
    forall u | u in w'.threads ensures PcOk(canRefresh, w', w'.threads[u]) {
        if u != t { assert PcOk(canRefresh, w, w.threads[u]); } }
  }

  lemma EndKeeps(canRefresh: bool, w: World, t: nat)
    requires Inv(canRefresh, w)
    ensures Inv(canRefresh, End(w, t))
  {
    hide LineageOk, LoginsApart, Succeeds, InjectionOk;
    forall u | u in End(w, t).threads ensures PcOk(canRefresh, End(w, t), w.threads[u]) {
        assert PcOk(canRefresh, w, w.threads[u]); }
  }

  lemma InjectKeeps(canRefresh: bool, w: World, inj: Injection)
    requires Inv(canRefresh, w) && InjectionOk(canRefresh, w.saved, w.index, inj)
    ensures Inv(canRefresh, Inject(w, inj))
  {
    hide LineageOk, LoginsApart, Succeeds, InjectionOk;
    var w' := Inject(w, inj);
    forall u | u in w'.threads ensures PcOk(canRefresh, w', w'.threads[u]) { assert PcOk(canRefresh, w, w.threads[u]); }
  }

  lemma Drops(items: Items, raw: Option<string>, now: int)
    ensures Fewer(items, AfterGet(items, raw, now)) && Fewer(items, AfterDrop(items, raw))
  {}

  lemma ForwardKeeps(canRefresh: bool, w: World, t: nat, raw: Option<string>, d1: nat, d2: nat)
    requires Inv(canRefresh, w)
    ensures Inv(canRefresh, Forward(canRefresh, w, t, raw, d1, d2))
  {
    hide Inv, AfterGet, LoadedItem;
    var got, now := Got(w.items, raw, w.now), w.now + d1 + d2;
    var w' := w.(items := AfterGet(w.items, raw, w.now), now := now);
    Drops(w.items, raw, w.now);
    FewerKeeps(canRefresh, w, AfterGet(w.items, raw, w.now), now);
    if t !in w.threads && got.Some? && TrimSpace(raw.value) in w.index {
      GotSaved(canRefresh, w, raw);
      var from, checked := w.index[TrimSpace(raw.value)], w.now + d1;
      var inj := Injection(got.value.accessToken, raw, from, None, checked);
      if InjectionOk(canRefresh, w.saved, w.index, inj) { InjectKeeps(canRefresh, w', inj); }
      if canRefresh && got.value.refreshToken != "" && got.value.expiry.Some? {
        ThreadKeeps(canRefresh, w', t, Refreshing(Flight(raw, from, checked, checked > got.value.expiry.value)));
      }
    }
  }

  lemma GotSaved(canRefresh: bool, w: World, raw: Option<string>)
    requires Inv(canRefresh, w) && Got(w.items, raw, w.now).Some?
    ensures TrimSpace(raw.value) in w.index && w.index[TrimSpace(raw.value)] < |w.saved|
    ensures w.saved[w.index[TrimSpace(raw.value)]].session == Got(w.items, raw, w.now).value
  {}

  lemma FlightHere(canRefresh: bool, w: World, t: nat)
    requires Inv(canRefresh, w) && t in w.threads
    ensures PcOk(canRefresh, w, w.threads[t])
  {}

  lemma FailedKeeps(canRefresh: bool, w: World, t: nat, f: Flight)
    requires Inv(canRefresh, w) && FlightOk(canRefresh, w, f)
    ensures Inv(canRefresh, Failed(w, t, f))
  {
    hide Inv;
    if f.expired {
      ThreadKeeps(canRefresh, w, t, Destroying(f));
    } else {
      var inj := Injection(w.saved[f.from].session.accessToken, f.raw, f.from, None, f.at);
      InjectKeeps(canRefresh, w, inj);
      EndKeeps(canRefresh, Inject(w, inj), t);
    }
  }

  lemma RefreshDoneKeeps(canRefresh: bool, w: World, t: nat, answer: Option<TokenSet>)
    requires Inv(canRefresh, w)
    ensures Inv(canRefresh, RefreshDone(w, t, answer))
  {
    hide Inv, Failed;
    if t in w.threads && w.threads[t].Refreshing? {
      FlightHere(canRefresh, w, t);
      var f := w.threads[t].f;
      if answer.None? { FailedKeeps(canRefresh, w, t, f); }
      else {
        var w1 := w.(answers := w.answers + [Answer(Some(f.from), answer.value)]);
        AnsweredKeeps(canRefresh, w, Answer(Some(f.from), answer.value));
        RefreshedSucceeds(w.saved[f.from].session, answer.value);
        ThreadKeeps(canRefresh, w1, t, Dropping(f, Refreshed(w.saved[f.from].session, answer.value), |w.answers|));
      }
    }
  }

  lemma DropOldKeeps(canRefresh: bool, w: World, t: nat)
    requires Inv(canRefresh, w)
    ensures Inv(canRefresh, DropOld(w, t)) && Inv(canRefresh, DestroyOld(w, t))
  {
    hide Inv, AfterDrop;
    if t in w.threads {
      FlightHere(canRefresh, w, t);
      var pc := w.threads[t];
      Drops(w.items, pc.f.raw, w.now);
      var w' := w.(items := AfterDrop(w.items, pc.f.raw), now := w.now);
      FewerKeeps(canRefresh, w, AfterDrop(w.items, pc.f.raw), w.now);
      if pc.Dropping? { ThreadKeeps(canRefresh, w', t, Saving(pc.f, pc.updated, pc.answer)); }
      EndKeeps(canRefresh, w', t);
    }
  }

  lemma SaveNewKeeps(canRefresh: bool, w: World, t: nat, id: Option<string>)
    requires Inv(canRefresh, w)
    ensures Inv(canRefresh, SaveNew(w, t, id))
  {
    hide Inv, Failed;
    if t in w.threads && w.threads[t].Saving? {
      FlightHere(canRefresh, w, t);
      var pc := w.threads[t];
      if id.None? {
        FailedKeeps(canRefresh, w, t, pc.f);
      } else if id.value !in w.index {
        CsrfDrawn(canRefresh, w, pc.f.from);
        KeepKeeps(canRefresh, w, id.value, pc.updated, Some(pc.f.from), pc.answer);
        var w' := Keep(w, id.value, pc.updated, Some(pc.f.from), pc.answer);
        var inj := Injection(pc.updated.accessToken, pc.f.raw, pc.f.from, Some(|w.saved|), pc.f.at);
        InjectKeeps(canRefresh, w', inj);
        EndKeeps(canRefresh, Inject(w', inj), t);
      }
    }
  }

  lemma CsrfDrawn(canRefresh: bool, w: World, n: nat)
    requires Inv(canRefresh, w) && n < |w.saved|
    ensures w.saved[n].session.csrfToken in w.csrfs
  {}

  lemma CallbackKeeps(canRefresh: bool, w: World, tokens: TokenSet, csrf: string, id: Option<string>)
    requires Inv(canRefresh, w)
    ensures Inv(canRefresh, Callback(w, tokens, csrf, id))
  {
    hide LineageOk, StoreOk, PcOk, InjectionOk, Keep;
    if csrf !in w.csrfs && id.Some? && id.value !in w.index {
      var w1 := w.(csrfs := w.csrfs + {csrf});
      DrawKeeps(canRefresh, w, csrf);
      AnsweredKeeps(canRefresh, w1, Answer(None, tokens));
      KeepKeeps(canRefresh, w1.(answers := w.answers + [Answer(None, tokens)]), id.value,
                BffSession(tokens.accessToken, tokens.refreshToken, tokens.idToken, csrf, tokens.expiry), None,
                    |w.answers|);
    }
  }

  lemma DrawKeeps(canRefresh: bool, w: World, csrf: string)
    requires Inv(canRefresh, w)
    ensures Inv(canRefresh, w.(csrfs := w.csrfs + {csrf}))
  {
    hide LineageOk, Succeeds, InjectionOk;
    var w' := w.(csrfs := w.csrfs + {csrf});
    forall t | t in w'.threads ensures PcOk(canRefresh, w', w'.threads[t]) { assert PcOk(canRefresh, w, w.threads[t]); }
  }

  lemma StepKeeps(canRefresh: bool, w: World, e: Event)
    requires Inv(canRefresh, w)
    ensures Inv(canRefresh, Apply(canRefresh, w, e))
  {
    hide Inv, Callback, Forward, RefreshDone, DropOld, SaveNew, DestroyOld, AfterGet, AfterDrop;
    match e
    case ETick(d) => FewerKeeps(canRefresh, w, w.items, w.now + d);
    case ECallback(tokens, csrf, id) => CallbackKeeps(canRefresh, w, tokens, csrf, id);
    case EForward(t, raw, d1, d2) => ForwardKeeps(canRefresh, w, t, raw, d1, d2);
    case ERefreshDone(t, answer) => RefreshDoneKeeps(canRefresh, w, t, answer);
    case EDropOld(t) => DropOldKeeps(canRefresh, w, t);
    case ESaveNew(t, id) => SaveNewKeeps(canRefresh, w, t, id);
    case EDestroyOld(t) => DropOldKeeps(canRefresh, w, t);
    case ELook(raw) =>
      Drops(w.items, raw, w.now);
      FewerKeeps(canRefresh, w, AfterGet(w.items, raw, w.now), w.now);
    case ELogout(raw) =>
      Drops(w.items, raw, w.now);
      FewerKeeps(canRefresh, w, AfterDrop(w.items, raw), w.now);
  }

  lemma {:induction false} RunKeeps(canRefresh: bool, start: int, events: seq<Event>)
    ensures Inv(canRefresh, Run(canRefresh, Start(start), events))
  {
    hide Inv, Apply;
    if events == [] {
      StartOk(canRefresh, start);
    } else {
      RunKeeps(canRefresh, start, events[..|events| - 1]);
      StepKeeps(canRefresh, Run(canRefresh, Start(start), events[..|events| - 1]), events[|events| - 1]);
    }
  }

  lemma StartOk(canRefresh: bool, start: int)
    ensures Inv(canRefresh, Start(start))
  {}

  // ---------------------------------------------------------------- lineage

  /** The login a saved session goes back to. */
  function LoginOf(saved: seq<Saved>, n: nat): nat
    requires n < |saved| && ParentsFirst(saved)
    ensures LoginOf(saved, n) <= n && saved[LoginOf(saved, n)].parent.None?
    decreases n
  {
    if saved[n].parent.None? then n else LoginOf(saved, saved[n].parent.value)
  }

  ghost predicate Descends(saved: seq<Saved>, n: nat, a: nat)
    requires n < |saved| && ParentsFirst(saved)
    decreases n
  {
    n == a || (saved[n].parent.Some? && Descends(saved, saved[n].parent.value, a))
  }

  lemma {:induction false} DescentKeeps(saved: seq<Saved>, answers: seq<Answer>, n: nat, a: nat)
    requires LineageOk(saved, answers) && n < |saved| && Descends(saved, n, a)
    ensures a < |saved| && Follows(saved[n].session, saved[a].session) && LoginOf(saved, n) == LoginOf(saved, a)
    decreases n
  {
    if n != a { DescentKeeps(saved, answers, saved[n].parent.value, a); }
  }

  lemma {:induction false} DescendsFromLogin(saved: seq<Saved>, answers: seq<Answer>, n: nat)
    requires LineageOk(saved, answers) && n < |saved|
    ensures Descends(saved, n, LoginOf(saved, n))
    decreases n
  {
    if saved[n].parent.Some? { DescendsFromLogin(saved, answers, saved[n].parent.value); }
  }

  /** In every run, every session ever saved goes back to one login and carries that login's CSRF
      token; two sessions carry the same CSRF token exactly when they go back to the same login;
      and no session that had a refresh token ever has a descendant without one. */
  lemma RotationLineage(canRefresh: bool, start: int, events: seq<Event>, m: nat, n: nat)
    requires m < |Run(canRefresh, Start(start), events).saved| && n < |Run(canRefresh, Start(start), events).saved|
    ensures var saved := Run(canRefresh, Start(start), events).saved;
            && ParentsFirst(saved)
            && saved[n].session.csrfToken == saved[LoginOf(saved, n)].session.csrfToken
            && (saved[m].session.csrfToken == saved[n].session.csrfToken <==> LoginOf(saved, m) == LoginOf(saved, n))
            && (Descends(saved, n, m) && saved[m].session.refreshToken != "" ==> saved[n].session.refreshToken != "")
  {
    RunKeeps(canRefresh, start, events);
    var saved, answers := Run(canRefresh, Start(start), events).saved, Run(canRefresh, Start(start), events).answers;
    var a, b := LoginOf(saved, m), LoginOf(saved, n);
    DescendsFromLogin(saved, answers, m);
    DescendsFromLogin(saved, answers, n);
    DescentKeeps(saved, answers, m, a);
    DescentKeeps(saved, answers, n, b);
    if Descends(saved, n, m) { DescentKeeps(saved, answers, n, m); }
  }

  /** Every session ever saved holds exactly what an answer brought: the access token and expiry of it;
      its refresh and ID tokens, or the ones of the session refreshed where it brought none. */
  lemma SavedFromAnswers(canRefresh: bool, start: int, events: seq<Event>, n: nat)
    requires n < |Run(canRefresh, Start(start), events).saved|
    ensures var w := Run(canRefresh, Start(start), events);
            var s, parent := w.saved[n].session, w.saved[n].parent;
            && w.saved[n].answer < |w.answers| && w.answers[w.saved[n].answer].to == parent
            && var t := w.answers[w.saved[n].answer].tokens;
               && s.accessToken == t.accessToken && s.expiry == t.expiry
               && (parent.None? ==> s.refreshToken == t.refreshToken && s.idToken == t.idToken)
               && (parent.Some? ==>
                     && parent.value < n
                     && s.csrfToken == w.saved[parent.value].session.csrfToken
                     && s.refreshToken == (if t.refreshToken == "" then w.saved[parent.value].session.refreshToken
                         else t.refreshToken)
                     && s.idToken == (if t.idToken == "" then w.saved[parent.value].session.idToken else t.idToken))
  {
    hide PcOk, InjectionOk, StoreOk, LoginsApart, Run;
    RunKeeps(canRefresh, start, events);
    var w := Run(canRefresh, Start(start), events);
    assert FromAnswer(w.saved, w.answers, w.saved[n].session, w.saved[n].parent, w.saved[n].answer);
  }

  /** What a request's cookie gets it is always a session that was saved - never another's. */
  lemma LoadedWasSaved(canRefresh: bool, start: int, events: seq<Event>, raw: Option<string>)
    ensures var w := Run(canRefresh, Start(start), events);
            Got(w.items, raw, w.now).Some? ==>
              TrimSpace(raw.value) in w.index && w.index[TrimSpace(raw.value)] < |w.saved|
              && w.saved[w.index[TrimSpace(raw.value)]].session == Got(w.items, raw, w.now).value
  {
    RunKeeps(canRefresh, start, events);
  }

  /** Whatever fails on the way: a bearer token sent upstream belongs to the session of the request's own
      cookie, and was either just refreshed for it - the access token the identity provider answered
      with, saved in the replacing session - or, when the BFF could have refreshed it, had not expired
      when it was checked. */
  lemma BearerFresh(canRefresh: bool, start: int, events: seq<Event>, i: nat)
    requires i < |Run(canRefresh, Start(start), events).injected|
    ensures var w := Run(canRefresh, Start(start), events);
            var inj := w.injected[i];
            && inj.from < |w.saved| && CookieOf(w.index, inj.raw, inj.from)
            && match inj.refreshed
               case Some(n) =>
                 && n < |w.saved| && w.saved[n].parent == Some(inj.from) && w.saved[n].session.accessToken == inj.bearer
                 && w.saved[n].answer < |w.answers| && w.answers[w.saved[n].answer].to == Some(inj.from)
                 && inj.bearer == w.answers[w.saved[n].answer].tokens.accessToken
               case None =>
                 var s := w.saved[inj.from].session;
                 && inj.bearer == s.accessToken
                 && (canRefresh && s.refreshToken != "" && s.expiry.Some? ==> inj.at <= s.expiry.value)
  {
    hide Run;
    RunKeeps(canRefresh, start, events);
    var w := Run(canRefresh, Start(start), events);
    var inj := w.injected[i];
    assert InjectionOk(canRefresh, w.saved, w.index, inj);
    if inj.refreshed.Some? { SavedFromAnswers(canRefresh, start, events, inj.refreshed.value); }
  }

  /** A request is refreshed exactly when it can be and its token runs out within a minute; a token that
      does not is sent as it is; without a session, or a token in it, nothing is. */
  lemma ForwardsExactly(canRefresh: bool, w: World, t: nat, raw: Option<string>, d1: nat, d2: nat)
    requires Inv(canRefresh, w) && t !in w.threads
    ensures var w', got := Forward(canRefresh, w, t, raw, d1, d2), Got(w.items, raw, w.now);
            var usable := got.Some? && TrimSpace(got.value.accessToken) != "";
            var due := && usable && canRefresh && got.value.refreshToken != "" && got.value.expiry.Some?
                       && w.now + d1 + d2 + 60 * SECOND > got.value.expiry.value;
            && (t in w'.threads <==> due)
            && (t in w'.threads ==> w'.threads[t].Refreshing? && w'.threads[t].f.raw == raw
                                    && w'.threads[t].f.expired == (w.now + d1 > got.value.expiry.value))
            && |w'.injected| == |w.injected| + (if usable && !due then 1 else 0)
            && (usable && !due ==> w'.injected[|w.injected|].bearer == got.value.accessToken)
  {
    hide AfterGet, LoadedItem, PcOk, InjectionOk, LineageOk, LoginsApart;
    if Got(w.items, raw, w.now).Some? { GotSaved(canRefresh, w, raw); }
  }
}
