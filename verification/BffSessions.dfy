// The BFF's session store and manager: sessions kept in memory under random tokens,
// expiring lazily, replaced by a new one whenever their tokens are refreshed.
module BffSessions {
  import opened Lists
  import opened Scopes
  import opened Claims

  /** `expiry` is None for Go's zero time. */
  datatype BffSession = BffSession(accessToken: string, refreshToken: string, idToken: string, csrfToken: string,
      expiry: Option<int>)

  datatype Item = Item(session: BffSession, expires: int)

  type Items = map<string, Item>

  /** What the token endpoint answered; an absent refresh or ID token is "". */
  datatype TokenSet = TokenSet(accessToken: string, refreshToken: string, idToken: string, expiry: Option<int>)

  const SESSION_TTL: int := 86400 * SECOND
  const REFRESH_THRESHOLD: int := 60 * SECOND

  // ---------------------------------------------------------------- strings.TrimSpace

  function TrimLeft(s: string): string {
    if s != "" && IsSpace(s[0]) then TrimLeft(s[1..]) else s
  }

  function TrimRight(s: string): string {
    if s != "" && IsSpace(s[|s| - 1]) then TrimRight(s[..|s| - 1]) else s
  }

  function TrimSpace(s: string): string { TrimRight(TrimLeft(s)) }

  // ---------------------------------------------------------------- the store

  function LoadedItem(items: Items, token: string, now: int): Option<BffSession> {
    if token in items && now <= items[token].expires then Some(items[token].session) else None
  }

  /** Loading an expired session deletes it. */
  function AfterLoad(items: Items, token: string, now: int): Items {
    if token in items && now > items[token].expires then items - {token} else items
  }

  function AfterSave(items: Items, id: string, s: BffSession, now: int): Items {
    items[id := Item(s, now + SESSION_TTL)]
  }

  // ---------------------------------------------------------------- the manager

  /** What a request's cookie, if it has one, gets it. Surrounding space is ignored. */
  function Got(items: Items, raw: Option<string>, now: int): Option<BffSession> {
    if raw.None? || TrimSpace(raw.value) == "" then None else LoadedItem(items, TrimSpace(raw.value), now)
  }

  function AfterGet(items: Items, raw: Option<string>, now: int): Items {
    if raw.None? || TrimSpace(raw.value) == "" then items else AfterLoad(items, TrimSpace(raw.value), now)
  }

  /** What Rotate and Destroy delete: the cookie's value as sent. */
  function AfterDrop(items: Items, raw: Option<string>): Items {
    if raw.None? || TrimSpace(raw.value) == "" then items else items - {raw.value}
  }

  /** The session a refresh leads to. */
  function Refreshed(current: BffSession, t: TokenSet): BffSession {
    BffSession(t.accessToken,
               if t.refreshToken != "" then t.refreshToken else current.refreshToken,
               if t.idToken != "" then t.idToken else current.idToken,
               current.csrfToken,
               t.expiry)
  }

  /** What a session holds after a refresh, said out: the new access token and expiry, the new refresh
      and ID tokens if they came with it, the same CSRF token. */
  ghost predicate Succeeds(s: BffSession, before: BffSession, t: TokenSet) {
    && s.accessToken == t.accessToken && s.expiry == t.expiry && s.csrfToken == before.csrfToken
    && s.refreshToken == (if t.refreshToken == "" then before.refreshToken else t.refreshToken)
    && s.idToken == (if t.idToken == "" then before.idToken else t.idToken)
  }

  lemma RefreshedSucceeds(current: BffSession, t: TokenSet)
    ensures Succeeds(Refreshed(current, t), current, t)
  {}

  /** A session just created loads for exactly a day. */
  lemma CreatedLives(items: Items, id: string, s: BffSession, now: int, later: int)
    ensures LoadedItem(AfterSave(items, id, s, now), id, later) == if later <= now + 86400 * SECOND then Some(s)
              else None
  {}

  class MemoryStore {
    var items: Items

    constructor ()
      ensures items == map[]
    {
      items := map[];
    }

    /** `id` is the random token, or None when there is no randomness to be had. */
    method Save(s: BffSession, ttl: int, now: int, id: Option<string>) returns (token: Option<string>)
      modifies this
      ensures token == id
      ensures items == if id.Some? then old(items)[id.value := Item(s, now + ttl)] else old(items)
    {
      if id.None? { return None; }
      items := items[id.value := Item(s, now + ttl)];
      return id;
    }

    method Load(token: string, now: int) returns (s: Option<BffSession>)
      modifies this
      ensures s == LoadedItem(old(items), token, now) && items == AfterLoad(old(items), token, now)
    {
      if token !in items { return None; }
      var item := items[token];
      if now > item.expires {
        items := items - {token};
        return None;
      }
      return Some(item.session);
    }

    method Delete(token: string)
      modifies this
      ensures items == old(items) - {token}
    {
      items := items - {token};
    }
  }

  class Manager {
    const store: MemoryStore

    constructor (store: MemoryStore)
      ensures this.store == store
    {
      this.store := store;
    }

    method Create(s: BffSession, now: int, id: Option<string>) returns (cookie: Option<string>)
      modifies store
      ensures cookie == id
      ensures store.items == if id.Some? then AfterSave(old(store.items), id.value, s, now) else old(store.items)
    {
      cookie := store.Save(s, SESSION_TTL, now, id);
    }

    method Get(raw: Option<string>, now: int) returns (s: Option<BffSession>)
      modifies store
      ensures s == Got(old(store.items), raw, now) && store.items == AfterGet(old(store.items), raw, now)
    {
      if raw.None? { return None; }
      var token := TrimSpace(raw.value);
      if token == "" { return None; }
      s := store.Load(token, now);
    }

    /** The old session goes first; then the new one may fail to be saved. */
    method Rotate(raw: Option<string>, s: BffSession, now: int, id: Option<string>) returns (cookie: Option<string>)
      modifies store
      ensures cookie == id
      ensures var dropped := AfterDrop(old(store.items), raw);
              store.items == if id.Some? then AfterSave(dropped, id.value, s, now) else dropped
    {
      if raw.Some? && TrimSpace(raw.value) != "" { store.Delete(raw.value); }
      cookie := Create(s, now, id);
    }

    method Destroy(raw: Option<string>)
      modifies store
      ensures store.items == AfterDrop(old(store.items), raw)
    {
      if raw.Some? && TrimSpace(raw.value) != "" { store.Delete(raw.value); }
    }
  }

  // ---------------------------------------------------------------- what logging out revokes

  lemma {:induction false} TrimLeftShape(s: string)
    ensures |TrimLeft(s)| <= |s| && s[|s| - |TrimLeft(s)|..] == TrimLeft(s)
    ensures TrimLeft(s) != "" ==> !IsSpace(TrimLeft(s)[0])
    ensures TrimLeft(s) == s <==> s == "" || !IsSpace(s[0])
  {
    if s != "" && IsSpace(s[0]) { TrimLeftShape(s[1..]); }
  }

  lemma {:induction false} TrimRightShape(s: string)
    ensures |TrimRight(s)| <= |s| && s[..|TrimRight(s)|] == TrimRight(s)
    ensures TrimRight(s) != "" ==> !IsSpace(TrimRight(s)[|TrimRight(s)| - 1])
    ensures TrimRight(s) == s <==> s == "" || !IsSpace(s[|s| - 1])
  {
    if s != "" && IsSpace(s[|s| - 1]) { TrimRightShape(s[..|s| - 1]); }
  }

  /** A cookie value is its own trimming exactly when it neither starts nor ends in space. */
  lemma TrimmedExactly(s: string)
    ensures TrimSpace(s) == s <==> s == "" || (!IsSpace(s[0]) && !IsSpace(s[|s| - 1]))
  {
    TrimLeftShape(s);
    TrimRightShape(TrimLeft(s));
    if TrimSpace(s) == s { assert |TrimLeft(s)| == |s|; }
  }

  /** Get looks up the trimmed cookie value, Rotate and Destroy delete the value as sent. So the
      session a request was using is gone after Destroy - or after Rotate, saved or not - if and
      only if the cookie neither started nor ended in space. */
  lemma RevokedExactly(items: Items, raw: string, now: int)
    requires Got(items, Some(raw), now).Some?
    ensures Got(AfterDrop(items, Some(raw)), Some(raw), now).None? <==> !IsSpace(raw[0]) && !IsSpace(raw[|raw| - 1])
  {
    TrimmedExactly(raw);
    TrimLeftShape(raw);
  }

  // ---------------------------------------------------------------- the store over time

  /** What happens to a store, each with the reading of the clock it goes by. */
  datatype StoreOp =
    | OpSave(id: string, s: BffSession, ttl: int, now: int)
    | OpLoad(token: string, now: int)
    | OpDelete(token: string, now: int)

  function AfterOp(items: Items, op: StoreOp): Items {
    match op
    case OpSave(id, s, ttl, now) => items[id := Item(s, now + ttl)]
    case OpLoad(token, now) => AfterLoad(items, token, now)
    case OpDelete(token, _) => items - {token}
  }

  function AfterOps(ops: seq<StoreOp>): Items {
    if ops == [] then map[] else AfterOp(AfterOps(ops[..|ops| - 1]), ops[|ops| - 1])
  }

  /** The same, in a store whose Loads never delete. */
  function Recorded(ops: seq<StoreOp>): Items {
    if ops == [] then map[]
    else
      var before, op := Recorded(ops[..|ops| - 1]), ops[|ops| - 1];
      if op.OpLoad? then before else AfterOp(before, op)
  }

  predicate InOrder(ops: seq<StoreOp>, now: int) {
    forall i :: 0 <= i < |ops| ==> ops[i].now <= now && forall j :: 0 <= j < i ==> ops[j].now <= ops[i].now
  }

  /** Lazy expiry is invisible: after any Saves, Loads and Deletes, the store that deletes on a late
      Load and the one that never does answer the next Load of every token the same. */
  lemma {:induction false} LazyExpiryInvisible(ops: seq<StoreOp>, token: string, now: int)
    requires InOrder(ops, now)
    ensures LoadedItem(AfterOps(ops), token, now) == LoadedItem(Recorded(ops), token, now)
  {
    if ops != [] {
      var front, op := ops[..|ops| - 1], ops[|ops| - 1];
      assert InOrder(front, now) && InOrder(front, op.now);
      LazyExpiryInvisible(front, token, now);
      if op.OpLoad? { LazyExpiryInvisible(front, op.token, op.now); }
    }
  }

  /** The last thing done to a token, Loads aside: the Save still standing, if it was one. */
  function LastSave(ops: seq<StoreOp>, token: string): Option<Item> {
    if ops == [] then None
    else
      match ops[|ops| - 1]
      case OpSave(id, s, ttl, now) => if id == token then Some(Item(s, now + ttl)) else LastSave(ops[..|ops| - 1],
          token)
      case OpDelete(id, _) => if id == token then None else LastSave(ops[..|ops| - 1], token)
      case OpLoad(_, _) => LastSave(ops[..|ops| - 1], token)
  }

  lemma {:induction false} RecordedIsLastSave(ops: seq<StoreOp>, token: string)
    ensures LastSave(ops, token) == if token in Recorded(ops) then Some(Recorded(ops)[token]) else None
  {
    if ops != [] { RecordedIsLastSave(ops[..|ops| - 1], token); }
  }

  /** The store said by its history alone: a Load finds exactly what was last saved under its token,
      unless that was deleted since or has expired. No other token's fate matters. */
  lemma LoadIsLastSave(ops: seq<StoreOp>, token: string, now: int)
    requires InOrder(ops, now)
    ensures var last := LastSave(ops, token);
            LoadedItem(AfterOps(ops), token, now)
            == if last.Some? && now <= last.value.expires then Some(last.value.session) else None
  {
    LazyExpiryInvisible(ops, token, now);
    RecordedIsLastSave(ops, token);
  }

  /** Once a session has expired or been deleted it stays gone, through any further operations, unless
      one of them saves under its own token. */
  lemma StaysGone(ops: seq<StoreOp>, later: seq<StoreOp>, token: string, now: int, end: int)
    requires InOrder(ops, now) && LoadedItem(AfterOps(ops), token, now).None? && now <= end && InOrder(ops + later, end)
    requires forall i :: 0 <= i < |later| ==> !(later[i].OpSave? && later[i].id == token)
    ensures LoadedItem(AfterOps(ops + later), token, end).None?
  {
    LoadIsLastSave(ops, token, now);
    LoadIsLastSave(ops + later, token, end);
    NotSavedAgain(ops, later, token);
  }

  lemma {:induction false} NotSavedAgain(ops: seq<StoreOp>, later: seq<StoreOp>, token: string)
    requires forall i :: 0 <= i < |later| ==> !(later[i].OpSave? && later[i].id == token)
    ensures LastSave(ops + later, token) == LastSave(ops, token) || LastSave(ops + later, token).None?
    decreases |later|
  {
    if later == [] {
      assert ops + later == ops;
    } else {
      assert (ops + later)[..|ops + later| - 1] == ops + later[..|later| - 1];
      NotSavedAgain(ops, later[..|later| - 1], token);
    }
  }
}
