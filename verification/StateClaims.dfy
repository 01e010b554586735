// The BFF's table of claimed OIDC states: each state may be claimed once per ttl, and
// the table is cleaned on the way past. Measured against a table that is never cleaned
// and against the plain history of calls.
module StateClaims {
  import opened Lists

  /** One call: the state, and the clock reading taken before the lock. */
  datatype Call = Call(state: string, now: int)

  datatype Table = Table(claimedAt: map<string, int>, lastCleanup: int)

  function Cleaned(t: Table, ttl: int, now: int): Table {
    if now - t.lastCleanup < ttl then t
    else Table(map k | k in t.claimedAt && now - t.claimedAt[k] < ttl :: t.claimedAt[k], now)
  }

  predicate Held(claimedAt: map<string, int>, ttl: int, c: Call) {
    c.state in claimedAt && c.now - claimedAt[c.state] < ttl
  }

  /** Claim, as a step: the answer is !Held(Cleaned(t).claimedAt). */
  function Claimed(t: Table, ttl: int, c: Call): Table {
    var t := Cleaned(t, ttl, c.now);
    if Held(t.claimedAt, ttl, c) then t else t.(claimedAt := t.claimedAt[c.state := c.now])
  }

  predicate Accepts(t: Table, ttl: int, c: Call) {
    !Held(Cleaned(t, ttl, c.now).claimedAt, ttl, c)
  }

  class StateClaims {
    var claimedAt: map<string, int>
    var lastCleanup: int
    const ttl: int

    constructor (ttl: int, now: int)
      ensures Model() == Table(map[], now) && this.ttl == ttl
    {
      claimedAt, lastCleanup, this.ttl := map[], now, ttl;
    }

    function Model(): Table
      reads this
    {
      Table(claimedAt, lastCleanup)
    }

    method Claim(state: string, now: int) returns (ok: bool)
      modifies this
      ensures ok == Accepts(old(Model()), ttl, Call(state, now))
      ensures Model() == Claimed(old(Model()), ttl, Call(state, now))
    {
      if now - lastCleanup >= ttl { CleanupLocked(now); }
      if state in claimedAt {
        var at := claimedAt[state];
        if now - at < ttl { return false; }
      }
      claimedAt := claimedAt[state := now];
      return true;
    }

    method CleanupLocked(now: int)
      requires now - lastCleanup >= ttl
      modifies this
      ensures Model() == Cleaned(old(Model()), ttl, now)
    {
      var todo := claimedAt.Keys;
      while todo != {}
        invariant todo <= claimedAt.Keys <= old(claimedAt).Keys
        invariant forall k :: k in claimedAt ==> claimedAt[k] == old(claimedAt)[k]
        invariant forall k :: k in old(claimedAt) && k !in todo ==> (k in claimedAt <==> now - old(claimedAt)[k] < ttl)
        decreases |todo|
      {
        var k :| k in todo;
        todo := todo - {k};
        if now - claimedAt[k] >= ttl { claimedAt := claimedAt - {k}; }
      }
      lastCleanup := now;
      assert claimedAt == Cleaned(old(Model()), ttl, now).claimedAt;
    }
  }

  // ---------------------------------------------------------------- runs

  function RunCalls(t: Table, ttl: int, calls: seq<Call>): Table {
    if calls == [] then t else Claimed(RunCalls(t, ttl, calls[..|calls| - 1]), ttl, calls[|calls| - 1])
  }

  /** The answer to the i-th call of a run. */
  predicate Answer(t: Table, ttl: int, calls: seq<Call>, i: nat)
    requires i < |calls|
  {
    Accepts(RunCalls(t, ttl, calls[..i]), ttl, calls[i])
  }

  /** The same table, never cleaned. */
  function Remember(claimedAt: map<string, int>, ttl: int, c: Call): map<string, int> {
    if Held(claimedAt, ttl, c) then claimedAt else claimedAt[c.state := c.now]
  }

  function RunUncleaned(ttl: int, calls: seq<Call>): map<string, int> {
    if calls == [] then map[] else Remember(RunUncleaned(ttl, calls[..|calls| - 1]), ttl, calls[|calls| - 1])
  }

  predicate UncleanedAnswer(ttl: int, calls: seq<Call>, i: nat)
    requires i < |calls|
  {
    !Held(RunUncleaned(ttl, calls[..i]), ttl, calls[i])
  }

  /** No call reads a time before that of the last cleanup when its turn comes. */
  ghost predicate NeverBehind(start: int, ttl: int, calls: seq<Call>) {
    forall i :: 0 <= i < |calls| ==> RunCalls(Table(map[], start), ttl, calls[..i]).lastCleanup <= calls[i].now
  }

  /** Readings that never go back, in the order the lock is taken. */
  predicate Ordered(start: int, calls: seq<Call>) {
    forall i :: 0 <= i < |calls| ==> start <= calls[i].now && forall j :: 0 <= j < i ==> calls[j].now <= calls[i].now
  }

  lemma {:induction false} OrderedNeverBehind(start: int, ttl: int, calls: seq<Call>)
    requires Ordered(start, calls)
    ensures NeverBehind(start, ttl, calls)
  {
    forall i | 0 <= i < |calls| ensures RunCalls(Table(map[], start), ttl, calls[..i]).lastCleanup <= calls[i].now {
      CleanupIsSomeReading(start, ttl, calls[..i]);
    }
  }

  lemma {:induction false} CleanupIsSomeReading(start: int, ttl: int, calls: seq<Call>)
    ensures var at := RunCalls(Table(map[], start), ttl, calls).lastCleanup;
            at == start || exists i :: 0 <= i < |calls| && calls[i].now == at
  {
    if calls != [] {
      var front := calls[..|calls| - 1];
      CleanupIsSomeReading(start, ttl, front);
      var at := RunCalls(Table(map[], start), ttl, front).lastCleanup;
      if at != start {
        var i :| 0 <= i < |front| && front[i].now == at;
        assert calls[i].now == at;
      }
    }
  }

  // ---------------------------------------------------------------- cleaning is invisible

  /** What the cleaned table lacks had expired by the last cleanup; what it has is right and
      was less than a ttl old then. */
  ghost predicate Agrees(t: Table, ttl: int, all: map<string, int>) {
    && (forall k :: k in t.claimedAt ==> k in all && all[k] == t.claimedAt[k] && t.lastCleanup - all[k] < ttl)
    && (forall k :: k in all && k !in t.claimedAt ==> t.lastCleanup - all[k] >= ttl)
  }

  lemma ClaimAgrees(t: Table, ttl: int, all: map<string, int>, c: Call)
    requires Agrees(t, ttl, all) && t.lastCleanup <= c.now && 0 < ttl
    ensures Accepts(t, ttl, c) <==> !Held(all, ttl, c)
    ensures Agrees(Claimed(t, ttl, c), ttl, Remember(all, ttl, c))
  {
    var t' := Cleaned(t, ttl, c.now);
    assert Agrees(t', ttl, all);
  }

  lemma {:induction false} RunAgrees(start: int, ttl: int, calls: seq<Call>)
    requires NeverBehind(start, ttl, calls) && 0 < ttl
    ensures Agrees(RunCalls(Table(map[], start), ttl, calls), ttl, RunUncleaned(ttl, calls))
  {
    if calls != [] {
      var front := calls[..|calls| - 1];
      assert forall i :: 0 <= i < |front| ==> front[..i] == calls[..i];
      RunAgrees(start, ttl, front);
      ClaimAgrees(RunCalls(Table(map[], start), ttl, front), ttl, RunUncleaned(ttl, front), calls[|calls| - 1]);
    }
  }

  /** With readings in lock order every call is answered as if the table were never cleaned. */
  lemma CleanupInvisible(start: int, ttl: int, calls: seq<Call>, i: nat)
    requires NeverBehind(start, ttl, calls) && 0 < ttl && i < |calls|
    ensures Answer(Table(map[], start), ttl, calls, i) <==> UncleanedAnswer(ttl, calls, i)
  {
    var front := calls[..i];
    assert forall j :: 0 <= j < |front| ==> front[..j] == calls[..j];
    RunAgrees(start, ttl, front);
    ClaimAgrees(RunCalls(Table(map[], start), ttl, front), ttl, RunUncleaned(ttl, front), calls[i]);
  }

  /** The clock guard: with the last cleanup at `last`, a call that reads `now` is answered as by the
      table never cleaned, after every history that got there in order and for every state. */
  ghost predicate SafeReading(ttl: int, last: int, now: int) {
    forall start: int, before: seq<Call>, s: string ::
      NeverBehind(start, ttl, before) && RunCalls(Table(map[], start), ttl, before).lastCleanup == last ==>
        SameAnswer(start, ttl, before, Call(s, now))
  }

  ghost predicate SameAnswer(start: int, ttl: int, before: seq<Call>, c: Call) {
    Accepts(RunCalls(Table(map[], start), ttl, before), ttl, c) <==> !Held(RunUncleaned(ttl, before), ttl, c)
  }

  /** The exact condition, which a caller can check on entry: a reading is safe if and only if it is
      not behind the last cleanup. Behind it, some history makes the cleaned table answer wrongly. */
  lemma SameAnswersExactly(ttl: int, last: int, now: int)
    requires 0 < ttl
    ensures SafeReading(ttl, last, now) <==> last <= now
  {
    if last <= now {
      forall start: int, before: seq<Call>, s: string
        | NeverBehind(start, ttl, before) && RunCalls(Table(map[], start), ttl, before).lastCleanup == last
        ensures SameAnswer(start, ttl, before, Call(s, now))
      {
        RunAgrees(start, ttl, before);
        ClaimAgrees(RunCalls(Table(map[], start), ttl, before), ttl, RunUncleaned(ttl, before), Call(s, now));
      }
    } else {
      Overtaken(ttl, last, now);
    }
  }

  /** A history for every reading behind a cleanup: a state claimed a ttl before the cleanup is
      forgotten by it, and claimed again at a reading at which it was still held. */
  lemma Overtaken(ttl: int, last: int, now: int)
    requires 0 < ttl && now < last
    ensures var start, before := last - ttl, [Call("s", last - ttl), Call("x", last)];
            && NeverBehind(start, ttl, before) && RunCalls(Table(map[], start), ttl, before).lastCleanup == last
            && Accepts(RunCalls(Table(map[], start), ttl, before), ttl, Call("s", now))
            && Held(RunUncleaned(ttl, before), ttl, Call("s", now))
  {
    var start, before := last - ttl, [Call("s", last - ttl), Call("x", last)];
    var t0 := Table(map[], start);
    assert before[..1] == [Call("s", last - ttl)] && before[..2] == before && before[..1][..0] == [];
    assert RunCalls(t0, ttl, before[..1]) == Table(map["s" := last - ttl], start);
    assert RunCalls(t0, ttl, before) == Table(map["x" := last], last);
    assert RunUncleaned(ttl, before[..1]) == map["s" := last - ttl];
    assert RunUncleaned(ttl, before) == map["s" := last - ttl, "x" := last];
  }

  /** The latest success of a state is what the never-cleaned table holds. */
  ghost predicate LatestSuccess(ttl: int, calls: seq<Call>, s: string, i: nat) {
    && i < |calls| && calls[i].state == s && UncleanedAnswer(ttl, calls, i)
    && forall j :: i < j < |calls| && calls[j].state == s ==> !UncleanedAnswer(ttl, calls, j)
  }

  lemma {:induction false} UncleanedHolds(ttl: int, calls: seq<Call>, s: string)
    ensures var all := RunUncleaned(ttl, calls);
            && (s in all ==> exists i: nat :: LatestSuccess(ttl, calls, s, i) && calls[i].now == all[s])
            && (s !in all ==> forall i :: 0 <= i < |calls| && calls[i].state == s ==> !UncleanedAnswer(ttl, calls, i))
  {
    if calls != [] {
      var n := |calls| - 1;
      var front := calls[..n];
      assert forall i :: 0 <= i < n ==> front[..i] == calls[..i];
      UncleanedHolds(ttl, front, s);
      var all := RunUncleaned(ttl, calls);
      if calls[n].state == s && UncleanedAnswer(ttl, calls, n) {
        assert LatestSuccess(ttl, calls, s, n) && calls[n].now == all[s];
      } else if s in all {
        var i: nat :| LatestSuccess(ttl, front, s, i) && front[i].now == RunUncleaned(ttl, front)[s];
        assert LatestSuccess(ttl, calls, s, i) && calls[i].now == all[s];
      }
    }
  }

  /** Said of the history alone: a claim succeeds if and only if every earlier success of the
      same state is at least a ttl away. So a state succeeds at most once per ttl. */
  lemma {:induction false} ClaimedOncePerTtl(start: int, ttl: int, calls: seq<Call>, j: nat)
    requires NeverBehind(start, ttl, calls) && 0 < ttl && j < |calls|
    ensures Answer(Table(map[], start), ttl, calls, j)
            <==> forall i :: 0 <= i < j && calls[i].state == calls[j].state
                             && Answer(Table(map[], start), ttl, calls, i) ==>
                   calls[j].now - calls[i].now >= ttl
    decreases j
  {
    var t0, s, front := Table(map[], start), calls[j].state, calls[..j];
    forall i | 0 <= i <= j ensures Answer(t0, ttl, calls, i) <==> UncleanedAnswer(ttl, calls, i) {
      CleanupInvisible(start, ttl, calls, i);
    }
    assert forall i :: 0 <= i < j ==> front[..i] == calls[..i];
    UncleanedHolds(ttl, front, s);
    if s in RunUncleaned(ttl, front) {
      var last: nat :| LatestSuccess(ttl, front, s, last) && front[last].now == RunUncleaned(ttl, front)[s];
      assert UncleanedAnswer(ttl, calls, last);
      ClaimedOncePerTtl(start, ttl, calls, last);
      forall i | 0 <= i < j && calls[i].state == s && Answer(t0, ttl, calls, i) && i != last
        ensures calls[last].now - calls[i].now >= ttl
      {
        assert front[i] == calls[i] && (UncleanedAnswer(ttl, front, i) <==> UncleanedAnswer(ttl, calls, i));
      }
    } else {
      forall i | 0 <= i < j && calls[i].state == s ensures !Answer(t0, ttl, calls, i) {
        assert front[i] == calls[i] && (UncleanedAnswer(ttl, front, i) <==> UncleanedAnswer(ttl, calls, i));
      }
    }
  }

  /** Whatever is kept after a call is less than two ttls old. */
  lemma RetainedYoung(start: int, ttl: int, calls: seq<Call>)
    requires NeverBehind(start, ttl, calls) && 0 < ttl && calls != []
    ensures var t, now := RunCalls(Table(map[], start), ttl, calls), calls[|calls| - 1].now;
            forall k :: k in t.claimedAt ==> now - t.claimedAt[k] < 2 * ttl
  {
    RunAgrees(start, ttl, calls);
  }

  /** The reading is taken before the lock, so a call can be overtaken by one that cleans: two
      callers may then both claim a state a second short of its ttl. */
  lemma OvertakenClaim()
    ensures var calls := [Call("s", 0), Call("x", 300), Call("s", 299)];
            && Answer(Table(map[], 0), 300, calls, 0) && Answer(Table(map[], 0), 300, calls, 2)
            && !UncleanedAnswer(300, calls, 2)
  {
    var t0, calls := Table(map[], 0), [Call("s", 0), Call("x", 300), Call("s", 299)];
    assert calls[..0] == [] && calls[..1] == [Call("s", 0)] && calls[..2] == [Call("s", 0), Call("x", 300)];
    assert calls[..2][..1] == calls[..1] && calls[..1][..0] == [];
    assert RunCalls(t0, 300, calls[..1]) == Table(map["s" := 0], 0);
    assert RunCalls(t0, 300, calls[..2]).claimedAt == map["x" := 300];
    assert RunUncleaned(300, calls[..1]) == map["s" := 0];
    assert RunUncleaned(300, calls[..2]) == map["s" := 0, "x" := 300];
  }
}
