// The private_key_jwt replay cache: a table that forgets, measured against the
// list of every assertion ever accepted, which does not.
module Replay {
  import opened Lists
  import opened Claims
  import opened Idp

  const LEEWAY: int := 60 * SECOND
  const MAX_LIFETIME: int := 600 * SECOND

  /** One successful consumption. */
  datatype Acceptance = Acceptance(clientID: string, jti: string, exp: int, verifiedAt: int, at: int)

  function Key(clientID: string, jti: string): string {
    clientID + ['\0'] + jti
  }

  function KeyOf(a: Acceptance): string { Key(a.clientID, a.jti) }

  function Prune(jtis: map<string, int>, now: int): map<string, int> {
    map k | k in jtis && now <= jtis[k] :: jtis[k]
  }

  function Accepts(jtis: map<string, int>, key: string, now: int): bool {
    key !in Prune(jtis, now)
  }

  /** consumePrivateKeyJWTJTI: prune, then look, then record. */
  function Consume(jtis: map<string, int>, key: string, exp: int, now: int): map<string, int> {
    if Accepts(jtis, key, now) then Prune(jtis, now)[key := exp + LEEWAY] else Prune(jtis, now)
  }

  lemma KeyInjective(c: string, j: string, c': string, j': string)
    requires NulFree(c) && NulFree(c') && Key(c, j) == Key(c', j')
    ensures c == c' && j == j'
  {
    var m, m' := Key(c, j), Key(c', j');
    assert m[|c|] == '\0' && m'[|c'|] == '\0';
    assert forall i :: 0 <= i < |c| ==> m[i] == c[i];
    assert forall i :: 0 <= i < |c'| ==> m'[i] == c'[i];
    assert m[..|c|] == c && m'[..|c'|] == c' && m[|c| + 1..] == j && m'[|c'| + 1..] == j';
  }

  /** Two different client ids can share a key if and only if one begins like the other with a
      NUL behind it. */
  lemma KeySharedExactly(c: string, c': string)
    requires c != c'
    ensures (exists j, j' :: Key(c, j) == Key(c', j')) <==> c + ['\0'] <= c' || c' + ['\0'] <= c
  {
    if j, j' :| Key(c, j) == Key(c', j') {
      var m, m' := Key(c, j), Key(c', j');
      assert m == m' && m[..|c|] == c && m'[..|c'|] == c' && m[|c|] == '\0' && m'[|c'|] == '\0';
      if |c| < |c'| { assert c'[..|c| + 1] == m'[..|c| + 1] == c + ['\0']; }
      if |c'| < |c| { assert c[..|c'| + 1] == m[..|c'| + 1] == c' + ['\0']; }
    }
    if c + ['\0'] <= c' { ExtendedKey(c, c'); }
    if c' + ['\0'] <= c { ExtendedKey(c', c); }
  }

  lemma ExtendedKey(c: string, c': string)
    requires c + ['\0'] <= c'
    ensures Key(c, c'[|c| + 1..] + ['\0']) == Key(c', "")
  {
    assert c' == c + ['\0'] + c'[|c| + 1..];
  }

  /** With a NUL in a client id two different pairs share one key. */
  lemma KeyCollision()
    ensures Key("a", "\0b") == Key("a\0", "b")
  {
    assert "a" + ['\0'] + "\0b" == "a\0" + ['\0'] + "b";
  }

  // ---------------------------------------------------------------- the invariant

  ghost predicate Recorded(jtis: map<string, int>, a: Acceptance) {
    KeyOf(a) in jtis && jtis[KeyOf(a)] == a.exp + LEEWAY
  }

  /** Every acceptance still inside its window is in the table, and the table holds nothing else. */
  ghost predicate ReplayInv(jtis: map<string, int>, accepted: seq<Acceptance>, now: int) {
    && (forall i :: 0 <= i < |accepted| ==>
          accepted[i].verifiedAt <= accepted[i].at <= now && accepted[i].exp <= accepted[i].verifiedAt + MAX_LIFETIME)
    && (forall i :: 0 <= i < |accepted| && now <= accepted[i].exp + LEEWAY ==> Recorded(jtis, accepted[i]))
    && (forall k :: k in jtis ==> exists i ::
          0 <= i < |accepted| && KeyOf(accepted[i]) == k && Recorded(jtis, accepted[i]))
    && (forall i, j :: 0 <= i < j < |accepted| && KeyOf(accepted[i]) == KeyOf(accepted[j]) ==>
          accepted[i].exp + LEEWAY < accepted[j].at)
  }

  lemma ReplayLater(jtis: map<string, int>, accepted: seq<Acceptance>, now: int, later: int)
    requires ReplayInv(jtis, accepted, now) && now <= later
    ensures ReplayInv(jtis, accepted, later)
  {}

  /** The forgetful table answers exactly as the full history does: a pair is refused if
      and only if some earlier acceptance of it is not yet past its expiry plus leeway. */
  lemma RefinesHistory(jtis: map<string, int>, accepted: seq<Acceptance>, now: int, key: string)
    requires ReplayInv(jtis, accepted, now)
    ensures Accepts(jtis, key, now)
            <==> forall i :: 0 <= i < |accepted| && KeyOf(accepted[i]) == key ==> accepted[i].exp + LEEWAY < now
  {
    if key in Prune(jtis, now) {
      var i :| 0 <= i < |accepted| && KeyOf(accepted[i]) == key && Recorded(jtis, accepted[i]);
    }
    forall i | 0 <= i < |accepted| && KeyOf(accepted[i]) == key && now <= accepted[i].exp + LEEWAY
      ensures key in Prune(jtis, now)
    {
      assert Recorded(jtis, accepted[i]);
    }
  }

  lemma PruneKeeps(jtis: map<string, int>, accepted: seq<Acceptance>, now: int)
    requires ReplayInv(jtis, accepted, now)
    ensures ReplayInv(Prune(jtis, now), accepted, now)
  {
    forall k | k in Prune(jtis, now)
      ensures exists i :: 0 <= i < |accepted| && KeyOf(accepted[i]) == k && Recorded(Prune(jtis, now), accepted[i])
    {
      var i :| 0 <= i < |accepted| && KeyOf(accepted[i]) == k && Recorded(jtis, accepted[i]);
      assert Recorded(Prune(jtis, now), accepted[i]);
    }
  }

  lemma RecordKeeps(jtis: map<string, int>, accepted: seq<Acceptance>, now: int, a: Acceptance)
    requires ReplayInv(jtis, accepted, now) && KeyOf(a) !in jtis
    requires forall i :: 0 <= i < |accepted| && KeyOf(accepted[i]) == KeyOf(a) ==> accepted[i].exp + LEEWAY < now
    requires a.verifiedAt <= a.at == now && a.exp <= a.verifiedAt + MAX_LIFETIME
    ensures ReplayInv(jtis[KeyOf(a) := a.exp + LEEWAY], accepted + [a], now)
  {
    hide KeyOf;
    var jtis', all := jtis[KeyOf(a) := a.exp + LEEWAY], accepted + [a];
    forall i | 0 <= i < |all| && now <= all[i].exp + LEEWAY ensures Recorded(jtis', all[i]) {
      if i < |accepted| { assert Recorded(jtis, accepted[i]); }
    }
    forall k | k in jtis' ensures exists i :: 0 <= i < |all| && KeyOf(all[i]) == k && Recorded(jtis', all[i]) {
      if k == KeyOf(a) {
        assert all[|accepted|] == a && Recorded(jtis', a);
      } else {
        var i :| 0 <= i < |accepted| && KeyOf(accepted[i]) == k && Recorded(jtis, accepted[i]);
        assert all[i] == accepted[i] && Recorded(jtis', all[i]);
      }
    }
  }

  lemma ConsumeKeeps(jtis: map<string, int>, accepted: seq<Acceptance>, now: int, a: Acceptance)
    requires ReplayInv(jtis, accepted, now)
    requires a.verifiedAt <= a.at == now && a.exp <= a.verifiedAt + MAX_LIFETIME
    ensures ReplayInv(Consume(jtis, KeyOf(a), a.exp, now),
                      if Accepts(jtis, KeyOf(a), now) then accepted + [a] else accepted, now)
  {
    hide KeyOf, ReplayInv, Prune;
    PruneKeeps(jtis, accepted, now);
    if Accepts(jtis, KeyOf(a), now) {
      RefinesHistory(jtis, accepted, now, KeyOf(a));
      RecordKeeps(Prune(jtis, now), accepted, now, a);
    }
  }

  // ---------------------------------------------------------------- retention

  function Window(accepted: seq<Acceptance>, now: int): set<int> {
    set i | 0 <= i < |accepted| && now - MAX_LIFETIME - LEEWAY <= accepted[i].at
  }

  lemma {:induction false} ImageBound(keys: set<string>, accepted: seq<Acceptance>, ids: set<int>)
    requires forall i :: i in ids ==> 0 <= i < |accepted|
    requires forall k :: k in keys ==> exists i :: i in ids && KeyOf(accepted[i]) == k
    ensures |keys| <= |ids|
    decreases |keys|
  {
    if keys != {} {
      var k :| k in keys;
      var i :| i in ids && KeyOf(accepted[i]) == k;
      forall k' | k' in keys - {k} ensures exists i' :: i' in ids - {i} && KeyOf(accepted[i']) == k' {
        var i' :| i' in ids && KeyOf(accepted[i']) == k';
        assert i' in ids - {i};
      }
      ImageBound(keys - {k}, accepted, ids - {i});
    }
  }

  lemma PrunedInWindow(jtis: map<string, int>, accepted: seq<Acceptance>, now: int, k: string)
    requires ReplayInv(jtis, accepted, now) && k in Prune(jtis, now)
    ensures exists i :: i in Window(accepted, now) && KeyOf(accepted[i]) == k
  {
    var i :| 0 <= i < |accepted| && KeyOf(accepted[i]) == k && Recorded(jtis, accepted[i]);
    assert i in Window(accepted, now);
  }

  /** After any consumption, successful or not, every record was inserted in the last 660
      seconds, and there are at most as many records as consumptions in that window. */
  lemma RetentionBound(jtis: map<string, int>, accepted: seq<Acceptance>, now: int, a: Acceptance)
    requires ReplayInv(jtis, accepted, now)
    requires a.verifiedAt <= a.at == now && a.exp <= a.verifiedAt + MAX_LIFETIME
    ensures var jtis' := Consume(jtis, KeyOf(a), a.exp, now);
            var all := if Accepts(jtis, KeyOf(a), now) then accepted + [a] else accepted;
            && (forall k :: k in jtis' ==> exists i :: i in Window(all, now) && KeyOf(all[i]) == k)
            && |jtis'| <= |Window(all, now)|
  {
    var jtis' := Consume(jtis, KeyOf(a), a.exp, now);
    var all := if Accepts(jtis, KeyOf(a), now) then accepted + [a] else accepted;
    forall k | k in jtis' ensures exists i :: i in Window(all, now) && KeyOf(all[i]) == k {
      if k in Prune(jtis, now) {
        PrunedInWindow(jtis, accepted, now, k);
        var i :| i in Window(accepted, now) && KeyOf(accepted[i]) == k;
        assert all[i] == accepted[i] && i in Window(all, now);
      } else {
        assert all[|accepted|] == a && |accepted| in Window(all, now);
      }
    }
    ImageBound(jtis'.Keys, all, Window(all, now));
    assert |jtis'| == |jtis'.Keys|;
  }

  // ---------------------------------------------------------------- one assertion, presented twice

  /** Presented again, an assertion is accepted if and only if it is consumed after its
      expiry plus leeway - at a moment when verification would already refuse it. */
  lemma SameAssertionAgain(jtis: map<string, int>, accepted: seq<Acceptance>, now: int, i: nat)
    requires ReplayInv(jtis, accepted, now) && i < |accepted|
    requires forall j :: i < j < |accepted| ==> KeyOf(accepted[j]) != KeyOf(accepted[i])
    ensures Accepts(jtis, KeyOf(accepted[i]), now) <==> accepted[i].exp + LEEWAY < now
  {
    RefinesHistory(jtis, accepted, now, KeyOf(accepted[i]));
    forall j | 0 <= j < |accepted| && KeyOf(accepted[j]) == KeyOf(accepted[i]) && accepted[i].exp + LEEWAY < now
      ensures accepted[j].exp + LEEWAY < now
    {
      if j < i { assert accepted[j].exp + LEEWAY < accepted[i].at; }
    }
  }

  /** Verification and consumption read the clock separately, so an assertion verified in
      the last second of its window and consumed after it is accepted twice. */
  lemma AcceptedTwice()
    ensures var k := Key("https://rp.example/client", "1");
            var exp := 100 * SECOND;
            var first := Consume(map[], k, exp, 50 * SECOND);
            && Accepts(map[], k, 50 * SECOND)
            && 159 * SECOND < exp + LEEWAY && exp <= 159 * SECOND + MAX_LIFETIME
            && Accepts(first, k, 161 * SECOND) && !Accepts(first, k, 159 * SECOND)
  {}
}
