// First-occurrence de-duplication, the list algebra behind every multi-valued
// field of a client registration.
module Lists {

  datatype Option<+T> = None | Some(value: T)

  datatype Result<+T, +E> = Ok(value: T) | Err(error: E)

  ghost predicate NoDup<T(!new)>(xs: seq<T>) {
    forall i, j :: 0 <= i < j < |xs| ==> xs[i] != xs[j]
  }

  /** The elements of `xs`, each kept at its first occurrence only. */
  function Dedupe<T(==)>(xs: seq<T>): seq<T> {
    if xs == [] then []
    else
      var front, last := xs[..|xs| - 1], xs[|xs| - 1];
      if last in front then Dedupe(front) else Dedupe(front) + [last]
  }

  function IndexOf<T(==)>(xs: seq<T>, x: T): (i: nat)
    ensures i <= |xs|
    ensures i < |xs| <==> x in xs
    ensures i < |xs| ==> xs[i] == x
    ensures forall j :: 0 <= j < i ==> xs[j] != x
  {
    if xs == [] then 0 else if xs[0] == x then 0 else 1 + IndexOf(xs[1..], x)
  }

  lemma {:induction false} DedupeElements<T>(xs: seq<T>, x: T)
    ensures x in Dedupe(xs) <==> x in xs
  {
    if xs != [] {
      var front, last := xs[..|xs| - 1], xs[|xs| - 1];
      assert xs == front + [last];
      DedupeElements(front, x);
      DedupeElements(front, last);
    }
  }

  lemma {:induction false} DedupeNoDup<T(!new)>(xs: seq<T>)
    ensures NoDup(Dedupe(xs))
  {
    if xs != [] {
      var front, last := xs[..|xs| - 1], xs[|xs| - 1];
      DedupeNoDup(front);
      DedupeElements(front, last);
    }
  }

  /** Order is that of first occurrence in the input. */
  lemma {:induction false} DedupeOrder<T>(xs: seq<T>, i: nat, j: nat)
    requires i < j < |Dedupe(xs)|
    ensures IndexOf(xs, Dedupe(xs)[i]) < IndexOf(xs, Dedupe(xs)[j])
  {
    var front, last := xs[..|xs| - 1], xs[|xs| - 1];
    assert xs == front + [last];
    DedupeElements(front, Dedupe(xs)[i]);
    assert IndexOf(xs, Dedupe(xs)[i]) == IndexOf(front, Dedupe(xs)[i]) by {
      IndexOfPrefix(front, [last], Dedupe(xs)[i]);
    }
    if j < |Dedupe(front)| {
      DedupeOrder(front, i, j);
      DedupeElements(front, Dedupe(xs)[j]);
      IndexOfPrefix(front, [last], Dedupe(xs)[j]);
    } else {
      assert forall k :: 0 <= k < |front| ==> xs[k] == front[k];
    }
  }

  lemma IndexOfPrefix<T>(a: seq<T>, b: seq<T>, x: T)
    requires x in a
    ensures IndexOf(a + b, x) == IndexOf(a, x)
  {
    var i, k := IndexOf(a + b, x), IndexOf(a, x);
    assert (a + b)[k] == a[k];
    if i < k { assert (a + b)[i] == a[i]; }
  }

  lemma {:induction false} DedupeFixesNoDup<T(!new)>(xs: seq<T>)
    requires NoDup(xs)
    ensures Dedupe(xs) == xs
  {
    if xs != [] {
      var front, last := xs[..|xs| - 1], xs[|xs| - 1];
      assert xs == front + [last];
      DedupeFixesNoDup(front);
    }
  }

  /** Folding new entries into an already de-duplicated list loses nothing. */
  lemma {:induction false} DedupeAbsorb<T>(a: seq<T>, b: seq<T>)
    ensures Dedupe(Dedupe(a) + b) == Dedupe(a + b)
    decreases |b|
  {
    if b == [] {
      assert a + b == a && Dedupe(a) + b == Dedupe(a);
      DedupeTwice(a);
    } else {
      var front, last := b[..|b| - 1], b[|b| - 1];
      DedupeAbsorb(a, front);
      assert (Dedupe(a) + b)[..|Dedupe(a) + b| - 1] == Dedupe(a) + front;
      assert (a + b)[..|a + b| - 1] == a + front;
      DedupeElements(a, last);
    }
  }

  lemma {:induction false} DedupeTwice<T>(a: seq<T>)
    ensures Dedupe(Dedupe(a)) == Dedupe(a)
  {
    if a != [] {
      var front, last := a[..|a| - 1], a[|a| - 1];
      DedupeTwice(front);
      DedupeElements(front, last);
      assert (Dedupe(front) + [last])[..|Dedupe(front)|] == Dedupe(front);
    }
  }

  /** What is listed already stays, in place, as a prefix. */
  lemma {:induction false} DedupePrefix<T>(a: seq<T>, b: seq<T>)
    ensures Dedupe(a) <= Dedupe(a + b)
    decreases |b|
  {
    if b == [] {
      assert a + b == a;
    } else {
      DedupePrefix(a, b[..|b| - 1]);
      assert (a + b)[..|a + b| - 1] == a + b[..|b| - 1];
    }
  }

  /** dedupeStrings: one pass with a set of what was seen. */
  method DedupeStrings<T(==)>(xs: seq<T>) returns (out: seq<T>)
    ensures out == Dedupe(xs)
  {
    var seen: set<T> := {};
    out := [];
    for i := 0 to |xs|
      invariant seen == set k | 0 <= k < i :: xs[k]
      invariant out == Dedupe(xs[..i])
    {
      assert xs[..i + 1][..i] == xs[..i];
      if xs[i] !in seen {
        seen := seen + {xs[i]};
        out := out + [xs[i]];
      }
    }
    assert xs[..|xs|] == xs;
  }
}
