// Scope strings: a space-delimited list on the wire (RFC 6749 section 3.3),
// split with strings.Fields and rebuilt with strings.Join.
module Scopes {

  /** unicode.IsSpace. */
  predicate IsSpace(c: char) {
    '\U{9}' <= c <= '\U{D}' || c == ' ' || c == '\U{85}' || c == '\U{A0}' || c == '\U{1680}'
    || '\U{2000}' <= c <= '\U{200A}' || c == '\U{2028}' || c == '\U{2029}' || c == '\U{202F}'
    || c == '\U{205F}' || c == '\U{3000}'
  }

  predicate IsToken(w: string) {
    |w| > 0 && forall i :: 0 <= i < |w| ==> !IsSpace(w[i])
  }

  ghost predicate AllTokens(ws: seq<string>) {
    forall i :: 0 <= i < |ws| ==> IsToken(ws[i])
  }

  /** Length of the leading run of non-space characters. */
  function WordLength(s: string): (n: nat)
    ensures n <= |s|
    ensures forall i :: 0 <= i < n ==> !IsSpace(s[i])
    ensures n < |s| ==> IsSpace(s[n])
  {
    if s == "" || IsSpace(s[0]) then 0 else 1 + WordLength(s[1..])
  }

  /** strings.Fields */
  function Fields(s: string): (ws: seq<string>)
    ensures AllTokens(ws)
    decreases |s|
  {
    if s == "" then []
    else if IsSpace(s[0]) then Fields(s[1..])
    else var n := WordLength(s); [s[..n]] + Fields(s[n..])
  }

  /** strings.Join with a single space */
  function Join(ws: seq<string>): string {
    if ws == [] then "" else if |ws| == 1 then ws[0] else ws[0] + " " + Join(ws[1..])
  }

  /** hasScope */
  predicate HasScope(scope: string, target: string) {
    target in Fields(scope)
  }

  /** Joining tokens and splitting again gives the tokens back. */
  lemma {:induction false} FieldsJoin(ws: seq<string>)
    requires AllTokens(ws)
    ensures Fields(Join(ws)) == ws
  {
    if ws != [] {
      var rest := if |ws| == 1 then "" else " " + Join(ws[1..]);
      var s := Join(ws);
      assert s == ws[0] + rest;
      assert WordLength(s) == |ws[0]| by {
        assert forall i :: 0 <= i < |ws[0]| ==> s[i] == ws[0][i];
        assert |ws| > 1 ==> s[|ws[0]|] == ' ';
      }
      assert s[..|ws[0]|] == ws[0] && s[|ws[0]|..] == rest;
      if |ws| > 1 {
        FieldsJoin(ws[1..]);
        assert rest[1..] == Join(ws[1..]);
      }
    }
  }

  /** A token is one word, and a space between two strings keeps their words apart: all there is to say
      of splitting. */
  lemma FieldsOfToken(w: string)
    requires IsToken(w)
    ensures Fields(w) == [w]
  {
    FieldsJoin([w]);
  }

  lemma {:induction false} FieldsApart(a: string, space: char, b: string)
    requires IsSpace(space)
    ensures Fields(a + [space] + b) == Fields(a) + Fields(b)
    decreases |a|
  {
    hide Fields, WordLength;
    var s := a + [space] + b;
    if a == "" {
      assert s[1..] == b;
      SpaceFirst(s);
      NoFields();
    } else if IsSpace(a[0]) {
      assert s[1..] == a[1..] + [space] + b;
      SpaceFirst(s);
      SpaceFirst(a);
      FieldsApart(a[1..], space, b);
    } else {
      var n := WordLength(a);
      assert s == a + ([space] + b);
      WordStops(a, [space] + b);
      assert s[..n] == a[..n] && s[n..] == a[n..] + [space] + b;
      WordFirst(s);
      WordFirst(a);
      FieldsApart(a[n..], space, b);
    }
  }

  lemma NoFields()
    ensures Fields("") == []
  {}

  lemma SpaceFirst(s: string)
    requires s != "" && IsSpace(s[0])
    ensures Fields(s) == Fields(s[1..])
  {}

  lemma WordFirst(s: string)
    requires s != "" && !IsSpace(s[0])
    ensures 0 < WordLength(s) <= |s| && Fields(s) == [s[..WordLength(s)]] + Fields(s[WordLength(s)..])
  {}

  lemma {:induction false} WordStops(a: string, b: string)
    requires b != "" && IsSpace(b[0])
    ensures WordLength(a + b) == WordLength(a)
  {
    if a == "" {
      assert a + b == b;
    } else if !IsSpace(a[0]) {
      assert (a + b)[1..] == a[1..] + b;
      WordStops(a[1..], b);
    }
  }

  method HasScopeLoop(scope: string, target: string) returns (found: bool)
    ensures found == HasScope(scope, target)
  {
    var words := Fields(scope);
    for i := 0 to |words|
      invariant forall j :: 0 <= j < i ==> words[j] != target
    {
      if words[i] == target { return true; }
    }
    return false;
  }
}
