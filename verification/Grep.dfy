/**
 The matcher of user/grep.c, proved against the language of the pattern: a
 sequence of characters, '.' for any character, each possibly starred, with '^'
 in front and '$' at the end as anchors.  Strings are given without their
 terminating zero.
 */
module Grep {
  datatype Atom = Any | Lit(c: char)

  datatype Elem = One(a: Atom) | Star(a: Atom)

  /** What a pattern says once a leading '^' is gone; atEnd is for a final '$'. */
  datatype Pattern = Pattern(elems: seq<Elem>, atEnd: bool)

  function AtomOf(c: char): Atom {
    if c == '.' then Any else Lit(c)
  }

  predicate Fits(a: Atom, c: char) {
    a.Any? || a.c == c
  }

  function Parse(re: string): Pattern {
    if re == [] then Pattern([], false)
    else if |re| > 1 && re[1] == '*' then
      var p := Parse(re[2..]);
      p.(elems := [Star(AtomOf(re[0]))] + p.elems)
    else if re == ['$'] then Pattern([], true)
    else
      var p := Parse(re[1..]);
      p.(elems := [One(AtomOf(re[0]))] + p.elems)
  }

  // ----- The language of a pattern

  predicate ElemMatches(e: Elem, s: string) {
    match e
    case One(a) => |s| == 1 && Fits(a, s[0])
    case Star(a) => forall i :: 0 <= i < |s| ==> Fits(a, s[i])
  }

  function Concat(pieces: seq<string>): string {
    if pieces == [] then [] else pieces[0] + Concat(pieces[1..])
  }

  /** s is made of one piece per element, each matched by its element. */
  ghost predicate MadeOf(es: seq<Elem>, s: string, pieces: seq<string>) {
    |pieces| == |es| && Concat(pieces) == s && forall i :: 0 <= i < |es| ==> ElemMatches(es[i], pieces[i])
  }

  ghost predicate InLanguage(es: seq<Elem>, s: string) {
    exists pieces: seq<string> :: MadeOf(es, s, pieces)
  }

  /** Some prefix of text, all of it when the pattern ends in '$', is in the language. */
  ghost predicate Here(p: Pattern, text: string) {
    exists n :: 0 <= n <= |text| && HereAt(p, text, n)
  }

  ghost predicate HereAt(p: Pattern, text: string, n: nat)
    requires n <= |text|
  {
    InLanguage(p.elems, text[..n]) && (p.atEnd ==> n == |text|)
  }

  /** Some suffix of text has such a prefix; after '^' the text itself has to. */
  ghost predicate Matches(re: string, text: string) {
    if re != [] && re[0] == '^' then Here(Parse(re[1..]), text)
    else exists k :: 0 <= k <= |text| && Here(Parse(re), text[k..])
  }

  // ----- Taking a pattern apart

  lemma EmptyLanguage(s: string)
    ensures InLanguage([], s) <==> s == []
  {
    if s == [] {
      assert MadeOf([], s, []);
    }
  }

  lemma JoinFirst(e: Elem, es: seq<Elem>, s: string, k: nat)
    requires k <= |s| && ElemMatches(e, s[..k]) && InLanguage(es, s[k..])
    ensures InLanguage([e] + es, s)
  {
    var pieces: seq<string> :| MadeOf(es, s[k..], pieces);
    var all := [s[..k]] + pieces;
    assert all[1..] == pieces;
    assert MadeOf([e] + es, s, all);
  }

  lemma SplitFirst(e: Elem, es: seq<Elem>, s: string) returns (k: nat)
    requires InLanguage([e] + es, s)
    ensures k <= |s| && ElemMatches(e, s[..k]) && InLanguage(es, s[k..])
  {
    var pieces: seq<string> :| MadeOf([e] + es, s, pieces);
    k := |pieces[0]|;
    assert s[..k] == pieces[0] && s[k..] == Concat(pieces[1..]);
    assert ElemMatches(([e] + es)[0], pieces[0]);
    forall i | 0 <= i < |es| ensures ElemMatches(es[i], pieces[1..][i]) {
      assert ElemMatches(([e] + es)[i + 1], pieces[i + 1]);
    }
    assert MadeOf(es, s[k..], pieces[1..]);
  }

  // ----- What each branch of matchhere relies on

  lemma HereEmpty(text: string)
    ensures Here(Parse([]), text)
  {
    EmptyLanguage(text[..0]);
    assert HereAt(Parse([]), text, 0);
  }

  lemma HereEnd(text: string)
    ensures Here(Parse(['$']), text) <==> text == []
  {
    var p := Parse(['$']);
    forall n | 0 <= n <= |text| ensures HereAt(p, text, n) <==> n == |text| == 0 {
      EmptyLanguage(text[..n]);
    }
    if text == [] {
      assert HereAt(p, text, 0);
    }
  }

  lemma HereOne(a: Atom, p: Pattern, text: string)
    ensures Here(p.(elems := [One(a)] + p.elems), text) <==> text != [] && Fits(a, text[0]) && Here(p, text[1..])
  {
    var q := p.(elems := [One(a)] + p.elems);
    if Here(q, text) {
      var n :| 0 <= n <= |text| && HereAt(q, text, n);
      var k := SplitFirst(One(a), p.elems, text[..n]);
      assert text[..n][k..] == text[1..][..n - 1];
      assert HereAt(p, text[1..], n - 1);
    }
    if text != [] && Fits(a, text[0]) && Here(p, text[1..]) {
      var n :| 0 <= n <= |text[1..]| && HereAt(p, text[1..], n);
      assert text[..n + 1][1..] == text[1..][..n] && text[..n + 1][..1] == [text[0]];
      JoinFirst(One(a), p.elems, text[..n + 1], 1);
      assert HereAt(q, text, n + 1);
    }
  }

  /** The first k characters all fit. */
  predicate AllFit(a: Atom, text: string, k: nat) {
    k <= |text| && forall i :: 0 <= i < k ==> Fits(a, text[i])
  }

  lemma HereStar(a: Atom, p: Pattern, text: string)
    ensures Here(p.(elems := [Star(a)] + p.elems), text) <==> exists k: nat :: AllFit(a, text, k) && Here(p, text[k..])
  {
    var q := p.(elems := [Star(a)] + p.elems);
    if Here(q, text) {
      var n :| 0 <= n <= |text| && HereAt(q, text, n);
      var k := SplitFirst(Star(a), p.elems, text[..n]);
      forall i | 0 <= i < k ensures Fits(a, text[i]) {
        assert text[i] == text[..n][..k][i];
      }
      assert text[..n][k..] == text[k..][..n - k];
      assert HereAt(p, text[k..], n - k);
      assert AllFit(a, text, k) && Here(p, text[k..]);
    }
    if exists k: nat :: AllFit(a, text, k) && Here(p, text[k..]) {
      var k: nat :| AllFit(a, text, k) && Here(p, text[k..]);
      var n :| 0 <= n <= |text[k..]| && HereAt(p, text[k..], n);
      assert text[..n + k][k..] == text[k..][..n] && text[..n + k][..k] == text[..k];
      JoinFirst(Star(a), p.elems, text[..n + k], k);
      assert HereAt(q, text, n + k);
    }
  }

  // ----- The program

  method MatchHere(re: string, text: string) returns (r: bool)
    ensures r <==> Here(Parse(re), text)
    decreases |re|, 0
  {
    if re == [] {
      HereEmpty(text);
      return true;
    }
    if |re| > 1 && re[1] == '*' {
      r := MatchStar(re[0], re[2..], text);
      HereStar(AtomOf(re[0]), Parse(re[2..]), text);
      return;
    }
    if re[0] == '$' && |re| == 1 {
      assert re == ['$'];
      HereEnd(text);
      return text == [];
    }
    HereOne(AtomOf(re[0]), Parse(re[1..]), text);
    if text != [] && (re[0] == '.' || re[0] == text[0]) {
      r := MatchHere(re[1..], text[1..]);
      return;
    }
    return false;
  }

  method MatchStar(c: char, re: string, text: string) returns (r: bool)
    ensures r <==> exists k: nat :: AllFit(AtomOf(c), text, k) && Here(Parse(re), text[k..])
    decreases |re|, 1
  {
    var k := 0;
    while true
      invariant AllFit(AtomOf(c), text, k)
      invariant forall j: nat :: j < k ==> !Here(Parse(re), text[j..])
      decreases |text| - k
    {
      r := MatchHere(re, text[k..]);
      if r {
        return;
      }
      if !(k < |text| && (text[k] == c || c == '.')) {
        return false;
      }
      k := k + 1;
    }
  }

  method Match(re: string, text: string) returns (r: bool)
    ensures r <==> Matches(re, text)
  {
    if re != [] && re[0] == '^' {
      r := MatchHere(re[1..], text);
      return;
    }
    var k := 0;
    while true
      invariant k <= |text| && forall j :: 0 <= j < k ==> !Here(Parse(re), text[j..])
      decreases |text| - k
    {
      r := MatchHere(re, text[k..]);
      if r {
        return;
      }
      if k == |text| {
        return false;
      }
      k := k + 1;
    }
  }
}
