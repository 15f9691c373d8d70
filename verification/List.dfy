/**
 The circular doubly linked list of kernel/list.c, under the buddy
 allocator's free lists.  Nodes are addresses; next and prev are the memory
 words the code rewrites, shared by all lists.
 */
module List {
  datatype Links = Links(next: map<nat, nat>, prev: map<nat, nat>)

  /** The nodes in walking order, with the head at both ends. */
  function Cycle(lst: nat, s: seq<nat>): seq<nat> {
    [lst] + s + [lst]
  }

  ghost predicate Linked(l: Links, c: seq<nat>, i: nat)
    requires i + 1 < |c|
  {
    c[i] in l.next && l.next[c[i]] == c[i + 1] && c[i + 1] in l.prev && l.prev[c[i + 1]] == c[i]
  }

  /** Head lst heads a list holding s: next and prev go round it in opposite directions, no node twice. */
  ghost predicate Ring(l: Links, lst: nat, s: seq<nat>) {
    && lst !in s
    && (forall i, j :: 0 <= i < j < |s| ==> s[i] != s[j])
    && (forall i :: 0 <= i <= |s| ==> Linked(l, Cycle(lst, s), i))
  }

  ghost predicate Apart(lst: nat, s: seq<nat>, p: nat) {
    p != lst && p !in s
  }

  /** Memory determines the list: the abstraction is a function of the pointers. */
  lemma {:induction false} RingIsUnique(l: Links, lst: nat, s: seq<nat>, t: seq<nat>, n: nat)
    requires Ring(l, lst, s) && Ring(l, lst, t) && n <= |s| && n <= |t|
    ensures s[..n] == t[..n]
    ensures n == |s| ==> |t| == |s|
    ensures n == |t| ==> |t| == |s|
    decreases n
  {
    assert Linked(l, Cycle(lst, s), n) && Linked(l, Cycle(lst, t), n);
    if n > 0 {
      RingIsUnique(l, lst, s, t, n - 1);
      assert Linked(l, Cycle(lst, s), n - 1) && Linked(l, Cycle(lst, t), n - 1);
      assert s[..n] == s[..n - 1] + [s[n - 1]] && t[..n] == t[..n - 1] + [t[n - 1]];
    }
  }

  /** The two writes of lst_remove. */
  function AfterRemove(l: Links, e: nat): Links
    requires e in l.next && e in l.prev
  {
    Links(l.next[l.prev[e] := l.next[e]], l.prev[l.next[e] := l.prev[e]])
  }

  /** The four writes of lst_push. */
  function AfterPush(l: Links, lst: nat, e: nat): Links
    requires lst in l.next
  {
    var next := l.next[e := l.next[lst]];
    var prev := l.prev[e := lst];
    Links(next[lst := e], prev[l.next[lst] := e])
  }

  /** lst_push puts the node first. */
  lemma PushFirst(l: Links, lst: nat, s: seq<nat>, e: nat)
    requires Ring(l, lst, s) && Apart(lst, s, e)
    ensures lst in l.next && Ring(AfterPush(l, lst, e), lst, [e] + s)
  {
    var c, d := Cycle(lst, s), Cycle(lst, [e] + s);
    assert Linked(l, c, 0);
    var m := AfterPush(l, lst, e);
    forall i | 0 <= i <= |s| + 1 ensures Linked(m, d, i) {
      if i >= 2 {
        assert Linked(l, c, i - 1);
      }
    }
  }

  /** lst_remove takes out the node it is given, wherever it stands. */
  lemma RemoveMiddle(l: Links, lst: nat, a: seq<nat>, e: nat, b: seq<nat>)
    requires Ring(l, lst, a + [e] + b)
    ensures e in l.next && e in l.prev && Ring(AfterRemove(l, e), lst, a + b)
  {
    var s := a + [e] + b;
    var c, d := Cycle(lst, s), Cycle(lst, a + b);
    assert Linked(l, c, |a|) && Linked(l, c, |a| + 1);
    assert s[|a|] == e;
    var m := AfterRemove(l, e);
    forall i, j | 0 <= i < j < |a + b| ensures (a + b)[i] != (a + b)[j] {
      var i', j' := if i < |a| then i else i + 1, if j < |a| then j else j + 1;
      assert s[i'] != s[j'];
    }
    forall i | 0 <= i <= |a + b| ensures Linked(m, d, i) {
      var i' := if i <= |a| then i else i + 1;
      assert Linked(l, c, i');
      CycleDistinct(l, lst, s, i', |a|);
      CycleDistinct(l, lst, s, i' + 1, |a| + 2);
    }
  }

  /** Two places of the cycle hold the same node only when both are the head. */
  lemma CycleDistinct(l: Links, lst: nat, s: seq<nat>, i: nat, j: nat)
    requires Ring(l, lst, s) && i < |s| + 2 && j < |s| + 2
    ensures Cycle(lst, s)[i] == Cycle(lst, s)[j] ==> i == j || {i, j} == {0, |s| + 1}
  {
    var c := Cycle(lst, s);
    if 1 <= i <= |s| && 1 <= j <= |s| {
      assert if i < j then s[i - 1] != s[j - 1] else i > j ==> s[j - 1] != s[i - 1];
    } else if 1 <= i <= |s| {
      assert c[i] in s;
    } else if 1 <= j <= |s| {
      assert c[j] in s;
    }
  }

  /** A list none of whose nodes had a word rewritten is untouched. */
  lemma Untouched(l: Links, m: Links, lst: nat, s: seq<nat>)
    requires Ring(l, lst, s)
    requires forall p :: p == lst || p in s ==>
      (p in l.next ==> p in m.next && m.next[p] == l.next[p]) && (p in l.prev ==> p in m.prev && m.prev[p] == l.prev[p])
    ensures Ring(m, lst, s)
  {
    var c := Cycle(lst, s);
    forall i | 0 <= i <= |s| ensures Linked(m, c, i) {
      assert Linked(l, c, i);
      assert c[i] == lst || c[i] in s;
      assert c[i + 1] == lst || c[i + 1] in s;
    }
  }

  /** Pushing on, or removing from, one list leaves every other list alone. */
  lemma OtherListsKept(l: Links, lst: nat, s: seq<nat>, e: nat, other: nat, t: seq<nat>)
    requires Ring(l, lst, s) && Ring(l, other, t)
    requires other != lst && other !in s && lst !in t && (forall p :: p in s ==> p !in t)
    ensures Apart(other, t, e) ==> lst in l.next && Ring(AfterPush(l, lst, e), other, t)
    ensures e in s ==> e in l.next && e in l.prev && Ring(AfterRemove(l, e), other, t)
  {
    var c := Cycle(lst, s);
    assert Linked(l, c, 0);
    assert c[1] == lst || c[1] in s;
    if Apart(other, t, e) {
      Untouched(l, AfterPush(l, lst, e), other, t);
    }
    if e in s {
      var k :| 0 <= k < |s| && s[k] == e;
      assert Linked(l, c, k) && Linked(l, c, k + 1);
      assert c[k] == lst || c[k] in s;
      assert c[k + 2] == lst || c[k + 2] in s;
      Untouched(l, AfterRemove(l, e), other, t);
    }
  }

  class Memory {
    var next: map<nat, nat>
    var prev: map<nat, nat>

    ghost function L(): Links
      reads this
    {
      Links(next, prev)
    }

    constructor ()
      ensures L() == Links(map[], map[])
    {
      next, prev := map[], map[];
    }

    method Init(lst: nat)
      modifies this
      ensures Ring(L(), lst, [])
      ensures L() == Links(old(next)[lst := lst], old(prev)[lst := lst])
    {
      next := next[lst := lst];
      prev := prev[lst := lst];
    }

    method Empty(lst: nat, ghost s: seq<nat>) returns (r: bool)
      requires Ring(L(), lst, s)
      ensures r <==> s == []
    {
      assert Linked(L(), Cycle(lst, s), 0);
      r := next[lst] == lst;
    }

    method Remove(e: nat)
      requires e in next && e in prev
      modifies this
      ensures L() == AfterRemove(old(L()), e)
    {
      next := next[prev[e] := next[e]];
      prev := prev[next[e] := prev[e]];
    }

    /** lst_pop: not ok is the panic on an empty list. */
    method Pop(lst: nat, ghost s: seq<nat>) returns (ok: bool, e: nat)
      requires Ring(L(), lst, s)
      modifies this
      ensures ok <==> s != []
      ensures ok ==>
        e == s[0] && Ring(L(), lst, s[1..]) && e in old(next) && e in old(prev) && L() == AfterRemove(old(L()), e)
      ensures !ok ==> L() == old(L())
    {
      assert Linked(L(), Cycle(lst, s), 0);
      ok, e := next[lst] != lst, next[lst];
      if ok {
        assert s == [] + [s[0]] + s[1..] && s[1..] == [] + s[1..];
        RemoveMiddle(L(), lst, [], s[0], s[1..]);
        Remove(e);
      }
    }

    method Push(lst: nat, e: nat, ghost s: seq<nat>)
      requires Ring(L(), lst, s) && Apart(lst, s, e)
      modifies this
      ensures Ring(L(), lst, [e] + s) && lst in old(next) && L() == AfterPush(old(L()), lst, e)
    {
      PushFirst(L(), lst, s, e);
      next := next[e := next[lst]];
      prev := prev[e := lst];
      prev := prev[next[lst] := e];
      next := next[lst := e];
    }
  }
}
