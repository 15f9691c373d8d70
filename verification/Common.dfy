/** What several modules share: an optional value, lists as C code keeps them, and the size of sets. */
module Common {
  datatype Option<T> = None | Some(value: T)

  /** How often x is on the list. */
  function Count(l: seq<nat>, x: nat): nat {
    if l == [] then 0 else (if l[0] == x then 1 else 0) + Count(l[1..], x)
  }

  /** The list with the first x unlinked. */
  function Remove(l: seq<nat>, x: nat): seq<nat> {
    if l == [] then [] else if l[0] == x then l[1..] else [l[0]] + Remove(l[1..], x)
  }

  lemma {:induction false} CountIsMember(l: seq<nat>, x: nat)
    ensures Count(l, x) > 0 <==> x in l
  {
    if l != [] {
      CountIsMember(l[1..], x);
      assert l == [l[0]] + l[1..];
    }
  }

  lemma CountPush(l: seq<nat>, x: nat, y: nat)
    ensures Count([x] + l, y) == Count(l, y) + if x == y then 1 else 0
  {
    assert ([x] + l)[1..] == l;
  }

  lemma {:induction false} CountRemove(l: seq<nat>, x: nat, y: nat)
    ensures Count(Remove(l, x), y) == if x == y && Count(l, x) > 0 then Count(l, y) - 1 else Count(l, y)
  {
    if l != [] && l[0] != x {
      CountRemove(l[1..], x, y);
      CountPush(Remove(l[1..], x), l[0], y);
    }
  }

  lemma {:induction false} RemoveAt(l: seq<nat>, k: nat)
    requires k < |l| && forall j :: 0 <= j < k ==> l[j] != l[k]
    ensures Remove(l, l[k]) == l[..k] + l[k + 1..]
  {
    if k > 0 {
      var t := l[1..];
      assert t[k - 1] == l[k];
      RemoveAt(t, k - 1);
      assert t[..k - 1] == l[1..k] && t[k..] == l[k + 1..];
      assert [l[0]] + (l[1..k] + l[k + 1..]) == l[..k] + l[k + 1..];
    }
  }

  lemma {:induction false} SubsetIsSmaller<T>(a: set<T>, b: set<T>)
    requires a <= b
    ensures |a| <= |b|
  {
    if a != {} {
      var x :| x in a;
      SubsetIsSmaller(a - {x}, b - {x});
    }
  }

  /** What two growths in a row add. */
  lemma AddedTwice<T>(a: set<T>, b: set<T>, c: set<T>)
    requires a <= b <= c
    ensures |c - a| == |b - a| + |c - b|
  {
    assert c - a == (b - a) + (c - b) && (b - a) * (c - b) == {};
  }
}
