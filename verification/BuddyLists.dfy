/**
 The free lists of kernel/buddy.c as kernel/list.c keeps them: circular lists
 whose nodes are the free blocks themselves, all in one memory, with their heads
 in the allocator's own data.  The list calls of bd_init set this memory up, and
 those of bd_malloc and bd_free do to it what Buddy says happens to the lists.
 */
module BuddyLists {
  import opened Common
  import opened Buddy
  import I = BuddyInit
  import L = List

  /** The nodes of the list of level k: the addresses of its blocks. */
  function Addrs(k: nat, l: seq<nat>): (a: seq<nat>)
    ensures |a| == |l| && forall j :: 0 <= j < |l| ==> a[j] == Addr(k, l[j])
  {
    seq(|l|, j requires 0 <= j < |l| => Addr(k, l[j]))
  }

  ghost predicate ListAt(m: L.Links, heads: seq<nat>, s: State, k: nat) {
    k < |heads| && k < |s.free| ==> L.Ring(m, heads[k], Addrs(k, s.free[k]))
  }

  /** Each level has a head of its own, inside a reserved leaf. */
  ghost predicate HeadsOk(heads: seq<nat>, s: State, reserved: set<nat>) {
    && |heads| == |s.free|
    && (forall j, k :: 0 <= j < k < |heads| ==> heads[j] != heads[k])
    && (forall k :: 0 <= k < |heads| ==> heads[k] / LEAF_SIZE in reserved)
  }

  ghost predicate Stored(m: L.Links, heads: seq<nat>, s: State, reserved: set<nat>) {
    HeadsOk(heads, s, reserved) && forall k: nat {:trigger ListAt(m, heads, s, k)} :: ListAt(m, heads, s, k)
  }

  // ----- Whose address it is

  /** The block of level k around the leaf at the address of y is y. */
  lemma AroundOwnAddress(y: Node)
    ensures At(Addr(y.k, y.i) / LEAF_SIZE, y.k) == y
  {
    AddrRoundTrip(y.k, y.i);
    BlkIndexIsAt(y.k, Addr(y.k, y.i));
  }

  /** Two whole blocks around one leaf are the same block. */
  lemma WholeIsUnique(s: State, reserved: set<nat>, leaf: nat, j: nat, k: nat)
    requires Inv(s, reserved) && j < s.nsizes && k < s.nsizes && Whole(s, At(leaf, j)) && Whole(s, At(leaf, k))
    ensures j == k
  {
    UsedInHeap(s, reserved, leaf, j);
    var l := Tiling(s, reserved, leaf);
  }

  /** A free block at an address inside the whole block w is w. */
  lemma FreeAtAddress(s: State, reserved: set<nat>, w: Node, a: nat, y: Node)
    requires Inv(s, reserved) && w.k < s.nsizes && Whole(s, w) && At(a / LEAF_SIZE, w.k) == w
    requires s.IsFree(y) && y.k < s.nsizes && Addr(y.k, y.i) == a
    ensures y == w
  {
    AroundOwnAddress(y);
    assert NodeOk(s, reserved, y);
    WholeIsUnique(s, reserved, a / LEAF_SIZE, w.k, y.k);
  }

  /** Inside a whole block that is not a reserved leaf there is no list head. */
  lemma NoHeadInside(s: State, reserved: set<nat>, w: Node, a: nat)
    requires Inv(s, reserved) && w.k < s.nsizes && Whole(s, w) && At(a / LEAF_SIZE, w.k) == w
    requires !(w.k == 0 && w.i in reserved)
    ensures a / LEAF_SIZE !in reserved
  {
    var leaf := a / LEAF_SIZE;
    if leaf in reserved {
      assert NodeOk(s, reserved, Node(0, leaf));
      WholeIsUnique(s, reserved, leaf, 0, w.k);
    }
  }

  /** What is on a free list is a free block. */
  lemma ListedIsFree(s: State, reserved: set<nat>, k: nat, i: nat)
    requires Inv(s, reserved) && k < s.nsizes && i in s.free[k]
    ensures s.IsFree(Node(k, i)) && Whole(s, Node(k, i)) && !(k == 0 && i in reserved)
  {
    CountIsMember(s.free[k], i);
    assert NodeOk(s, reserved, Node(k, i));
  }

  /** Address a inside the live block w is neither a head nor a node of any list. */
  lemma LiveIsApart(heads: seq<nat>, s: State, reserved: set<nat>, w: Node, a: nat, k: nat)
    requires Inv(s, reserved) && HeadsOk(heads, s, reserved) && k < s.nsizes
    requires IsLive(s, reserved, w) && w.k < s.nsizes && At(a / LEAF_SIZE, w.k) == w
    ensures L.Apart(heads[k], Addrs(k, s.free[k]), a)
  {
    assert NodeOk(s, reserved, w);
    NoHeadInside(s, reserved, w, a);
    forall j | 0 <= j < |s.free[k]| ensures Addr(k, s.free[k][j]) != a {
      var y := Node(k, s.free[k][j]);
      ListedIsFree(s, reserved, k, y.i);
      if Addr(y.k, y.i) == a {
        FreeAtAddress(s, reserved, w, a, y);
      }
    }
  }

  /** The lists of two levels have nothing in common. */
  lemma ListsApart(heads: seq<nat>, s: State, reserved: set<nat>, j: nat, k: nat)
    requires Inv(s, reserved) && HeadsOk(heads, s, reserved) && j < s.nsizes && k < s.nsizes && j != k
    ensures heads[j] != heads[k] && heads[j] !in Addrs(k, s.free[k])
    ensures forall p :: p in Addrs(j, s.free[j]) ==> p !in Addrs(k, s.free[k])
  {
    forall n | 0 <= n < |s.free[k]|
      ensures Addr(k, s.free[k][n]) != heads[j] && Addr(k, s.free[k][n]) !in Addrs(j, s.free[j])
    {
      var y := Node(k, s.free[k][n]);
      ListedIsFree(s, reserved, k, y.i);
      AroundOwnAddress(y);
      NoHeadInside(s, reserved, y, Addr(y.k, y.i));
      forall o | 0 <= o < |s.free[j]| ensures Addr(j, s.free[j][o]) != Addr(y.k, y.i) {
        ListedIsFree(s, reserved, j, s.free[j][o]);
        if Addr(j, s.free[j][o]) == Addr(y.k, y.i) {
          FreeAtAddress(s, reserved, y, Addr(y.k, y.i), Node(j, s.free[j][o]));
        }
      }
    }
  }

  // ----- One list call

  /** lst_push of the block (k, i), inside a live block, on the list of level k. */
  lemma PushStored(m: L.Links, heads: seq<nat>, s: State, reserved: set<nat>, w: Node, k: nat, i: nat, t: State)
    requires Inv(s, reserved) && Stored(m, heads, s, reserved) && k < s.nsizes
    requires IsLive(s, reserved, w) && w.k < s.nsizes && At(Addr(k, i) / LEAF_SIZE, w.k) == w
    requires t.free == s.free[k := [i] + s.free[k]]
    ensures heads[k] in m.next && Stored(L.AfterPush(m, heads[k], Addr(k, i)), heads, t, reserved)
  {
    var a := Addr(k, i);
    assert ListAt(m, heads, s, k);
    LiveIsApart(heads, s, reserved, w, a, k);
    L.PushFirst(m, heads[k], Addrs(k, s.free[k]), a);
    assert [a] + Addrs(k, s.free[k]) == Addrs(k, t.free[k]);
    forall j: nat ensures ListAt(L.AfterPush(m, heads[k], a), heads, t, j) {
      if j < |heads| && j != k {
        assert ListAt(m, heads, s, j);
        LiveIsApart(heads, s, reserved, w, a, j);
        ListsApart(heads, s, reserved, j, k);
        ListsApart(heads, s, reserved, k, j);
        L.OtherListsKept(m, heads[k], Addrs(k, s.free[k]), a, heads[j], Addrs(j, s.free[j]));
      }
    }
  }

  /** lst_remove of the block (k, i) from the list of level k; lst_pop is the case of the first. */
  lemma RemoveStored(m: L.Links, heads: seq<nat>, s: State, reserved: set<nat>, k: nat, i: nat, t: State)
    requires Inv(s, reserved) && Stored(m, heads, s, reserved) && k < s.nsizes && i in s.free[k]
    requires t.free == s.free[k := Remove(s.free[k], i)]
    ensures Addr(k, i) in m.next && Addr(k, i) in m.prev
    ensures Stored(L.AfterRemove(m, Addr(k, i)), heads, t, reserved)
  {
    var a := Addr(k, i);
    assert ListAt(m, heads, s, k);
    var n :| 0 <= n < |s.free[k]| && s.free[k][n] == i;
    RemoveFromRing(m, heads[k], k, s.free[k], n);
    forall j: nat ensures ListAt(L.AfterRemove(m, a), heads, t, j) {
      if j < |heads| && j != k {
        assert ListAt(m, heads, s, j);
        ListsApart(heads, s, reserved, j, k);
        ListsApart(heads, s, reserved, k, j);
        L.OtherListsKept(m, heads[k], Addrs(k, s.free[k]), a, heads[j], Addrs(j, s.free[j]));
      }
    }
  }

  lemma AddrsWithout(k: nat, l: seq<nat>, n: nat)
    requires n < |l|
    ensures Addrs(k, l[..n] + l[n + 1..]) == Addrs(k, l)[..n] + Addrs(k, l)[n + 1..]
  {
  }

  lemma FirstIndex(k: nat, l: seq<nat>, n: nat)
    requires n < |l| && forall i, j :: 0 <= i < j < |l| ==> Addrs(k, l)[i] != Addrs(k, l)[j]
    ensures forall j :: 0 <= j < n ==> l[j] != l[n]
  {
    forall j | 0 <= j < n ensures l[j] != l[n] {
      assert Addrs(k, l)[j] != Addrs(k, l)[n];
    }
  }

  lemma RemoveNth(m: L.Links, head: nat, s: seq<nat>, n: nat)
    requires L.Ring(m, head, s) && n < |s|
    ensures s[n] in m.next && s[n] in m.prev && L.Ring(L.AfterRemove(m, s[n]), head, s[..n] + s[n + 1..])
  {
    hide L.Ring;
    assert s == s[..n] + [s[n]] + s[n + 1..];
    L.RemoveMiddle(m, head, s[..n], s[n], s[n + 1..]);
  }

  /** Unlinking a node takes out that entry of the list. */
  lemma RemoveFromRing(m: L.Links, head: nat, k: nat, l: seq<nat>, n: nat)
    requires L.Ring(m, head, Addrs(k, l)) && n < |l|
    ensures var a := Addr(k, l[n]); a in Addrs(k, l) && a in m.next && a in m.prev
    ensures L.Ring(L.AfterRemove(m, Addr(k, l[n])), head, Addrs(k, Remove(l, l[n])))
  {
    FirstIndex(k, l, n);
    hide L.Ring, Addr, Remove;
    RemoveAt(l, n);
    AddrsWithout(k, l, n);
    RemoveNth(m, head, Addrs(k, l), n);
    assert Addrs(k, l)[n] in Addrs(k, l);
  }

  // ----- bd_malloc and bd_free

  /** The calls of lst_push in bd_malloc's loop. */
  function SplitDownLinks(m: L.Links, heads: seq<nat>, k: nat, i: nat, fk: nat): L.Links
    requires fk <= k <= |heads|
    decreases k
  {
    if k == fk || heads[k - 1] !in m.next then m
    else SplitDownLinks(L.AfterPush(m, heads[k - 1], Addr(k - 1, 2 * i + 1)), heads, k - 1, 2 * i, fk)
  }

  lemma {:induction false} SplitDownStored(m: L.Links, heads: seq<nat>, s: State, reserved: set<nat>, k: nat, i: nat,
      fk: nat)
    requires Inv(s, reserved) && Stored(m, heads, s, reserved) && IsLive(s, reserved, Node(k, i))
    requires fk <= k < s.nsizes
    ensures Stored(SplitDownLinks(m, heads, k, i, fk), heads, SplitDown(s, k, i, fk).0, reserved)
    decreases k
  {
    if k > fk {
      var z := Node(k - 1, 2 * i + 1);
      AroundOwnAddress(z);
      AtLevel(Addr(z.k, z.i) / LEAF_SIZE, k);
      assert At(Addr(z.k, z.i) / LEAF_SIZE, k) == z.Parent() == Node(k, i);
      SplitOffKeepsInv(s, reserved, k, i);
      PushStored(m, heads, s, reserved, Node(k, i), k - 1, 2 * i + 1, SplitOff(s, k, i));
      SplitDownStored(L.AfterPush(m, heads[k - 1], Addr(k - 1, 2 * i + 1)), heads, SplitOff(s, k, i), reserved, k - 1,
        2 * i, fk);
    }
  }

  /** The list calls of bd_malloc: one lst_pop, then a lst_push for every split. */
  function MallocLinks(m: L.Links, heads: seq<nat>, s: State, fk: nat): L.Links
    requires |s.free| == s.nsizes == |heads|
  {
    var k := FirstNonEmpty(s, fk);
    if k >= s.nsizes then m else
      var i := s.free[k][0];
      if Addr(k, i) in m.next && Addr(k, i) in m.prev
      then SplitDownLinks(L.AfterRemove(m, Addr(k, i)), heads, k, i, fk) else m
  }

  /** After bd_malloc's list calls memory holds the lists of the state Malloc leads to. */
  lemma MallocStored(m: L.Links, heads: seq<nat>, s: State, reserved: set<nat>, fk: nat)
    requires Inv(s, reserved) && Stored(m, heads, s, reserved)
    ensures var t := if Malloc(s, fk).Some? then Malloc(s, fk).value.0 else s;
      Stored(MallocLinks(m, heads, s, fk), heads, t, reserved)
  {
    var k := FirstNonEmpty(s, fk);
    if k < s.nsizes {
      var i := s.free[k][0];
      assert Remove(s.free[k], i) == s.free[k][1..];
      RemoveStored(m, heads, s, reserved, k, i, Take(s, k));
      TakeKeepsInv(s, reserved, k);
      TakeLive(s, reserved, k, Node(k, i));
      SplitDownStored(L.AfterRemove(m, Addr(k, i)), heads, Take(s, k), reserved, k, i, fk);
    }
  }

  /** The list calls of bd_free: a lst_remove for every merge, then one lst_push. */
  function FreeLinks(m: L.Links, heads: seq<nat>, s: State, k: nat, i: nat): L.Links
    requires k < s.nsizes == |s.free| == |heads|
    decreases s.nsizes - k
  {
    if k + 1 < s.nsizes && Node(k, i).Sibling() !in s.alloc then
      var a := Addr(k, Node(k, i).Sibling().i);
      if a in m.next && a in m.prev then FreeLinks(L.AfterRemove(m, a), heads, Merge(s, k, i), k + 1, i / 2) else m
    else if heads[k] in m.next then L.AfterPush(m, heads[k], Addr(k, i)) else m
  }

  /** After bd_free's list calls memory holds the lists of the state Free leads to. */
  lemma {:induction false} FreeStored(m: L.Links, heads: seq<nat>, s: State, reserved: set<nat>, k: nat, i: nat)
    requires Inv(s, reserved) && Stored(m, heads, s, reserved) && IsLive(s, reserved, Node(k, i)) && k < s.nsizes
    ensures Stored(FreeLinks(m, heads, s, k, i), heads, Free(s, k, i), reserved)
    decreases s.nsizes - k
  {
    var x := Node(k, i);
    AroundOwnAddress(x);
    assert NodeOk(s, reserved, x);
    if k + 1 < s.nsizes && x.Sibling() !in s.alloc {
      var b := x.Sibling();
      assert NodeOk(s, reserved, b);
      CountIsMember(s.free[k], b.i);
      RemoveStored(m, heads, s, reserved, k, b.i, Merge(s, k, i));
      MergeKeepsInv(s, reserved, k, i);
      FreeStored(L.AfterRemove(m, Addr(k, b.i)), heads, Merge(s, k, i), reserved, k + 1, i / 2);
    } else {
      PushStored(m, heads, s, reserved, x, k, i, PutBack(s, k, i));
    }
  }

  // ----- bd_init

  /** lst_init of every head. */
  function InitHeads(m: L.Links, heads: seq<nat>): L.Links {
    if heads == [] then m else
      var n := |heads| - 1;
      var l := InitHeads(m, heads[..n]);
      L.Links(l.next[heads[n] := heads[n]], l.prev[heads[n] := heads[n]])
  }

  lemma {:induction false} HeadsAreEmpty(m: L.Links, heads: seq<nat>, k: nat)
    requires k < |heads| && forall i, j :: 0 <= i < j < |heads| ==> heads[i] != heads[j]
    ensures L.Ring(InitHeads(m, heads), heads[k], [])
  {
    var n := |heads| - 1;
    var c := L.Cycle(heads[k], []);
    if k < n {
      HeadsAreEmpty(m, heads[..n], k);
      assert L.Linked(InitHeads(m, heads[..n]), c, 0);
    }
    assert L.Linked(InitHeads(m, heads), c, 0);
  }

  /** The lst_push calls that make up list l of level k, the last of its blocks first. */
  function PushAll(m: L.Links, head: nat, k: nat, l: seq<nat>): L.Links {
    if l == [] then m else
      var n := PushAll(m, head, k, l[1..]);
      if head in n.next then L.AfterPush(n, head, Addr(k, l[0])) else n
  }

  /** The same for the first k levels. */
  function PushLists(m: L.Links, heads: seq<nat>, free: seq<seq<nat>>, k: nat): L.Links
    requires k <= |heads| && k <= |free|
  {
    if k == 0 then m else PushAll(PushLists(m, heads, free, k - 1), heads[k - 1], k - 1, free[k - 1])
  }

  ghost predicate IsPart(s: State, ls: seq<seq<nat>>) {
    |ls| == |s.free| && forall k: nat, i: nat :: k < |ls| && i in ls[k] ==> i in s.free[k]
  }

  /** Memory holds the lists ls, parts of the lists of s. */
  ghost predicate Partly(m: L.Links, heads: seq<nat>, s: State, ls: seq<seq<nat>>) {
    && IsPart(s, ls)
    && forall k: nat {:trigger ListAt(m, heads, s.(free := ls), k)} :: ListAt(m, heads, s.(free := ls), k)
  }

  lemma AddrsPart(k: nat, a: seq<nat>, b: seq<nat>)
    requires forall i :: i in a ==> i in b
    ensures forall p :: p in Addrs(k, a) ==> p in Addrs(k, b)
  {
    forall j | 0 <= j < |a| ensures Addrs(k, a)[j] in Addrs(k, b) {
      assert a[j] in b;
      var n :| 0 <= n < |b| && b[n] == a[j];
      assert Addrs(k, b)[n] == Addrs(k, a)[j];
    }
  }

  /** A block that is not on the list has an address that is not. */
  lemma NewAddress(k: nat, l: seq<nat>, i: nat)
    requires i !in l
    ensures Addr(k, i) !in Addrs(k, l)
  {
    forall j | 0 <= j < |l| ensures Addrs(k, l)[j] != Addr(k, i) {
      AroundOwnAddress(Node(k, l[j]));
      AroundOwnAddress(Node(k, i));
    }
  }

  lemma PushPartly(m: L.Links, heads: seq<nat>, s: State, reserved: set<nat>, ls: seq<seq<nat>>, k: nat, i: nat)
    requires Inv(s, reserved) && HeadsOk(heads, s, reserved) && Partly(m, heads, s, ls)
    requires k < s.nsizes && i in s.free[k] && i !in ls[k]
    ensures heads[k] in m.next
    ensures Partly(L.AfterPush(m, heads[k], Addr(k, i)), heads, s, ls[k := [i] + ls[k]])
  {
    var a, t, u := Addr(k, i), s.(free := ls), s.(free := ls[k := [i] + ls[k]]);
    FreshNode(heads, s, reserved, ls, k, i);
    assert ListAt(m, heads, t, k);
    L.PushFirst(m, heads[k], Addrs(k, ls[k]), a);
    assert [a] + Addrs(k, ls[k]) == Addrs(k, u.free[k]);
    forall j: nat ensures ListAt(L.AfterPush(m, heads[k], a), heads, u, j) {
      if j < |heads| && j != k {
        assert ListAt(m, heads, t, j);
        PartsApart(heads, s, reserved, ls, j, k);
        PartsApart(heads, s, reserved, ls, k, j);
        OtherNode(heads, s, reserved, ls, k, i, j);
        L.OtherListsKept(m, heads[k], Addrs(k, ls[k]), a, heads[j], Addrs(j, ls[j]));
      }
    }
  }

  lemma FreshNode(heads: seq<nat>, s: State, reserved: set<nat>, ls: seq<seq<nat>>, k: nat, i: nat)
    requires Inv(s, reserved) && HeadsOk(heads, s, reserved) && IsPart(s, ls)
    requires k < s.nsizes && i in s.free[k] && i !in ls[k]
    ensures L.Apart(heads[k], Addrs(k, ls[k]), Addr(k, i))
  {
    ListedIsFree(s, reserved, k, i);
    AroundOwnAddress(Node(k, i));
    NoHeadInside(s, reserved, Node(k, i), Addr(k, i));
    NewAddress(k, ls[k], i);
  }

  lemma PartsApart(heads: seq<nat>, s: State, reserved: set<nat>, ls: seq<seq<nat>>, j: nat, k: nat)
    requires Inv(s, reserved) && HeadsOk(heads, s, reserved) && IsPart(s, ls) && j < s.nsizes && k < s.nsizes && j != k
    ensures heads[j] != heads[k] && heads[j] !in Addrs(k, ls[k])
    ensures forall p :: p in Addrs(j, ls[j]) ==> p !in Addrs(k, ls[k])
  {
    ListsApart(heads, s, reserved, j, k);
    AddrsPart(j, ls[j], s.free[j]);
    AddrsPart(k, ls[k], s.free[k]);
  }

  lemma OtherNode(heads: seq<nat>, s: State, reserved: set<nat>, ls: seq<seq<nat>>, k: nat, i: nat, j: nat)
    requires Inv(s, reserved) && HeadsOk(heads, s, reserved) && IsPart(s, ls)
    requires j < s.nsizes && k < s.nsizes && j != k && i in s.free[k]
    ensures L.Apart(heads[j], Addrs(j, ls[j]), Addr(k, i))
  {
    ListsApart(heads, s, reserved, j, k);
    AddrsPart(j, ls[j], s.free[j]);
    var n :| 0 <= n < |s.free[k]| && s.free[k][n] == i;
    assert Addrs(k, s.free[k])[n] == Addr(k, i);
  }

  lemma {:induction false} PushAllPartly(m: L.Links, heads: seq<nat>, s: State, reserved: set<nat>, ls: seq<seq<nat>>,
      k: nat, l: seq<nat>)
    requires Inv(s, reserved) && HeadsOk(heads, s, reserved) && Partly(m, heads, s, ls)
    requires k < s.nsizes && ls[k] == [] && (forall i :: i in l ==> i in s.free[k]) && forall i :: Count(l, i) <= 1
    ensures Partly(PushAll(m, heads[k], k, l), heads, s, ls[k := l])
  {
    if l == [] {
      assert ls[k := l] == ls;
    } else {
      var r := l[1..];
      forall i ensures Count(r, i) <= 1 {
        assert Count(l, i) <= 1;
      }
      PushAllPartly(m, heads, s, reserved, ls, k, r);
      assert Count(l, l[0]) <= 1;
      CountIsMember(r, l[0]);
      PushPartly(PushAll(m, heads[k], k, r), heads, s, reserved, ls[k := r], k, l[0]);
      assert [l[0]] + r == l && ls[k := r][k := l] == ls[k := l];
    }
  }

  /** The lists of the first k levels, and none yet above. */
  function Upto(free: seq<seq<nat>>, k: nat): seq<seq<nat>>
    requires k <= |free|
  {
    seq(|free|, j requires 0 <= j < |free| => if j < k then free[j] else [])
  }

  lemma {:induction false} PushListsPartly(m: L.Links, heads: seq<nat>, s: State, reserved: set<nat>, k: nat)
    requires Inv(s, reserved) && HeadsOk(heads, s, reserved) && k <= s.nsizes
    ensures Partly(PushLists(InitHeads(m, heads), heads, s.free, k), heads, s, Upto(s.free, k))
  {
    if k == 0 {
      forall j: nat ensures ListAt(InitHeads(m, heads), heads, s.(free := Upto(s.free, 0)), j) {
        if j < |heads| {
          HeadsAreEmpty(m, heads, j);
          assert Addrs(j, []) == [];
        }
      }
    } else {
      PushListsPartly(m, heads, s, reserved, k - 1);
      var l := s.free[k - 1];
      forall i ensures Count(l, i) <= 1 {
        assert NodeOk(s, reserved, Node(k - 1, i));
      }
      var n := PushLists(InitHeads(m, heads), heads, s.free, k - 1);
      PushAllPartly(n, heads, s, reserved, Upto(s.free, k - 1), k - 1, l);
      assert Upto(s.free, k - 1)[k - 1 := l] == Upto(s.free, k);
    }
  }

  /** bd_sizes[k].free, at the start of the allocator's own data. */
  function HeadsFor(top: nat): (heads: seq<nat>)
    ensures |heads| == top + 1 && forall k :: 0 <= k < |heads| ==> heads[k] == I.INFO_SIZE * k
  {
    seq(top + 1, k requires 0 <= k => I.INFO_SIZE * k)
  }

  /**
   bd_init's list calls: lst_init of every head, then for each level the
   lst_push of the free halves bd_initfree finds.  When no pair is visited
   twice, memory then holds the lists the allocator starts with.
   */
  lemma InitStored(m: L.Links, h: I.Heap, s: State)
    requires h.Valid() && h.meta == I.MetaLeaves(h.top) && I.IsMarking(h, s) && s.free == I.InitLists(h, h.top)
    requires forall k :: 0 <= k < h.top ==> !I.PushedTwice(h, k)
    ensures var heads := HeadsFor(h.top);
      Stored(PushLists(InitHeads(m, heads), heads, s.free, h.top + 1), heads, s, h.Reserved())
  {
    hide I.Heap.Valid, I.Heap.Reserved, I.MetaLeaves, I.InitList, I.IsMarking, I.PushedTwice;
    hide Inv, HeadsOk, Partly, Stored;
    var heads, reserved := HeadsFor(h.top), h.Reserved();
    StartsWithInv(h, s);
    InitHeadsOk(h, s);
    PushListsPartly(m, heads, s, reserved, h.top + 1);
    PartlyIsStored(PushLists(InitHeads(m, heads), heads, s.free, h.top + 1), heads, s, reserved);
  }

  lemma StartsWithInv(h: I.Heap, s: State)
    requires h.Valid() && I.IsMarking(h, s) && s.free == I.InitLists(h, h.top)
    requires forall k :: 0 <= k < h.top ==> !I.PushedTwice(h, k)
    ensures Inv(s, h.Reserved()) && s.nsizes == |s.free| == h.top + 1
  {
    hide I.Heap.Valid, I.Heap.Reserved, I.InitList, I.PushedTwice, Inv;
    I.InitEstablishesInv(h, s);
  }

  lemma InitHeadsOk(h: I.Heap, s: State)
    requires h.Valid() && h.meta == I.MetaLeaves(h.top) && |s.free| == h.top + 1
    ensures HeadsOk(HeadsFor(h.top), s, h.Reserved())
  {
    var heads := HeadsFor(h.top);
    forall k | 0 <= k < |heads| ensures heads[k] / LEAF_SIZE in h.Reserved() {
      HeadIsReserved(h, k);
    }
  }

  lemma PartlyIsStored(m: L.Links, heads: seq<nat>, s: State, reserved: set<nat>)
    requires HeadsOk(heads, s, reserved) && Partly(m, heads, s, Upto(s.free, |s.free|))
    ensures Stored(m, heads, s, reserved)
  {
    assert Upto(s.free, |s.free|) == s.free && s.(free := s.free) == s;
  }

  lemma HeadIsReserved(h: I.Heap, k: nat)
    requires h.Valid() && h.meta == I.MetaLeaves(h.top) && k <= h.top
    ensures I.INFO_SIZE * k / LEAF_SIZE in h.Reserved()
  {
    assert I.INFO_SIZE * k / LEAF_SIZE == 2 * k < h.meta;
    assert h.LeafReserved(2 * k);
  }
}
