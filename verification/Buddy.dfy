/**
 The buddy allocator of kernel/buddy.c: bd_malloc, bd_free and size.

 A block is a node of a binary tree: level k, index i, with children
 (k-1, 2i) and (k-1, 2i+1).  The source keeps three views of which blocks are
 in use: an alloc bit and a split bit per node, and a free list per level.
 Bit arrays appear as the sets of nodes whose bit is 1; the entries of the
 free list of level k are block indices, the block's address being Addr(k, i).
 */
module Buddy {
  import opened Common

  datatype Node = Node(k: nat, i: nat)
  {
    function Parent(): Node {
      Node(k + 1, i / 2)
    }

    function Sibling(): Node {
      if i % 2 == 0 then Node(k, i + 1) else Node(k, i - 1)
    }

    function Left(): Node
      requires k > 0
    {
      Node(k - 1, 2 * i)
    }

    function Right(): Node
      requires k > 0
    {
      Node(k - 1, 2 * i + 1)
    }
  }

  /** bd_sizes: `nsizes` levels; the top level nsizes-1 has one block. */
  datatype State = State(nsizes: nat, alloc: set<Node>, split: set<Node>, free: seq<seq<nat>>)
  {
    /** The block is a block at present: it is the top one, or its parent is split. */
    predicate Exists(x: Node) {
      if x.k + 1 == nsizes then x.i == 0 else x.k + 1 < nsizes && x.Parent() in split
    }

    predicate IsFree(x: Node) {
      Exists(x) && x !in alloc
    }
  }

  /**
   The three views agree about block x: no stray alloc or split bit, a split
   block keeps its alloc bit and has a child in use (so two buddies are never
   both free), a reserved leaf stays allocated, and x is on the free list of
   its level, once, exactly when it is a block and its alloc bit is 0.
   */
  ghost predicate NodeOk(s: State, reserved: set<nat>, x: Node) {
    && (x in s.alloc ==> s.Exists(x))
    && (x in s.split ==> x in s.alloc && x.k > 0 && (x.Left() in s.alloc || x.Right() in s.alloc))
    && (x.k == 0 && x.i in reserved ==> x in s.alloc)
    && (x.k < |s.free| ==> Count(s.free[x.k], x.i) == if s.IsFree(x) then 1 else 0)
  }

  /** `reserved` are the leaves bd_init marked; nobody frees them, and there is one at least. */
  ghost predicate Inv(s: State, reserved: set<nat>) {
    && |s.free| == s.nsizes > 0 && reserved != {}
    && forall x: Node {:trigger NodeOk(s, reserved, x)} :: NodeOk(s, reserved, x)
  }

  /** Handed out and not yet given back. */
  ghost predicate IsLive(s: State, reserved: set<nat>, x: Node) {
    x in s.alloc && x !in s.split && !(x.k == 0 && x.i in reserved)
  }

  // ----- The steps of bd_malloc

  /** Pop the head of free list k and set its alloc bit. */
  function Take(s: State, k: nat): State
    requires k < |s.free| && s.free[k] != []
  {
    s.(alloc := s.alloc + {Node(k, s.free[k][0])}, free := s.free[k := s.free[k][1..]])
  }

  /** One turn of bd_malloc's loop: split block (k, i), keep the left half, free the right half. */
  function SplitOff(s: State, k: nat, i: nat): State
    requires 0 < k <= |s.free|
  {
    s.(split := s.split + {Node(k, i)},
       alloc := s.alloc + {Node(k - 1, 2 * i)},
       free := s.free[k - 1 := [2 * i + 1] + s.free[k - 1]])
  }

  /** The whole loop, down to level fk. */
  function SplitDown(s: State, k: nat, i: nat, fk: nat): (r: (State, nat))
    requires fk <= k < |s.free|
    decreases k
  {
    if k == fk then (s, i) else SplitDown(SplitOff(s, k, i), k - 1, 2 * i, fk)
  }

  /** The first non-empty free list at or above k, or nsizes. */
  function FirstNonEmpty(s: State, k: nat): (r: nat)
    requires |s.free| == s.nsizes
    ensures k < s.nsizes ==> k <= r <= s.nsizes
    ensures k >= s.nsizes ==> r == k
    ensures r < s.nsizes ==> s.free[r] != []
    ensures forall j :: k <= j < r && j < s.nsizes ==> s.free[j] == []
    decreases s.nsizes - k
  {
    if k >= s.nsizes || s.free[k] != [] then k else FirstNonEmpty(s, k + 1)
  }

  /** bd_malloc for level fk. */
  function Malloc(s: State, fk: nat): Option<(State, Node)>
    requires |s.free| == s.nsizes
  {
    var k := FirstNonEmpty(s, fk);
    if k >= s.nsizes then None else
      var r := SplitDown(Take(s, k), k, s.free[k][0], fk);
      Some((r.0, Node(fk, r.1)))
  }

  // ----- The steps of bd_free

  /** One turn of bd_free's loop with a free buddy: the pair becomes one block. */
  function Merge(s: State, k: nat, i: nat): State
    requires k < |s.free|
  {
    s.(alloc := s.alloc - {Node(k, i)},
       split := s.split - {Node(k + 1, i / 2)},
       free := s.free[k := Remove(s.free[k], Node(k, i).Sibling().i)])
  }

  /** The end of bd_free: clear the alloc bit and push the block. */
  function PutBack(s: State, k: nat, i: nat): State
    requires k < |s.free|
  {
    s.(alloc := s.alloc - {Node(k, i)}, free := s.free[k := [i] + s.free[k]])
  }

  /** bd_free of the block (k, i). */
  function Free(s: State, k: nat, i: nat): State
    requires k < s.nsizes == |s.free|
    decreases s.nsizes - k
  {
    if k + 1 < s.nsizes && Node(k, i).Sibling() !in s.alloc then Free(Merge(s, k, i), k + 1, i / 2)
    else PutBack(s, k, i)
  }

  // ----- Each step keeps the invariant, and what it does to the live blocks

  lemma TakeKeepsInv(s: State, reserved: set<nat>, k: nat)
    requires Inv(s, reserved) && k < s.nsizes && s.free[k] != []
    ensures s.IsFree(Node(k, s.free[k][0]))
    ensures Inv(Take(s, k), reserved)
  {
    var x := Node(k, s.free[k][0]);
    var t := Take(s, k);
    assert NodeOk(s, reserved, x);
    assert s.free[k] == [x.i] + t.free[k];
    CountPush(t.free[k], x.i, x.i);
    forall y: Node ensures NodeOk(t, reserved, y) {
      assert NodeOk(s, reserved, y);
      if y.k == k {
        CountPush(t.free[k], x.i, y.i);
      }
    }
  }

  lemma SplitOffKeepsInv(s: State, reserved: set<nat>, k: nat, i: nat)
    requires Inv(s, reserved) && IsLive(s, reserved, Node(k, i)) && 0 < k < s.nsizes
    ensures Inv(SplitOff(s, k, i), reserved)
    ensures IsLive(SplitOff(s, k, i), reserved, Node(k - 1, 2 * i))
  {
    var x := Node(k, i);
    var t := SplitOff(s, k, i);
    assert NodeOk(s, reserved, x) && NodeOk(s, reserved, x.Left()) && NodeOk(s, reserved, x.Right());
    forall y: Node ensures NodeOk(t, reserved, y) {
      SplitOffNode(s, reserved, k, i, y);
    }
  }

  lemma SplitOffNode(s: State, reserved: set<nat>, k: nat, i: nat, y: Node)
    requires Inv(s, reserved) && IsLive(s, reserved, Node(k, i)) && 0 < k < s.nsizes
    ensures NodeOk(SplitOff(s, k, i), reserved, y)
  {
    var x := Node(k, i);
    assert NodeOk(s, reserved, x) && NodeOk(s, reserved, x.Left()) && NodeOk(s, reserved, x.Right());
    assert NodeOk(s, reserved, y);
    if y.k == k - 1 {
      CountPush(s.free[k - 1], 2 * i + 1, y.i);
      assert y.Parent() == x <==> y == x.Left() || y == x.Right();
    }
  }

  /** Merging is safe because the sibling is free. */
  lemma MergeKeepsInv(s: State, reserved: set<nat>, k: nat, i: nat)
    requires Inv(s, reserved) && IsLive(s, reserved, Node(k, i)) && k + 1 < s.nsizes
    requires Node(k, i).Sibling() !in s.alloc
    ensures Inv(Merge(s, k, i), reserved)
    ensures IsLive(Merge(s, k, i), reserved, Node(k + 1, i / 2))
  {
    var x := Node(k, i);
    var t := Merge(s, k, i);
    assert NodeOk(s, reserved, x) && NodeOk(s, reserved, x.Sibling()) && NodeOk(s, reserved, x.Parent());
    forall y: Node ensures NodeOk(t, reserved, y) {
      assert NodeOk(s, reserved, y);
      if y.k == k {
        CountRemove(s.free[k], x.Sibling().i, y.i);
      }
    }
  }

  /** Pushing the block back is safe because its sibling is in use. */
  lemma PutBackKeepsInv(s: State, reserved: set<nat>, k: nat, i: nat)
    requires Inv(s, reserved) && IsLive(s, reserved, Node(k, i)) && k < s.nsizes
    requires k + 1 < s.nsizes ==> Node(k, i).Sibling() in s.alloc
    ensures Inv(PutBack(s, k, i), reserved)
  {
    var x := Node(k, i);
    var t := PutBack(s, k, i);
    assert NodeOk(s, reserved, x);
    forall y: Node ensures NodeOk(t, reserved, y) {
      assert NodeOk(s, reserved, y);
      if y.k == k {
        CountPush(s.free[k], i, y.i);
      }
    }
  }

  lemma TakeLive(s: State, reserved: set<nat>, k: nat, y: Node)
    requires Inv(s, reserved) && k < s.nsizes && s.free[k] != []
    ensures var x := Node(k, s.free[k][0]);
      IsLive(Take(s, k), reserved, y) <==> IsLive(s, reserved, y) || y == x
  {
    var x := Node(k, s.free[k][0]);
    TakeKeepsInv(s, reserved, k);
    assert NodeOk(s, reserved, x);
  }

  lemma SplitOffLive(s: State, reserved: set<nat>, k: nat, i: nat, y: Node)
    requires Inv(s, reserved) && IsLive(s, reserved, Node(k, i)) && 0 < k < s.nsizes
    ensures IsLive(SplitOff(s, k, i), reserved, y) <==>
      (IsLive(s, reserved, y) && y != Node(k, i)) || y == Node(k - 1, 2 * i)
  {
    var x := Node(k, i);
    assert NodeOk(s, reserved, x.Left());
  }

  lemma MergeLive(s: State, reserved: set<nat>, k: nat, i: nat, y: Node)
    requires Inv(s, reserved) && IsLive(s, reserved, Node(k, i)) && k + 1 < s.nsizes
    ensures IsLive(Merge(s, k, i), reserved, y) <==>
      (IsLive(s, reserved, y) && y != Node(k, i)) || y == Node(k + 1, i / 2)
  {
    var x := Node(k, i);
    assert NodeOk(s, reserved, x) && NodeOk(s, reserved, x.Parent());
  }

  // ----- bd_malloc and bd_free as a whole

  lemma {:induction false} SplitDownCorrect(s: State, reserved: set<nat>, k: nat, i: nat, fk: nat, y: Node)
    requires Inv(s, reserved) && IsLive(s, reserved, Node(k, i)) && fk <= k < s.nsizes
    ensures var r := SplitDown(s, k, i, fk);
      && Inv(r.0, reserved) && r.0.nsizes == s.nsizes
      && (IsLive(r.0, reserved, y) <==> (IsLive(s, reserved, y) && y != Node(k, i)) || y == Node(fk, r.1))
    decreases k
  {
    if k > fk {
      SplitOffKeepsInv(s, reserved, k, i);
      SplitOffLive(s, reserved, k, i, y);
      assert NodeOk(s, reserved, Node(k, i).Left());
      SplitDownCorrect(SplitOff(s, k, i), reserved, k - 1, 2 * i, fk, y);
    }
  }

  /** The block returned lies inside the one that was split. */
  lemma {:induction false} SplitDownInside(s: State, k: nat, i: nat, fk: nat)
    requires fk <= k < |s.free|
    ensures Above(Node(k, i), Node(fk, SplitDown(s, k, i, fk).1))
    decreases k
  {
    if k > fk {
      SplitDownInside(SplitOff(s, k, i), k - 1, 2 * i, fk);
    }
  }

  /** Nothing inside a free block is in use. */
  lemma InsideFreeIsUnused(s: State, reserved: set<nat>, x: Node, y: Node)
    requires Inv(s, reserved) && s.IsFree(x) && Above(x, y) && x.k < s.nsizes
    ensures y !in s.alloc
  {
    assert NodeOk(s, reserved, x);
    if y in s.alloc && x != y {
      AboveUsedIsSplit(s, reserved, x, y);
    }
  }

  /**
   bd_malloc fails only when no free block is large enough; otherwise it
   returns one new live block of the requested level, taken from inside a
   block that was free, leaves every other live block alone, and keeps the
   three views in agreement.
   */
  lemma MallocCorrect(s: State, reserved: set<nat>, fk: nat, y: Node)
    requires Inv(s, reserved)
    ensures Malloc(s, fk).None? ==> (s.IsFree(y) ==> y.k < fk)
    ensures Malloc(s, fk).Some? ==>
      var (t, x) := Malloc(s, fk).value;
      && x.k == fk && Inv(t, reserved) && t.nsizes == s.nsizes
      && (IsLive(t, reserved, y) <==> IsLive(s, reserved, y) || y == x)
      && x !in s.alloc && exists z :: s.IsFree(z) && Above(z, x)
  {
    var k := FirstNonEmpty(s, fk);
    if k >= s.nsizes {
      assert NodeOk(s, reserved, y);
    } else {
      var z := Node(k, s.free[k][0]);
      TakeKeepsInv(s, reserved, k);
      TakeLive(s, reserved, k, y);
      TakeLive(s, reserved, k, z);
      SplitDownCorrect(Take(s, k), reserved, k, z.i, fk, y);
      assert NodeOk(s, reserved, z);
      SplitDownInside(Take(s, k), k, z.i, fk);
      InsideFreeIsUnused(s, reserved, z, Malloc(s, fk).value.1);
    }
  }

  /** bd_free ends exactly this block's life, and keeps the three views in agreement. */
  lemma {:induction false} FreeCorrect(s: State, reserved: set<nat>, k: nat, i: nat, y: Node)
    requires Inv(s, reserved) && IsLive(s, reserved, Node(k, i)) && k < s.nsizes
    ensures Inv(Free(s, k, i), reserved) && Free(s, k, i).nsizes == s.nsizes
    ensures IsLive(Free(s, k, i), reserved, y) <==> IsLive(s, reserved, y) && y != Node(k, i)
    decreases s.nsizes - k
  {
    if k + 1 < s.nsizes && Node(k, i).Sibling() !in s.alloc {
      MergeKeepsInv(s, reserved, k, i);
      MergeLive(s, reserved, k, i, y);
      assert NodeOk(s, reserved, Node(k, i));
      FreeCorrect(Merge(s, k, i), reserved, k + 1, i / 2, y);
    } else {
      PutBackKeepsInv(s, reserved, k, i);
    }
  }

  // ----- bd_free undoes bd_malloc

  lemma MergeUndoesSplitOff(s: State, reserved: set<nat>, k: nat, i: nat)
    requires Inv(s, reserved) && IsLive(s, reserved, Node(k, i)) && 0 < k < s.nsizes
    ensures var t := SplitOff(s, k, i);
      Node(k - 1, 2 * i).Sibling() !in t.alloc && Merge(t, k - 1, 2 * i) == s
  {
    var x := Node(k, i);
    assert NodeOk(s, reserved, x.Left()) && NodeOk(s, reserved, x.Right());
    assert ([2 * i + 1] + s.free[k - 1])[1..] == s.free[k - 1];
  }

  lemma {:induction false} FreeUndoesSplitDown(s: State, reserved: set<nat>, k: nat, i: nat, fk: nat)
    requires Inv(s, reserved) && IsLive(s, reserved, Node(k, i)) && fk <= k < s.nsizes
    ensures var r := SplitDown(s, k, i, fk);
      |r.0.free| == r.0.nsizes == s.nsizes && Free(r.0, fk, r.1) == Free(s, k, i)
    decreases k
  {
    if k > fk {
      SplitOffKeepsInv(s, reserved, k, i);
      FreeUndoesSplitDown(SplitOff(s, k, i), reserved, k - 1, 2 * i, fk);
      MergeUndoesSplitOff(s, reserved, k, i);
    }
  }

  /** Freeing what was just allocated restores bits and free lists exactly, list order included. */
  lemma FreeUndoesMalloc(s: State, reserved: set<nat>, fk: nat)
    requires Inv(s, reserved) && Malloc(s, fk).Some?
    ensures var (t, x) := Malloc(s, fk).value;
      x.k < t.nsizes == |t.free| && Free(t, x.k, x.i) == s
  {
    var k := FirstNonEmpty(s, fk);
    var x := Node(k, s.free[k][0]);
    var t := Take(s, k);
    TakeKeepsInv(s, reserved, k);
    TakeLive(s, reserved, k, x);
    FreeUndoesSplitDown(t, reserved, k, x.i, fk);
    assert [x.i] + s.free[k][1..] == s.free[k];
    assert NodeOk(s, reserved, x) && NodeOk(s, reserved, x.Parent()) && NodeOk(s, reserved, x.Sibling());
    assert PutBack(t, k, x.i) == s;
  }

  // ----- Canonicity: the live and reserved blocks decide everything else

  /** x is an ancestor of y, or y itself. */
  ghost predicate Above(x: Node, y: Node)
    decreases x.k
  {
    x == y || (x.k > 0 && (Above(x.Left(), y) || Above(x.Right(), y)))
  }

  /** A block in use contains a live block or a reserved leaf. */
  lemma {:induction false} UsedContains(s: State, reserved: set<nat>, x: Node) returns (y: Node)
    requires Inv(s, reserved) && x in s.alloc
    ensures Above(x, y)
    ensures IsLive(s, reserved, y) || (y.k == 0 && y.i in reserved)
    decreases x.k
  {
    assert NodeOk(s, reserved, x);
    if x !in s.split {
      y := x;
    } else if x.Left() in s.alloc {
      y := UsedContains(s, reserved, x.Left());
    } else {
      y := UsedContains(s, reserved, x.Right());
    }
  }

  /** Everything above a block in use is split. */
  lemma {:induction false} AboveUsedIsSplit(s: State, reserved: set<nat>, x: Node, y: Node)
    requires Inv(s, reserved) && y in s.alloc && Above(x, y) && x != y && x.k < s.nsizes
    ensures x in s.split
    decreases x.k
  {
    var c := if Above(x.Left(), y) then x.Left() else x.Right();
    if c != y {
      AboveUsedIsSplit(s, reserved, c, y);
    }
    assert NodeOk(s, reserved, c);
  }

  lemma SplitIsDetermined(s: State, t: State, reserved: set<nat>, x: Node)
    requires Inv(s, reserved) && Inv(t, reserved) && s.nsizes == t.nsizes
    requires forall y :: IsLive(s, reserved, y) ==> IsLive(t, reserved, y)
    requires x in s.split
    ensures x in t.split
  {
    assert NodeOk(s, reserved, x);
    var c := if x.Left() in s.alloc then x.Left() else x.Right();
    var y := UsedContains(s, reserved, c);
    assert NodeOk(t, reserved, y);
    AboveUsedIsSplit(t, reserved, x, y);
  }

  /**
   Two states with the same live and reserved blocks have the same bits and,
   level by level, the same free blocks.  So the order of past calls leaves no
   trace but the order of the free lists: freeing every live block, in any
   order, brings back the initial free sets.
   */
  lemma Canonical(s: State, t: State, reserved: set<nat>)
    requires Inv(s, reserved) && Inv(t, reserved) && s.nsizes == t.nsizes
    requires forall y :: IsLive(s, reserved, y) <==> IsLive(t, reserved, y)
    ensures s.split == t.split && s.alloc == t.alloc
    ensures forall k, i: nat :: 0 <= k < s.nsizes ==> Count(s.free[k], i) == Count(t.free[k], i)
  {
    forall x ensures x in s.split <==> x in t.split {
      if x in s.split {
        SplitIsDetermined(s, t, reserved, x);
      } else if x in t.split {
        SplitIsDetermined(t, s, reserved, x);
      }
    }
    forall x ensures x in s.alloc <==> x in t.alloc {
      assert NodeOk(s, reserved, x) && NodeOk(t, reserved, x);
      assert IsLive(s, reserved, x) <==> IsLive(t, reserved, x);
    }
    forall k: nat, i: nat | k < s.nsizes ensures Count(s.free[k], i) == Count(t.free[k], i) {
      assert NodeOk(s, reserved, Node(k, i)) && NodeOk(t, reserved, Node(k, i));
    }
  }

  // ----- Runs of bd_malloc and bd_free

  datatype Event = MallocOf(fk: nat) | FreeOf(x: Node)

  /** A call of bd_free is for a live block; a call of bd_malloc may fail. */
  ghost predicate Enabled(s: State, reserved: set<nat>, e: Event) {
    && |s.free| == s.nsizes
    && match e
       case MallocOf(fk) => true
       case FreeOf(x) => IsLive(s, reserved, x) && x.k < s.nsizes
  }

  ghost function Step(s: State, reserved: set<nat>, e: Event): State
    requires Enabled(s, reserved, e)
  {
    match e
    case MallocOf(fk) => if Malloc(s, fk).Some? then Malloc(s, fk).value.0 else s
    case FreeOf(x) => Free(s, x.k, x.i)
  }

  ghost predicate IsRun(reserved: set<nat>, ss: seq<State>, es: seq<Event>) {
    && |ss| == |es| + 1
    && forall j :: 0 <= j < |es| ==> Enabled(ss[j], reserved, es[j]) && ss[j + 1] == Step(ss[j], reserved, es[j])
  }

  lemma {:induction false} RunKeepsInv(reserved: set<nat>, ss: seq<State>, es: seq<Event>, j: nat)
    requires IsRun(reserved, ss, es) && Inv(ss[0], reserved) && j < |ss|
    ensures Inv(ss[j], reserved) && ss[j].nsizes == ss[0].nsizes
  {
    if j > 0 {
      RunKeepsInv(reserved, ss, es, j - 1);
      match es[j - 1]
      case MallocOf(fk) => MallocCorrect(ss[j - 1], reserved, fk, Node(0, 0));
      case FreeOf(x) => FreeCorrect(ss[j - 1], reserved, x.k, x.i, x);
    }
  }

  /** However a run got there, when its live blocks are back to the first state's, so are all bits and free sets. */
  lemma RunRestores(reserved: set<nat>, ss: seq<State>, es: seq<Event>, j: nat)
    requires IsRun(reserved, ss, es) && Inv(ss[0], reserved) && j < |ss|
    requires forall y :: IsLive(ss[j], reserved, y) <==> IsLive(ss[0], reserved, y)
    ensures ss[j].alloc == ss[0].alloc && ss[j].split == ss[0].split && |ss[j].free| == |ss[0].free|
    ensures forall k, i: nat :: 0 <= k < |ss[0].free| ==> Count(ss[j].free[k], i) == Count(ss[0].free[k], i)
  {
    RunKeepsInv(reserved, ss, es, j);
    Canonical(ss[j], ss[0], reserved);
  }

  // ----- Tiling

  /** The block of level k that contains leaf i. */
  function At(i: nat, k: nat): Node {
    if k == 0 then Node(0, i) else At(i, k - 1).Parent()
  }

  lemma {:induction false} AtLevel(i: nat, k: nat)
    ensures At(i, k).k == k
  {
    if k > 0 {
      AtLevel(i, k - 1);
    }
  }

  /** A block that is not divided further: free, live or reserved. */
  ghost predicate Whole(s: State, x: Node) {
    s.Exists(x) && x !in s.split
  }

  /** Above a block at least one level up from an existing one, everything is split. */
  lemma {:induction false} ExistsUpwards(s: State, reserved: set<nat>, i: nat, k: nat, j: nat)
    requires Inv(s, reserved) && s.Exists(At(i, k)) && k < j < s.nsizes
    ensures At(i, j) in s.split
    decreases j
  {
    AtLevel(i, k);
    AtLevel(i, j - 1);
    if k < j - 1 {
      ExistsUpwards(s, reserved, i, k, j - 1);
      assert NodeOk(s, reserved, At(i, j - 1));
    }
  }

  /** The leaf lies in the heap. */
  ghost predicate InHeap(s: State, i: nat) {
    s.nsizes > 0 && At(i, s.nsizes - 1) == Node(s.nsizes - 1, 0)
  }

  /** From level k down: the level of the whole block around leaf i. */
  lemma {:induction false} FindWhole(s: State, reserved: set<nat>, i: nat, k: nat) returns (j: nat)
    requires Inv(s, reserved) && InHeap(s, i) && k < s.nsizes && s.Exists(At(i, k))
    ensures j <= k && Whole(s, At(i, j))
    decreases k
  {
    AtLevel(i, k);
    if At(i, k) !in s.split {
      j := k;
    } else {
      assert NodeOk(s, reserved, At(i, k));
      AtLevel(i, k - 1);
      j := FindWhole(s, reserved, i, k - 1);
    }
  }

  /**
   Free blocks, live blocks and reserved leaves tile the heap: around every
   leaf there is a whole block, at exactly one level, and it is of exactly one
   of the three kinds.
   */
  lemma Tiling(s: State, reserved: set<nat>, i: nat) returns (j: nat)
    requires Inv(s, reserved) && InHeap(s, i)
    ensures j < s.nsizes && Whole(s, At(i, j))
    ensures forall l :: 0 <= l < s.nsizes && Whole(s, At(i, l)) ==> l == j
    ensures s.IsFree(At(i, j)) || IsLive(s, reserved, At(i, j)) || (j == 0 && i in reserved)
    ensures !(s.IsFree(At(i, j)) && IsLive(s, reserved, At(i, j)))
    ensures j == 0 && i in reserved ==> !s.IsFree(At(i, j)) && !IsLive(s, reserved, At(i, j))
  {
    j := FindWhole(s, reserved, i, s.nsizes - 1);
    assert NodeOk(s, reserved, At(i, j));
    AtLevel(i, j);
    forall l | 0 <= l < s.nsizes && Whole(s, At(i, l)) ensures l == j {
      if l < j {
        ExistsUpwards(s, reserved, i, l, j);
      } else if j < l {
        ExistsUpwards(s, reserved, i, j, l);
      }
    }
  }

  /** A block in use lies in the heap. */
  lemma UsedInHeap(s: State, reserved: set<nat>, i: nat, k: nat)
    requires Inv(s, reserved) && k < s.nsizes && s.Exists(At(i, k))
    ensures InHeap(s, i)
  {
    AtLevel(i, k);
    if k + 1 < s.nsizes {
      ExistsUpwards(s, reserved, i, k, s.nsizes - 1);
      AtLevel(i, s.nsizes - 1);
      assert NodeOk(s, reserved, At(i, s.nsizes - 1));
    }
  }

  /** The top block is split, always: that is what keeps size() below level nsizes. */
  lemma TopIsSplit(s: State, reserved: set<nat>)
    requires Inv(s, reserved) && s.nsizes > 1
    ensures Node(s.nsizes - 1, 0) in s.split
  {
    var i :| i in reserved;
    assert NodeOk(s, reserved, Node(0, i));
    UsedInHeap(s, reserved, i, 0);
    ExistsUpwards(s, reserved, i, 0, s.nsizes - 1);
  }

  /** Inside a whole block nothing is split; right above it everything is. */
  lemma SplitAround(s: State, reserved: set<nat>, i: nat, k: nat, j: nat)
    requires Inv(s, reserved) && k < s.nsizes && Whole(s, At(i, k)) && j < s.nsizes
    ensures At(i, j) in s.split <==> j > k
  {
    AtLevel(i, j);
    if j > k {
      ExistsUpwards(s, reserved, i, k, j);
    } else if j < k && At(i, j) in s.split {
      assert NodeOk(s, reserved, At(i, j));
      ExistsUpwards(s, reserved, i, j, k);
    }
  }

  // ----- Addresses

  const LEAF_SIZE: nat := 16

  /** BLK_SIZE(k) */
  function BlkSize(k: nat): (b: nat)
    ensures b > 0
  {
    if k == 0 then LEAF_SIZE else 2 * BlkSize(k - 1)
  }

  /** blk_index(k, p), p being the offset from bd_base: p / BLK_SIZE(k), one halving per level */
  function BlkIndex(k: nat, p: nat): nat {
    if k == 0 then p / LEAF_SIZE else BlkIndex(k - 1, p) / 2
  }

  /** addr(k, i), as an offset from bd_base */
  function Addr(k: nat, i: nat): nat {
    i * BlkSize(k)
  }

  lemma HalfOfQuotient(p: nat, m: nat)
    requires m > 0
    ensures p / (2 * m) == (p / m) / 2
  {
    var q, r := p / m, p % m;
    var a, b := q / 2, q % 2;
    assert p == q * m + r;
    assert q * m == 2 * a * m + b * m;
    assert p == a * (2 * m) + (b * m + r);
    assert 0 <= b * m + r < 2 * m by {
      assert b == 0 || b == 1;
    }
    QuotientIs(p, 2 * m, a, b * m + r);
  }

  lemma TimesSpreads(a: int, b: int, m: int)
    ensures (b - a) * m == b * m - a * m
  {
  }

  lemma TimesGrows(x: int, m: int)
    requires x >= 1 && m >= 1
    ensures x * m >= m
  {
  }

  lemma TimesKeepsOrder(a: int, b: int, m: nat)
    requires m > 0
    ensures a <= b <==> a * m <= b * m
  {
    TimesSpreads(a, b, m);
    if a < b {
      TimesGrows(b - a, m);
    } else if b < a {
      TimesGrows(a - b, m);
      TimesSpreads(b, a, m);
    }
  }

  lemma QuotientIs(p: nat, m: nat, a: nat, r: nat)
    requires p == a * m + r && r < m
    ensures p / m == a
  {
    var q := p / m;
    assert q * m <= p < (q + 1) * m;
    assert a * m <= p < (a + 1) * m;
    TimesKeepsOrder(q + 1, a, m);
    TimesKeepsOrder(a + 1, q, m);
  }

  /** The quotient the source computes. */
  lemma {:induction false} BlkIndexIsQuotient(k: nat, p: nat)
    ensures BlkIndex(k, p) == p / BlkSize(k)
  {
    if k > 0 {
      BlkIndexIsQuotient(k - 1, p);
      HalfOfQuotient(p, BlkSize(k - 1));
    }
  }

  lemma {:induction false} BlkIndexIsAt(k: nat, p: nat)
    ensures Node(k, BlkIndex(k, p)) == At(p / LEAF_SIZE, k)
  {
    if k > 0 {
      BlkIndexIsAt(k - 1, p);
    }
  }

  lemma {:induction false} AddrRoundTrip(k: nat, i: nat)
    ensures BlkIndex(k, Addr(k, i)) == i
  {
    if k > 0 {
      AddrOfLeft(k, i);
      AddrRoundTrip(k - 1, 2 * i);
    }
  }

  lemma AddrOfLeft(k: nat, i: nat)
    requires k > 0
    ensures Addr(k - 1, 2 * i) == Addr(k, i)
    ensures Addr(k - 1, 2 * i + 1) == Addr(k, i) + BlkSize(k - 1)
  {
    var b := BlkSize(k - 1);
    assert i * (2 * b) == (2 * i) * b;
    assert (2 * i + 1) * b == (2 * i) * b + b;
  }

  /** The live block x is the whole block around the first leaf of its address, and not the top block. */
  lemma LiveIsWhole(s: State, reserved: set<nat>, x: Node)
    requires Inv(s, reserved) && IsLive(s, reserved, x) && s.nsizes > 1
    ensures At(Addr(x.k, x.i) / LEAF_SIZE, x.k) == x && Whole(s, x) && x.k + 1 < s.nsizes
  {
    AddrRoundTrip(x.k, x.i);
    BlkIndexIsAt(x.k, Addr(x.k, x.i));
    assert NodeOk(s, reserved, x);
    TopIsSplit(s, reserved);
  }

  lemma {:induction false} SplitDownAddress(s: State, k: nat, i: nat, fk: nat)
    requires fk <= k < |s.free|
    ensures Addr(fk, SplitDown(s, k, i, fk).1) == Addr(k, i)
    decreases k
  {
    if k > fk {
      AddrOfLeft(k, i);
      SplitDownAddress(SplitOff(s, k, i), k - 1, 2 * i, fk);
    }
  }

  /**
   Which block bd_malloc takes: of the free blocks that are large enough one of
   the smallest, the one freed last among those, and of it the part with the
   lowest address.
   */
  lemma MallocTakesSmallest(s: State, reserved: set<nat>, fk: nat) returns (z: Node)
    requires Inv(s, reserved) && Malloc(s, fk).Some?
    ensures fk <= z.k < s.nsizes && s.IsFree(z) && s.free[z.k] != [] && z.i == s.free[z.k][0]
    ensures forall w: Node :: s.IsFree(w) && fk <= w.k ==> z.k <= w.k
    ensures var x := Malloc(s, fk).value.1; Above(z, x) && Addr(x.k, x.i) == Addr(z.k, z.i)
  {
    var k := FirstNonEmpty(s, fk);
    z := Node(k, s.free[k][0]);
    assert NodeOk(s, reserved, z);
    SplitDownInside(Take(s, k), k, z.i, fk);
    SplitDownAddress(Take(s, k), k, z.i, fk);
    forall w: Node | s.IsFree(w) && fk <= w.k ensures z.k <= w.k {
      assert NodeOk(s, reserved, w);
      CountIsMember(s.free[w.k], w.i);
    }
  }

  // ----- firstk

  const TWO63: nat := 0x8000_0000_0000_0000
  const TWO64: nat := 0x1_0000_0000_0000_0000

  /** size *= 2 in 64-bit arithmetic */
  function Double(size: nat): nat {
    if 2 * size >= TWO64 then 2 * size - TWO64 else 2 * size
  }

  /** The variable `size` of firstk after j doublings. */
  function Doubled(j: nat): nat {
    if j == 0 then LEAF_SIZE else Double(Doubled(j - 1))
  }

  lemma BlkSizeEightUp(k: nat)
    requires k >= 8
    ensures BlkSize(k) == 256 * BlkSize(k - 8)
  {
    assert BlkSize(k) == 4 * BlkSize(k - 2);
    assert BlkSize(k - 2) == 4 * BlkSize(k - 4);
    assert BlkSize(k - 4) == 4 * BlkSize(k - 6);
    assert BlkSize(k - 6) == 4 * BlkSize(k - 8);
  }

  /** Level 59 is where a 64-bit size reaches its top bit. */
  lemma BlkSizeTop(k: nat)
    requires k == 59
    ensures BlkSize(k) == TWO63
  {
    BlkSizeEightUp(k);
    BlkSizeEightUp(k - 8);
    BlkSizeEightUp(k - 16);
    BlkSizeEightUp(k - 24);
    BlkSizeEightUp(k - 32);
    BlkSizeEightUp(k - 40);
    BlkSizeEightUp(k - 48);
    assert BlkSize(k - 56) == 4 * BlkSize(k - 58);
    assert BlkSize(k - 58) == 2 * BlkSize(k - 59);
  }

  lemma BlkSizeBelowTop(j: nat)
    ensures j <= 59 ==> BlkSize(j) <= TWO63
    ensures j == 59 ==> BlkSize(j) == TWO63
    ensures j < 59 ==> 2 * BlkSize(j) <= TWO63
  {
    var top: nat := 59;
    BlkSizeTop(top);
    if j < top {
      BlkSizeGrows(j + 1, top);
    }
  }

  lemma {:induction false} BlkSizeGrows(j: nat, k: nat)
    requires j <= k
    ensures BlkSize(j) <= BlkSize(k)
  {
    if j < k {
      BlkSizeGrows(j, k - 1);
    }
  }

  /** Doubling is exact up to 2^63; the next one wraps to 0, and 0 stays 0. */
  lemma {:induction false} DoubledIs(j: nat)
    ensures Doubled(j) == if j <= 59 then BlkSize(j) else 0
  {
    if j > 0 {
      DoubledIs(j - 1);
      BlkSizeBelowTop(j - 1);
    }
  }

  /** firstk's loop ends for exactly the requests up to 2^63 bytes, and then at the first level that is large enough. */
  lemma FirstkEndsExactlyWhen(n: nat)
    ensures (exists j: nat :: Doubled(j) >= n) <==> n <= TWO63
    ensures n <= TWO63 ==> Doubled(LevelFrom(n, 0)) >= n && forall j :: 0 <= j < LevelFrom(n, 0) ==> Doubled(j) < n
  {
    forall j: nat ensures Doubled(j) <= TWO63 {
      DoubledIs(j);
      BlkSizeBelowTop(j);
    }
    var top: nat := 59;
    DoubledIs(top);
    BlkSizeTop(top);
    assert Doubled(top) == TWO63;
    if n <= TWO63 {
      assert LevelFrom(n, 0) <= top;
      forall j | 0 <= j <= LevelFrom(n, 0) ensures Doubled(j) == BlkSize(j) {
        DoubledIs(j);
      }
    }
  }

  /** The level of the smallest block of at least n bytes, searching from k. */
  function LevelFrom(n: nat, k: nat): (r: nat)
    ensures n <= BlkSize(r) && k <= r
    ensures forall j :: k <= j < r ==> BlkSize(j) < n
    decreases if n <= BlkSize(k) then 0 else n - BlkSize(k)
  {
    if n <= BlkSize(k) then k else LevelFrom(n, k + 1)
  }

  class Allocator {
    var nsizes: nat
    /** The alloc and split bit arrays, as the nodes whose bit is 1. */
    var alloc: set<Node>
    var split: set<Node>
    var free: seq<seq<nat>>
    /** The leaves bd_init marked as holding the allocator's own data or nothing at all. */
    ghost var reserved: set<nat>

    ghost function S(): State
      reads this
    {
      State(nsizes, alloc, split, free)
    }

    ghost predicate Valid()
      reads this
    {
      Inv(S(), reserved) && nsizes > 1
    }

    /** Take over what bd_init set up. */
    constructor (s: State, r: set<nat>)
      requires Inv(s, r) && s.nsizes > 1
      ensures Valid() && S() == s && reserved == r
    {
      nsizes, alloc, split, free, reserved := s.nsizes, s.alloc, s.split, s.free, r;
    }

    /** The first k whose block size is at least n. */
    method Firstk(n: nat) returns (k: nat)
      requires n <= TWO63
      ensures k == LevelFrom(n, 0)
    {
      k := 0;
      var size := LEAF_SIZE;
      while size < n
        invariant k <= 59 && size == BlkSize(k)
        invariant LevelFrom(n, 0) == LevelFrom(n, k)
        decreases 59 - k
      {
        BlkSizeBelowTop(k);
        k := k + 1;
        size := Double(size);
      }
    }

    /** bd_malloc: None is the null pointer, Some(p) the block's offset from bd_base. */
    method BdMalloc(nbytes: nat) returns (r: Option<nat>)
      requires Valid() && nbytes <= TWO63
      modifies this
      ensures Valid() && reserved == old(reserved) && nsizes == old(nsizes)
      ensures var m := Malloc(old(S()), LevelFrom(nbytes, 0));
        if m.None? then r == None && S() == old(S())
        else S() == m.value.0 && r == Some(Addr(m.value.1.k, m.value.1.i))
    {
      var fk := Firstk(nbytes);
      MallocCorrect(S(), reserved, fk, Node(0, 0));
      var k := fk;
      while k < nsizes && free[k] == []
        invariant FirstNonEmpty(S(), fk) == FirstNonEmpty(S(), k)
        decreases nsizes - k
      {
        k := k + 1;
      }
      if k >= nsizes {
        return None;
      }
      var i := free[k][0];
      free := free[k := free[k][1..]];
      alloc := alloc + {Node(k, i)};
      assert S() == Take(old(S()), k);
      var p := Addr(k, i);
      while k > fk
        invariant fk <= k < nsizes == |free| && nsizes == old(nsizes) && reserved == old(reserved)
        invariant p == Addr(k, i)
        invariant Malloc(old(S()), fk) == Some((SplitDown(S(), k, i, fk).0, Node(fk, SplitDown(S(), k, i, fk).1)))
      {
        AddrOfLeft(k, i);
        split := split + {Node(k, i)};
        alloc := alloc + {Node(k - 1, 2 * i)};
        free := free[k - 1 := [2 * i + 1] + free[k - 1]];
        k, i := k - 1, 2 * i;
      }
      return Some(p);
    }

    /** A bit of the split array of level k; the source reads out of bounds unless k < nsizes. */
    method SplitBit(k: nat, i: nat) returns (b: bool)
      requires k < nsizes
      ensures b <==> Node(k, i) in split
    {
      b := Node(k, i) in split;
    }

    /**
     size(p): the level of the live block at p, found from the split bits
     alone, without ever reading level nsizes.
     */
    method Size(p: nat, ghost x: Node) returns (k: nat)
      requires Valid() && IsLive(S(), reserved, x) && p == Addr(x.k, x.i)
      ensures k == x.k && k + 1 < nsizes
    {
      ghost var leaf := p / LEAF_SIZE;
      LiveIsWhole(S(), reserved, x);
      k := 0;
      while k < nsizes
        invariant k <= x.k && x.k + 1 < nsizes
        decreases nsizes - k
      {
        BlkIndexIsAt(k + 1, p);
        SplitAround(S(), reserved, leaf, x.k, k + 1);
        var split := SplitBit(k + 1, BlkIndex(k + 1, p));
        if split {
          return k;
        }
        k := k + 1;
      }
    }

    /** One turn of bd_free's loop, on the block (k, i) at p. */
    method MergeTurn(k: nat, addr: nat, ghost i: nat) returns (merged: bool, p: nat)
      requires k < |free| && addr == Addr(k, i)
      modifies this`alloc, this`split, this`free
      ensures merged <==> Node(k, i).Sibling() !in old(alloc)
      ensures merged ==> S() == Merge(old(S()), k, i) && p == Addr(k + 1, i / 2)
      ensures !merged ==> S() == old(S()).(alloc := old(alloc) - {Node(k, i)}) && p == addr
    {
      AddrRoundTrip(k, i);
      AddrOfLeft(k + 1, i / 2);
      AddrRoundTrip(k + 1, i / 2);
      p := addr;
      var bi := BlkIndex(k, p);
      var buddy := if bi % 2 == 0 then bi + 1 else bi - 1;
      alloc := alloc - {Node(k, bi)};
      if Node(k, buddy) in alloc {
        return false, p;
      }
      var q := Addr(k, buddy);
      free := free[k := Remove(free[k], buddy)];
      if buddy % 2 == 0 {
        p := q;
      }
      split := split - {Node(k + 1, BlkIndex(k + 1, p))};
      merged := true;
    }

    /** bd_free of the live block at addr: size() finds its level, then it merges upwards while the buddy is free. */
    method BdFree(addr: nat, ghost x: Node)
      requires Valid() && IsLive(S(), reserved, x) && addr == Addr(x.k, x.i)
      modifies this
      ensures Valid() && reserved == old(reserved) && nsizes == old(nsizes)
      ensures x.k < old(nsizes) && S() == Free(old(S()), x.k, x.i)
    {
      var p := addr;
      var k := Size(p, x);
      ghost var i := x.i;
      FreeCorrect(S(), reserved, x.k, x.i, x);
      while k < nsizes - 1
        invariant nsizes == old(nsizes) && reserved == old(reserved) && Valid()
        invariant k + 1 < nsizes && p == Addr(k, i) && IsLive(S(), reserved, Node(k, i))
        invariant Free(S(), k, i) == Free(old(S()), x.k, x.i)
        decreases nsizes - k
      {
        ghost var s := S();
        var merged;
        merged, p := MergeTurn(k, p, i);
        if !merged {
          break;
        }
        MergeKeepsInv(s, reserved, k, i);
        k := k + 1;
        i := i / 2;
        LiveIsWhole(S(), reserved, Node(k, i));
      }
      AddrRoundTrip(k, i);
      free := free[k := [BlkIndex(k, p)] + free[k]];
    }
  }
}
