/**
 bd_init of kernel/buddy.c: marking the reserved ranges, filling the free
 lists from the two boundaries, and the byte count the final check compares.

 Sizes are in leaves of 16 bytes where nothing else is said: the heap is
 Pow2(top) leaves, [0, meta) holds the allocator's data, [end, Pow2(top)) is
 unavailable.
 */
module BuddyInit {
  import opened Buddy
  import opened Common

  function Pow2(k: nat): (r: nat)
    ensures r > 0
  {
    if k == 0 then 1 else 2 * Pow2(k - 1)
  }

  lemma {:induction false} BlkSizeIsPow2(k: nat)
    ensures BlkSize(k) == LEAF_SIZE * Pow2(k)
  {
    if k > 0 {
      BlkSizeIsPow2(k - 1);
    }
  }

  /** blk_index_next at level k of a boundary at leaf m: the first block that starts at or after it. */
  function Left(m: nat, k: nat): nat {
    if k == 0 then m else (Left(m, k - 1) + 1) / 2
  }

  /** blk_index at level k of a boundary at leaf e. */
  function Right(e: nat, k: nat): nat {
    if k == 0 then e else Right(e, k - 1) / 2
  }

  lemma RoundUpSplits(m: nat, p: nat)
    requires p > 0
    ensures (m + p - 1) / p == m / p + if m % p != 0 then 1 else 0
  {
    var q, r := m / p, m % p;
    if r == 0 {
      QuotientIs(m + p - 1, p, q, p - 1);
    } else {
      assert (q + 1) * p == q * p + p;
      QuotientIs(m + p - 1, p, q + 1, r - 1);
    }
  }

  lemma NextQuotient(x: nat, p: nat)
    requires p > 0
    ensures (x + p) / p == x / p + 1
  {
    var q, r := x / p, x % p;
    assert (q + 1) * p == q * p + p;
    QuotientIs(x + p, p, q + 1, r);
  }

  lemma RoundUpHalf(m: nat, p: nat)
    requires p > 0
    ensures ((m + p - 1) / p + 1) / 2 == (m + 2 * p - 1) / (2 * p)
  {
    NextQuotient(m + p - 1, p);
    HalfOfQuotient(m + 2 * p - 1, p);
  }

  lemma {:induction false} LeftIsRoundedUp(m: nat, k: nat)
    ensures Left(m, k) == (m + Pow2(k) - 1) / Pow2(k)
  {
    if k > 0 {
      LeftIsRoundedUp(m, k - 1);
      RoundUpHalf(m, Pow2(k - 1));
    }
  }

  /** Left is what blk_index_next computes. */
  lemma LeftIsBlkIndexNext(m: nat, k: nat)
    ensures Left(m, k) == m / Pow2(k) + if m % Pow2(k) != 0 then 1 else 0
  {
    LeftIsRoundedUp(m, k);
    RoundUpSplits(m, Pow2(k));
  }

  /** Right is what blk_index computes. */
  lemma {:induction false} RightIsBlkIndex(e: nat, k: nat)
    ensures Right(e, k) == e / Pow2(k)
  {
    if k > 0 {
      RightIsBlkIndex(e, k - 1);
      HalfOfQuotient(e, Pow2(k - 1));
    }
  }

  // ----- Which blocks are marked

  predicate Outside(l: nat, r: nat, n: nat, i: nat) {
    i < n && (i < l || r <= i)
  }

  /** A heap and the two boundaries bd_init hands to bd_initfree. */
  datatype Heap = Heap(top: nat, meta: nat, end: nat)
  {
    function L(k: nat): nat {
      Left(meta, k)
    }

    function R(k: nat): nat {
      Right(end, k)
    }

    /** The data structures take something and fit the memory; the tail is not empty. */
    ghost predicate Valid() {
      0 < meta <= end < Pow2(top)
    }

    /** Block x overlaps one of the two reserved ranges. */
    predicate Marked(x: Node) {
      x.k <= top && Outside(L(x.k), R(x.k), Pow2(top - x.k), x.i)
    }

    predicate LeafReserved(i: nat) {
      i < meta || end <= i
    }

    ghost function Reserved(): set<nat> {
      set i | 0 <= i < Pow2(top) && LeafReserved(i)
    }
  }

  lemma HalveBounds(l: nat, r: nat, p: nat)
    requires 1 <= l <= r + 1 && r < 2 * p
    ensures 1 <= (l + 1) / 2 <= r / 2 + 1 && r / 2 < p
    ensures p == 1 ==> (l + 1) / 2 == 1 && r / 2 == 0
  {
  }

  lemma PowStep(top: nat, k: nat)
    requires 0 < k <= top
    ensures Pow2(top - (k - 1)) == 2 * Pow2(top - k)
    ensures k == top ==> Pow2(top - k) == 1
  {
  }

  lemma {:induction false} Bounds(h: Heap, k: nat)
    requires h.Valid() && k <= h.top
    ensures 1 <= h.L(k) <= h.R(k) + 1
    ensures h.R(k) < Pow2(h.top - k)
    ensures k == h.top ==> h.L(k) == 1 && h.R(k) == 0
  {
    hide Pow2;
    if k == 0 {
      PowZero();
    } else {
      Bounds(h, k - 1);
      PowStep(h.top, k);
      HalveBounds(h.L(k - 1), h.R(k - 1), Pow2(h.top - k));
    }
  }

  lemma PowZero()
    ensures Pow2(0) == 1
  {
  }

  // ----- What bd_initfree has to find

  /** The free block of level k at the left boundary, and the one at the right boundary. */
  predicate FreeAtLeft(h: Heap, k: nat) {
    h.L(k) < h.R(k) && h.L(k) % 2 == 1
  }

  predicate FreeAtRight(h: Heap, k: nat) {
    h.L(k) < h.R(k) && h.R(k) % 2 == 1
  }

  /** Both boundaries fall in the same pair: bd_initfree visits the pair twice and pushes its free half twice. */
  predicate PushedTwice(h: Heap, k: nat) {
    h.R(k) == h.L(k) + 1 && h.L(k) % 2 == 0
  }

  ghost predicate MarkOk(h: Heap, alloc: set<Node>, split: set<Node>, x: Node) {
    (x in alloc <==> h.Marked(x)) && (x in split <==> h.Marked(x) && x.k > 0)
  }

  /** The bits after bd_mark of both ranges. */
  ghost predicate AreMarks(h: Heap, nsizes: nat, alloc: set<Node>, split: set<Node>) {
    && nsizes == h.top + 1
    && (forall x: Node {:trigger MarkOk(h, alloc, split, x)} :: MarkOk(h, alloc, split, x))
  }

  ghost predicate IsMarking(h: Heap, s: State) {
    AreMarks(h, s.nsizes, s.alloc, s.split)
  }

  /** The block exists and is not marked exactly when it is the free half of a boundary pair. */
  lemma FreeBlocksAre(h: Heap, s: State, x: Node)
    requires h.Valid() && IsMarking(h, s)
    ensures s.IsFree(x) <==>
      (x.k < h.top && ((FreeAtLeft(h, x.k) && x.i == h.L(x.k)) || (FreeAtRight(h, x.k) && x.i == h.R(x.k) - 1)))
  {
    assert MarkOk(h, s.alloc, s.split, x);
    if x.k < h.top {
      assert MarkOk(h, s.alloc, s.split, x.Parent());
      Bounds(h, x.k);
      Bounds(h, x.k + 1);
      assert Pow2(h.top - x.k) == 2 * Pow2(h.top - (x.k + 1));
    } else if x.k == h.top {
      Bounds(h, x.k);
    }
  }

  /** The list bd_initfree leaves for level k: the left pair is visited first, pushes go to the front. */
  function InitList(h: Heap, k: nat): seq<nat> {
    if PushedTwice(h, k) then [h.L(k), h.L(k)]
    else (if FreeAtRight(h, k) then [h.R(k) - 1] else []) + (if FreeAtLeft(h, k) then [h.L(k)] else [])
  }

  lemma MarkingIsTree(h: Heap, s: State, x: Node)
    requires h.Valid() && IsMarking(h, s)
    ensures x in s.alloc ==> s.Exists(x)
    ensures x in s.split ==> x in s.alloc && x.k > 0 && (x.Left() in s.alloc || x.Right() in s.alloc)
  {
    assert MarkOk(h, s.alloc, s.split, x) && MarkOk(h, s.alloc, s.split, x.Parent());
    if x in s.alloc && x.k < h.top {
      Bounds(h, x.k + 1);
      assert Pow2(h.top - x.k) == 2 * Pow2(h.top - (x.k + 1));
      assert h.Marked(x.Parent());
    }
    if x in s.split {
      assert Pow2(h.top - (x.k - 1)) == 2 * Pow2(h.top - x.k);
      assert MarkOk(h, s.alloc, s.split, x.Left()) && MarkOk(h, s.alloc, s.split, x.Right());
      assert h.Marked(x.Left()) || h.Marked(x.Right());
    }
    if x.k == h.top {
      assert Pow2(h.top - x.k) == 1;
    }
  }

  lemma InitListCounts(h: Heap, s: State, x: Node)
    requires h.Valid() && IsMarking(h, s) && x.k < h.top && !PushedTwice(h, x.k)
    ensures Count(InitList(h, x.k), x.i) == if s.IsFree(x) then 1 else 0
  {
    FreeBlocksAre(h, s, x);
    CountPush([], h.L(x.k), x.i);
    if FreeAtRight(h, x.k) {
      CountPush(if FreeAtLeft(h, x.k) then [h.L(x.k)] else [], h.R(x.k) - 1, x.i);
    }
  }

  /** When no pair is visited twice, bd_init leaves a state in which the three views agree. */
  lemma InitEstablishesInv(h: Heap, s: State)
    requires h.Valid() && IsMarking(h, s) && |s.free| == s.nsizes
    requires forall k :: 0 <= k < h.top ==> !PushedTwice(h, k) && s.free[k] == InitList(h, k)
    requires s.free[h.top] == []
    ensures Inv(s, h.Reserved())
  {
    assert 0 in h.Reserved() by {
      assert h.LeafReserved(0);
    }
    forall x: Node ensures NodeOk(s, h.Reserved(), x) {
      MarkingIsTree(h, s, x);
      if x.k < h.top {
        InitListCounts(h, s, x);
      } else {
        FreeBlocksAre(h, s, x);
      }
      assert MarkOk(h, s.alloc, s.split, x);
      if x.k == 0 && x.i in h.Reserved() {
        assert h.Marked(x);
      }
    }
  }

  // ----- The byte count

  /** The unmarked blocks of level k. */
  function Unmarked(h: Heap, k: nat): nat {
    if h.L(k) < h.R(k) then h.R(k) - h.L(k) else 0
  }

  /** Unmarked bytes of level k that are not unmarked at level k+1: what bd_initfree should find there. */
  function LevelGain(h: Heap, k: nat): nat {
    (if FreeAtLeft(h, k) then BlkSize(k) else 0) + (if FreeAtRight(h, k) then BlkSize(k) else 0)
  }

  lemma SpanDrops(b: nat, u: nat, v: nat, d: nat)
    requires u == 2 * v + d && d <= 2
    ensures b * u == (2 * b) * v + if d == 0 then 0 else if d == 1 then b else 2 * b
  {
    assert b * u == b * (2 * v) + b * d;
    assert b * (2 * v) == (2 * b) * v;
  }

  lemma UnmarkedHalves(h: Heap, k: nat)
    requires h.Valid() && k < h.top
    ensures Unmarked(h, k) ==
      2 * Unmarked(h, k + 1) + (if FreeAtLeft(h, k) then 1 else 0) + (if FreeAtRight(h, k) then 1 else 0)
  {
    Bounds(h, k);
  }

  lemma LevelSpan(h: Heap, k: nat)
    requires h.Valid() && k < h.top
    ensures BlkSize(k) * Unmarked(h, k) == BlkSize(k + 1) * Unmarked(h, k + 1) + LevelGain(h, k)
  {
    UnmarkedHalves(h, k);
    var d := (if FreeAtLeft(h, k) then 1 else 0) + (if FreeAtRight(h, k) then 1 else 0);
    SpanDrops(BlkSize(k), Unmarked(h, k), Unmarked(h, k + 1), d);
  }

  /** The bytes counted too often in the levels below k. */
  function ExtraBytes(h: Heap, k: nat): nat {
    if k == 0 then 0 else ExtraBytes(h, k - 1) + if PushedTwice(h, k - 1) then BlkSize(k - 1) else 0
  }

  /** One block size per push. */
  function BytesOf(b: nat, l: seq<nat>): nat {
    if l == [] then 0 else b + BytesOf(b, l[1..])
  }

  /** bd_initfree's running total after the levels below k. */
  function CountedBytes(h: Heap, k: nat): nat {
    if k == 0 then 0 else CountedBytes(h, k - 1) + BytesOf(BlkSize(k - 1), InitList(h, k - 1))
  }

  lemma BytesOfTwo(b: nat, l: seq<nat>)
    requires |l| <= 2
    ensures BytesOf(b, l) == if |l| == 0 then 0 else if |l| == 1 then b else 2 * b
  {
    if |l| == 2 {
      assert BytesOf(b, l) == b + BytesOf(b, l[1..]) == b + b + BytesOf(b, l[1..][1..]);
    } else if |l| == 1 {
      assert BytesOf(b, l) == b + BytesOf(b, l[1..]);
    }
  }

  lemma LevelBytes(h: Heap, k: nat)
    requires h.Valid() && k < h.top
    ensures BytesOf(BlkSize(k), InitList(h, k)) == LevelGain(h, k) + if PushedTwice(h, k) then BlkSize(k) else 0
  {
    hide BlkSize, BytesOf, Pow2;
    BytesOfTwo(BlkSize(k), InitList(h, k));
  }

  lemma {:induction false} CountTelescopes(h: Heap, k: nat)
    requires h.Valid() && k <= h.top
    ensures CountedBytes(h, k) + BlkSize(k) * Unmarked(h, k) == BlkSize(0) * Unmarked(h, 0) + ExtraBytes(h, k)
  {
    if k > 0 {
      CountTelescopes(h, k - 1);
      LevelSpan(h, k - 1);
      LevelBytes(h, k - 1);
    }
  }

  lemma {:induction false} ExtraIsZeroExactlyWhen(h: Heap, k: nat)
    ensures ExtraBytes(h, k) == 0 <==> forall j :: 0 <= j < k ==> !PushedTwice(h, j)
  {
    if k > 0 {
      ExtraIsZeroExactlyWhen(h, k - 1);
    }
  }

  /**
   bd_initfree's count is the heap minus both reserved ranges if and only if no
   level has both boundaries in one pair; otherwise it is too large by the
   blocks pushed twice.
   */
  lemma CountIsExactlyWhen(h: Heap)
    requires h.Valid()
    ensures CountedBytes(h, h.top) == LEAF_SIZE * (h.end - h.meta) + ExtraBytes(h, h.top)
    ensures CountedBytes(h, h.top) == LEAF_SIZE * (h.end - h.meta) <==>
      forall k :: 0 <= k < h.top ==> !PushedTwice(h, k)
  {
    CountTelescopes(h, h.top);
    Bounds(h, h.top);
    ExtraIsZeroExactlyWhen(h, h.top);
  }

  lemma {:induction false} QuarterBounds(h: Heap, k: nat)
    requires h.Valid() && 4 * h.meta <= Pow2(h.top) <= 2 * h.end && k + 2 <= h.top
    ensures h.L(k) <= Pow2(h.top - 2 - k) && Pow2(h.top - 1 - k) <= h.R(k)
  {
    if k > 0 {
      QuarterBounds(h, k - 1);
    } else {
      assert Pow2(h.top) == 4 * Pow2(h.top - 2);
    }
  }

  /** Data within the first quarter and a tail in the second half keep the boundaries in different pairs. */
  lemma QuarterIsSafe(h: Heap, k: nat)
    requires h.Valid() && 4 * h.meta <= Pow2(h.top) <= 2 * h.end && k < h.top
    ensures !PushedTwice(h, k)
  {
    Bounds(h, k);
    if k + 2 <= h.top {
      QuarterBounds(h, k);
      if k + 2 < h.top {
        assert Pow2(h.top - 1 - k) == 2 * Pow2(h.top - 2 - k);
        assert Pow2(h.top - 2 - k) == 2 * Pow2(h.top - 3 - k);
      }
    }
  }

  // ----- How much the allocator's own data takes

  /** Bytes of a bit array for 2^j blocks: ROUNDUP(2^j, 8) / 8. */
  function MapBytes(j: nat): nat {
    (Pow2(j) - 1) / 8 + 1
  }

  /** The bit arrays for 2^0 up to 2^j blocks. */
  function MapsBytes(j: nat): nat {
    if j == 0 then MapBytes(0) else MapsBytes(j - 1) + MapBytes(j)
  }

  /** sizeof(Sz_info) */
  const INFO_SIZE: nat := 32

  /** bd_sizes, the alloc arrays of levels 0 to top, the split arrays of levels 1 to top. */
  function MetaBytes(top: nat): nat {
    INFO_SIZE * (top + 1) + MapsBytes(top) + if top == 0 then 0 else MapsBytes(top - 1)
  }

  lemma {:induction false} MapsBound(j: nat)
    ensures 8 * MapsBytes(j) <= 2 * Pow2(j) + 8 * (j + 1)
  {
    if j > 0 {
      MapsBound(j - 1);
    }
  }

  lemma {:induction false} PowBound(top: nat)
    requires top >= 7
    ensures 272 * top + 264 <= 29 * Pow2(top)
  {
    if top == 7 {
      assert Pow2(top) == 4 * Pow2(top - 2);
      assert Pow2(top - 2) == 4 * Pow2(top - 4);
      assert Pow2(top - 4) == 4 * Pow2(top - 6);
      assert Pow2(top - 6) == 2 * Pow2(top - 7);
    } else {
      PowBound(top - 1);
    }
  }

  function MetaLeaves(top: nat): nat {
    (MetaBytes(top) + 15) / 16
  }

  lemma SmallPowers()
    ensures Pow2(0) == 1 && Pow2(1) == 2 && Pow2(2) == 4 && Pow2(3) == 8
    ensures Pow2(4) == 16 && Pow2(5) == 32 && Pow2(6) == 64
  {
    assert Pow2(2) == 2 * Pow2(1) && Pow2(4) == 2 * Pow2(3) && Pow2(6) == 2 * Pow2(5);
  }

  lemma SmallLayouts()
    ensures MetaLeaves(0) == 3 && MetaLeaves(1) == 5 && MetaLeaves(2) == 7 && MetaLeaves(3) == 9
    ensures MetaLeaves(4) == 11 && MetaLeaves(5) == 13 && MetaLeaves(6) == 16
  {
    SmallPowers();
    assert MapsBytes(1) == MapsBytes(0) + MapBytes(1) && MapsBytes(2) == MapsBytes(1) + MapBytes(2);
    assert MapsBytes(3) == MapsBytes(2) + MapBytes(3) && MapsBytes(4) == MapsBytes(3) + MapBytes(4);
    assert MapsBytes(5) == MapsBytes(4) + MapBytes(5) && MapsBytes(6) == MapsBytes(5) + MapBytes(6);
  }

  /** From 2^6 leaves on, the allocator's data fits the first quarter of the heap. */
  lemma MetaFitsQuarter(top: nat)
    requires top >= 6
    ensures 4 * MetaLeaves(top) <= Pow2(top)
  {
    if top == 6 {
      SmallPowers();
      SmallLayouts();
    } else {
      MapsBound(top);
      MapsBound(top - 1);
      PowBound(top);
      assert Pow2(top) == 4 * Pow2(top - 2);
    }
  }

  function BuddyOf(i: nat): nat {
    if i % 2 == 0 then i + 1 else i - 1
  }

  lemma PairAtLeft(l: nat, r: nat, n: nat)
    requires 1 <= l <= r + 1 && r < n && n % 2 == 0
    ensures Outside(l, r, n, l) != Outside(l, r, n, BuddyOf(l)) <==>
      (l < r && l % 2 == 1) || (r == l + 1 && l % 2 == 0)
    ensures Outside(l, r, n, l) ==> Outside(l, r, n, BuddyOf(l))
  {
  }

  lemma PairAtRight(l: nat, r: nat, n: nat)
    requires 1 <= l < r < n && n % 2 == 0
    ensures Outside(l, r, n, r)
    ensures !Outside(l, r, n, BuddyOf(r)) <==> r % 2 == 1
  {
  }

  /** What bd_initfree_pair sees at the left boundary. */
  lemma LeftPair(h: Heap, s: State, k: nat)
    requires h.Valid() && IsMarking(h, s) && k < h.top
    ensures var x := Node(k, h.L(k));
      && ((x in s.alloc) != (x.Sibling() in s.alloc) <==> FreeAtLeft(h, k) || PushedTwice(h, k))
      && (FreeAtLeft(h, k) || PushedTwice(h, k) ==> x !in s.alloc)
  {
    Bounds(h, k);
    PairAtLeft(h.L(k), h.R(k), Pow2(h.top - k));
    var x := Node(k, h.L(k));
    assert MarkOk(h, s.alloc, s.split, x) && MarkOk(h, s.alloc, s.split, x.Sibling());
  }

  /** And at the right boundary: the block before it is the free half, if there is one. */
  lemma RightPair(h: Heap, s: State, k: nat)
    requires h.Valid() && IsMarking(h, s) && k < h.top && h.L(k) < h.R(k)
    ensures var x := Node(k, h.R(k));
      && ((x in s.alloc) != (x.Sibling() in s.alloc) <==> FreeAtRight(h, k))
      && (FreeAtRight(h, k) ==> x in s.alloc && x.Sibling().i == h.R(k) - 1)
  {
    Bounds(h, k);
    PairAtRight(h.L(k), h.R(k), Pow2(h.top - k));
    var x := Node(k, h.R(k));
    assert MarkOk(h, s.alloc, s.split, x) && MarkOk(h, s.alloc, s.split, x.Sibling());
  }

  function LogOf(n: nat): nat {
    if n <= 1 then 0 else 1 + LogOf(n / 2)
  }

  lemma {:induction false} LogBounds(n: nat)
    requires n > 0
    ensures Pow2(LogOf(n)) <= n < 2 * Pow2(LogOf(n))
  {
    if n > 1 {
      LogBounds(n / 2);
    }
  }

  /** The free lists when bd_initfree has done the levels below k. */
  ghost function InitLists(h: Heap, k: nat): (ls: seq<seq<nat>>)
    ensures |ls| == h.top + 1
    ensures forall j :: 0 <= j < |ls| ==> ls[j] == if j < k then InitList(h, j) else []
  {
    seq(h.top + 1, j requires 0 <= j => if j < k then InitList(h, j) else [])
  }

  lemma InitListsStep(h: Heap, k: nat)
    requires k < h.top
    ensures InitLists(h, k)[k] == [] && InitLists(h, k)[k := InitList(h, k)] == InitLists(h, k + 1)
  {
  }

  lemma {:induction false} PowGrows(j: nat, k: nat)
    requires j <= k
    ensures Pow2(j) <= Pow2(k)
  {
    if j < k {
      PowGrows(j, k - 1);
    }
  }

  lemma {:induction false} ZeroEdges(top: nat, k: nat)
    ensures Right(0, k) == 0
    ensures k <= top ==> Left(Pow2(top), k) == Pow2(top - k)
  {
    if k > 0 {
      ZeroEdges(top, k - 1);
    }
  }

  /** Marking [0, meta) and [end, 2^top) marks exactly the blocks that overlap one of them. */
  lemma MarksAreThose(h: Heap, alloc: set<Node>, split: set<Node>)
    requires h.Valid()
    requires forall x: Node :: x in alloc <==>
      (x.k <= h.top && (Right(0, x.k) <= x.i < h.L(x.k) || h.R(x.k) <= x.i < Left(Pow2(h.top), x.k)))
    requires forall x: Node :: x in split <==>
      (0 < x.k <= h.top && (Right(0, x.k) <= x.i < h.L(x.k) || h.R(x.k) <= x.i < Left(Pow2(h.top), x.k)))
    ensures AreMarks(h, h.top + 1, alloc, split)
  {
    forall x: Node ensures MarkOk(h, alloc, split, x) {
      if x.k <= h.top {
        ZeroEdges(h.top, x.k);
        Bounds(h, x.k);
      }
    }
  }

  /** The final check of bd_init passes exactly when no pair was visited twice, and then all is well. */
  lemma InitSucceedsExactlyWhen(h: Heap, s: State)
    requires h.Valid() && IsMarking(h, s) && s.free == InitLists(h, h.top)
    ensures CountedBytes(h, h.top) == LEAF_SIZE * (h.end - h.meta) <==>
      forall k :: 0 <= k < h.top ==> !PushedTwice(h, k)
    ensures CountedBytes(h, h.top) == LEAF_SIZE * (h.end - h.meta) ==> Inv(s, h.Reserved())
  {
    CountIsExactlyWhen(h);
    if forall k :: 0 <= k < h.top ==> !PushedTwice(h, k) {
      InitEstablishesInv(h, s);
    }
  }

  // ----- The layouts bd_init makes

  /** h is the heap bd_init lays out for nbytes, which is not a power of two of leaves. */
  ghost predicate IsLayout(h: Heap, nbytes: nat) {
    h.end == nbytes / LEAF_SIZE && h.meta == MetaLeaves(h.top) && h.end < Pow2(h.top) <= 2 * h.end
  }

  /** How many levels a size asks for. */
  lemma LayoutLevels(h: Heap, nbytes: nat)
    requires IsLayout(h, nbytes)
    ensures h.top <= 3 ==> h.end < 8 && h.meta > h.end
    ensures h.top == 4 ==> 8 <= h.end < 16 && h.meta == 11
    ensures h.top == 5 ==> 16 <= h.end < 32 && h.meta == 13
    ensures h.top >= 6 ==> h.end >= 32 && 4 * h.meta <= Pow2(h.top)
  {
    SmallPowers();
    SmallLayouts();
    if h.top >= 6 {
      MetaFitsQuarter(h.top);
      PowGrows(6, h.top);
    } else {
      assert h.top == 0 || h.top == 1 || h.top == 2 || h.top == 3 || h.top == 4 || h.top == 5;
    }
  }

  /** The memory holds the allocator's own data exactly from 176 bytes on. */
  lemma DataFitsExactlyWhen(h: Heap, nbytes: nat)
    requires IsLayout(h, nbytes)
    ensures h.meta <= h.end <==> nbytes >= 176
  {
    LayoutLevels(h, nbytes);
  }

  /** The sizes for which some pair is visited twice. */
  predicate Panics(nbytes: nat) {
    224 <= nbytes < 256 || 320 <= nbytes < 512
  }

  lemma LevelsOfFour(h: Heap, k: nat)
    requires h.top == 4 && h.meta == 11 && 11 <= h.end < 16 && k < 4
    ensures PushedTwice(h, k) <==> k == 1 && h.end >= 14
  {
    assert h.L(0) == 11 && h.L(1) == 6 && h.L(2) == 3 && h.L(3) == 2;
    assert h.R(1) == h.R(0) / 2 && h.R(2) == h.R(1) / 2 && h.R(3) == h.R(2) / 2;
  }

  lemma LevelsOfFive(h: Heap, k: nat)
    requires h.top == 5 && h.meta == 13 && 16 <= h.end < 32 && k < 5
    ensures PushedTwice(h, k) <==> (k == 2 && 20 <= h.end < 24) || (k == 3 && 24 <= h.end)
  {
    assert h.L(0) == 13 && h.L(1) == 7 && h.L(2) == 4 && h.L(3) == 2 && h.L(4) == 1;
    assert h.R(1) == h.R(0) / 2 && h.R(2) == h.R(1) / 2 && h.R(3) == h.R(2) / 2 && h.R(4) == h.R(3) / 2;
  }

  /** bd_init's own layout has both boundaries in one pair exactly for 224 to 255 and 320 to 511 bytes. */
  lemma LayoutPanicsExactlyWhen(h: Heap, nbytes: nat)
    requires IsLayout(h, nbytes) && nbytes >= 176
    ensures h.Valid()
    ensures (exists k :: 0 <= k < h.top && PushedTwice(h, k)) <==> Panics(nbytes)
  {
    LayoutLevels(h, nbytes);
    DataFitsExactlyWhen(h, nbytes);
    if h.top == 4 {
      forall k: nat | k < 4 ensures PushedTwice(h, k) <==> k == 1 && h.end >= 14 {
        LevelsOfFour(h, k);
      }
      assert PushedTwice(h, 1) <==> h.end >= 14;
    } else if h.top == 5 {
      forall k: nat | k < 5 ensures PushedTwice(h, k) <==> (k == 2 && 20 <= h.end < 24) || (k == 3 && 24 <= h.end) {
        LevelsOfFive(h, k);
      }
      assert PushedTwice(h, 2) || PushedTwice(h, 3) <==> h.end >= 20;
    } else {
      forall k: nat | k < h.top ensures !PushedTwice(h, k) {
        QuarterIsSafe(h, k);
      }
    }
  }

  /** bd_init on 320 bytes: block 4 of level 2 is pushed twice, and 176 bytes are counted where 112 are free. */
  lemma PairVisitedTwice()
    ensures var h := Heap(5, 13, 20);
      && IsLayout(h, 320) && h.Valid() && InitList(h, 2) == [4, 4]
      && CountedBytes(h, h.top) == 176 && LEAF_SIZE * (h.end - h.meta) == 112
  {
    var h := Heap(5, 13, 20);
    SmallPowers();
    SmallLayouts();
    LayoutPanicsExactlyWhen(h, 320);
    forall k: nat | k < 5 ensures PushedTwice(h, k) <==> k == 2 {
      LevelsOfFive(h, k);
    }
    assert h.L(2) == 4;
    CountIsExactlyWhen(h);
    assert ExtraBytes(h, 2) == 0 && ExtraBytes(h, 3) == BlkSize(2) && ExtraBytes(h, 5) == ExtraBytes(h, 3);
    assert BlkSize(2) == 64;
  }

  /** The bits of the alloc array of level k that bd_initfree looks at. */
  predicate Reads(h: Heap, k: nat, i: nat) {
    i == h.L(k) || i == BuddyOf(h.L(k)) || (h.L(k) < h.R(k) && (i == h.R(k) || i == BuddyOf(h.R(k))))
  }

  predicate InArray(h: Heap, k: nat, i: nat)
    requires k <= h.top
  {
    i < 8 * MapBytes(h.top - k)
  }

  lemma {:induction false} LeftBelow(h: Heap, k: nat)
    requires 4 * h.meta <= 3 * Pow2(h.top) && k + 2 <= h.top
    ensures h.L(k) <= 3 * Pow2(h.top - 2 - k)
  {
    if k > 0 {
      LeftBelow(h, k - 1);
    } else {
      assert Pow2(h.top) == 4 * Pow2(h.top - 2);
    }
  }

  lemma ReadIsInArray(h: Heap, k: nat, i: nat)
    requires h.Valid() && 4 * h.meta <= 3 * Pow2(h.top) && k < h.top && Reads(h, k, i)
    ensures InArray(h, k, i)
  {
    Bounds(h, k);
    var n := Pow2(h.top - k);
    assert n == 2 * Pow2(h.top - k - 1);
    if k + 2 <= h.top {
      LeftBelow(h, k);
      assert n == 4 * Pow2(h.top - 2 - k);
    } else {
      SmallPowers();
    }
  }

  lemma MetaBelow(top: nat)
    requires top >= 4
    ensures 4 * MetaLeaves(top) <= 3 * Pow2(top)
  {
    SmallPowers();
    SmallLayouts();
    if top >= 6 {
      MetaFitsQuarter(top);
    } else {
      assert top == 4 || top == 5;
    }
  }

  /** With the whole power of two available the right boundary lies one bit past the array of level 0. */
  lemma WholePowerReadsPast(h: Heap)
    requires h.top >= 4 && h.meta < h.end == Pow2(h.top)
    ensures Reads(h, 0, h.end) && !InArray(h, 0, h.end)
  {
    assert Pow2(h.top) == 4 * Pow2(h.top - 2) && Pow2(h.top - 2) == 2 * Pow2(h.top - 3);
  }

  /** bd_initfree stays inside its bit arrays exactly when the memory is not a power of two of leaves. */
  lemma ReadsStayInsideExactlyWhen(h: Heap)
    requires h.top >= 4 && 0 < h.meta == MetaLeaves(h.top) <= h.end <= Pow2(h.top)
    ensures (forall k: nat, i: nat {:trigger Reads(h, k, i)} :: k < h.top && Reads(h, k, i) ==> InArray(h, k, i)) <==>
      h.end < Pow2(h.top)
  {
    hide Pow2, MetaBytes, Reads, InArray;
    MetaBelow(h.top);
    if h.end < Pow2(h.top) {
      forall k: nat, i: nat | k < h.top && Reads(h, k, i) ensures InArray(h, k, i) {
        ReadIsInArray(h, k, i);
      }
    } else {
      WholePowerReadsPast(h);
    }
  }

  class Setup {
    var nsizes: nat
    var alloc: set<Node>
    var split: set<Node>
    var free: seq<seq<nat>>

    ghost function S(): State
      reads this
    {
      State(nsizes, alloc, split, free)
    }

    constructor ()
      ensures S() == State(0, {}, {}, [])
    {
      nsizes, alloc, split, free := 0, {}, {}, [];
    }

    /** bd_mark of the leaves [start, stop) */
    method BdMark(start: nat, stop: nat)
      modifies this`alloc, this`split
      ensures forall x: Node :: x in alloc <==>
        (x in old(alloc) || (x.k < nsizes && Right(start, x.k) <= x.i < Left(stop, x.k)))
      ensures forall x: Node :: x in split <==>
        (x in old(split) || (0 < x.k < nsizes && Right(start, x.k) <= x.i < Left(stop, x.k)))
    {
      for k := 0 to nsizes
        invariant forall x: Node :: x in alloc <==>
          (x in old(alloc) || (x.k < k && Right(start, x.k) <= x.i < Left(stop, x.k)))
        invariant forall x: Node :: x in split <==>
          (x in old(split) || (0 < x.k < k && Right(start, x.k) <= x.i < Left(stop, x.k)))
      {
        ghost var a0, s0 := alloc, split;
        var bi := Right(start, k);
        var bj := Left(stop, k);
        while bi < bj
          invariant Right(start, k) <= bi && (bi <= bj || bi == Right(start, k))
          invariant forall x: Node :: x in alloc <==> (x in a0 || (x.k == k && Right(start, k) <= x.i < bi))
          invariant forall x: Node :: x in split <==> (x in s0 || (x.k == k > 0 && Right(start, k) <= x.i < bi))
        {
          if k > 0 {
            split := split + {Node(k, bi)};
          }
          alloc := alloc + {Node(k, bi)};
          bi := bi + 1;
        }
      }
    }

    /** bd_initfree_pair: if exactly one half of the pair is marked, push the other; the bytes found. */
    method BdInitfreePair(k: nat, bi: nat) returns (bytes: nat)
      requires k < |free|
      modifies this`free
      ensures var buddy := Node(k, bi).Sibling().i;
        var one := (Node(k, bi) in alloc) != (Node(k, buddy) in alloc);
        && bytes == (if one then BlkSize(k) else 0)
        && free == if one then old(free)[k := [if Node(k, bi) in alloc then buddy else bi] + old(free)[k]]
          else old(free)
    {
      var buddy := BuddyOf(bi);
      bytes := 0;
      if (Node(k, bi) in alloc) != (Node(k, buddy) in alloc) {
        bytes := BlkSize(k);
        if Node(k, bi) in alloc {
          free := free[k := [buddy] + free[k]];
        } else {
          free := free[k := [bi] + free[k]];
        }
      }
    }

    /** One level of bd_initfree's loop. */
    method BdInitfreeLevel(ghost h: Heap, k: nat, left: nat, right: nat) returns (bytes: nat)
      requires h.Valid() && AreMarks(h, nsizes, alloc, split) && k < h.top && |free| == nsizes && free[k] == []
      requires left == h.L(k) && right == h.R(k)
      modifies this`free
      ensures free == old(free)[k := InitList(h, k)]
      ensures bytes == BytesOf(BlkSize(k), InitList(h, k))
    {
      LeftPair(h, S(), k);
      LevelBytes(h, k);
      ghost var list := if FreeAtLeft(h, k) || PushedTwice(h, k) then [h.L(k)] else [];
      assert [left] + free[k] == [left];
      bytes := BdInitfreePair(k, left);
      assert free == old(free)[k := list];
      if right <= left {
        assert InitList(h, k) == [];
        return;
      }
      RightPair(h, S(), k);
      var more := BdInitfreePair(k, right);
      bytes := bytes + more;
      assert InitList(h, k) == if FreeAtRight(h, k) then [h.R(k) - 1] + list else list;
      assert free == old(free)[k := InitList(h, k)];
    }

    /** bd_initfree with the boundaries at leaves meta and end */
    method BdInitfree(ghost h: Heap, meta: nat, end: nat) returns (bytes: nat)
      requires h.Valid() && AreMarks(h, nsizes, alloc, split) && h.meta == meta && h.end == end
      requires free == InitLists(h, 0)
      modifies this`free
      ensures free == InitLists(h, h.top) && bytes == CountedBytes(h, h.top)
    {
      hide InitList, BytesOf, BlkSize, Pow2, Left, Right;
      bytes := 0;
      for k := 0 to nsizes - 1
        invariant free == InitLists(h, k) && bytes == CountedBytes(h, k)
      {
        InitListsStep(h, k);
        var more := BdInitfreeLevel(h, k, Left(meta, k), Right(end, k));
        bytes := bytes + more;
      }
    }

    /** _log2 */
    static method Log2(n: nat) returns (k: nat)
      requires n > 0
      ensures Pow2(k) <= n < 2 * Pow2(k)
    {
      k := 0;
      var m := n;
      while m > 1
        invariant m > 0 && k + LogOf(m) == LogOf(n)
        decreases m
      {
        k := k + 1;
        m := m / 2;
      }
      LogBounds(n);
    }

    /** The layout loops of bd_init: how far the allocator's data reaches, in bytes from bd_base. */
    static method Layout(top: nat) returns (p: nat)
      ensures p == MetaBytes(top)
    {
      p := INFO_SIZE * (top + 1);
      for k := 0 to top + 1
        invariant p + (if k <= top then MapsBytes(top - k) else 0) == INFO_SIZE * (top + 1) + MapsBytes(top)
      {
        p := p + MapBytes(top - k);
      }
      for k := 1 to top + 1
        invariant p + (if k <= top then MapsBytes(top - k) else 0) == MetaBytes(top)
      {
        p := p + MapBytes(top - k);
      }
    }

    /** The number of levels less one: the smallest block that covers nbytes. */
    static method Levels(nbytes: nat) returns (top: nat)
      requires nbytes >= LEAF_SIZE && forall k: nat :: nbytes != BlkSize(k)
      ensures nbytes / LEAF_SIZE < Pow2(top) <= 2 * (nbytes / LEAF_SIZE)
    {
      top := Log2(nbytes / LEAF_SIZE);
      BlkSizeIsPow2(top);
      assert nbytes != BlkSize(top);
      if nbytes > BlkSize(top) {
        top := top + 1;
      }
    }

    /** The calls of bd_mark that bd_init makes, on cleared bits. */
    method MarkReserved(ghost h: Heap, meta: nat, end: nat)
      requires nsizes > 0 && h == Heap(nsizes - 1, meta, end) && h.Valid() && alloc == {} && split == {}
      modifies this`alloc, this`split
      ensures AreMarks(h, nsizes, alloc, split)
    {
      BdMark(0, meta);
      BdMark(end, Pow2(nsizes - 1));
      MarksAreThose(h, alloc, split);
    }

    /**
     bd_init on nbytes of memory starting at a 16-byte boundary, enough for its
     own data and not exactly a power of two of leaves.  The final check panics
     for 224 to 255 and for 320 to 511 bytes and for no other size; otherwise
     the allocator starts with its views in agreement.
     */
    method BdInit(nbytes: nat) returns (ok: bool, ghost h: Heap)
      requires nbytes >= 176 && forall k: nat :: nbytes != BlkSize(k)
      modifies this
      ensures IsLayout(h, nbytes) && (ok <==> !Panics(nbytes))
      ensures ok ==> Inv(S(), h.Reserved()) && nsizes == h.top + 1 > 1
    {
      var top := Levels(nbytes);
      h := Heap(top, MetaLeaves(top), nbytes / LEAF_SIZE);
      LayoutLevels(h, nbytes);
      LayoutPanicsExactlyWhen(h, nbytes);
      ok := Build(h, top, nbytes / LEAF_SIZE);
    }

    /** bd_init once the number of levels is known */
    method Build(ghost h: Heap, top: nat, end: nat) returns (ok: bool)
      requires h == Heap(top, MetaLeaves(top), end) && h.Valid()
      modifies this
      ensures ok <==> forall k :: 0 <= k < h.top ==> !PushedTwice(h, k)
      ensures ok ==> Inv(S(), h.Reserved()) && nsizes == h.top + 1
    {
      nsizes, alloc, split := top + 1, {}, {};
      free := seq(top + 1, _ => []);
      var p := Layout(top);
      var meta := (p + 15) / 16;
      MarkReserved(h, meta, end);
      assert free == InitLists(h, 0);
      ok := FillAndCheck(h, meta, end);
    }

    /** The rest of bd_init: the free lists and the byte count */
    method FillAndCheck(ghost h: Heap, meta: nat, end: nat) returns (ok: bool)
      requires nsizes > 0 && h == Heap(nsizes - 1, meta, end) && h.Valid()
      requires AreMarks(h, nsizes, alloc, split) && free == InitLists(h, 0)
      modifies this`free
      ensures ok <==> forall k :: 0 <= k < h.top ==> !PushedTwice(h, k)
      ensures ok ==> Inv(S(), h.Reserved())
    {
      var bytes := BdInitfree(h, meta, end);
      InitSucceedsExactlyWhen(h, S());
      var heap := BlkSize(nsizes - 1);
      ok := bytes == heap - meta * LEAF_SIZE - (heap - end * LEAF_SIZE);
    }
  }
}
