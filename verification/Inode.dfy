/**
 Inode contents and the block bitmap of kernel/fs.c: balloc, bfree, bmap,
 itrunc, readi and writei.  A block is seen as BSIZE bytes (data) or, when it is
 an indirect block, as NINDIRECT block numbers (ind).  owner is the
 specification's view of the bitmap: the slot of an inode that holds each block.
 */
module InodeBlocks {
  import opened Common
  import LogSpace
  import RedoLog

  const BSIZE: nat := 1024
  const NDIRECT: nat := 12
  const NINDIRECT: nat := 256
  const MAXFILE: nat := NDIRECT + NINDIRECT
  const BPB: nat := BSIZE * 8
  const IPB: nat := 16

  datatype Inode = Inode(addrs: seq<nat>, size: nat)

  /** A place that holds a block number: addrs[k] of an inode, or entry j of its indirect block. */
  datatype Slot = Direct(ino: nat, k: nat) | Leaf(ino: nat, j: nat)

  /** Blocks below meta are the boot block, superblock, log, inodes and bitmap. */
  datatype State = State(meta: nat, used: seq<bool>, inodes: seq<Inode>, data: seq<seq<int>>, ind: seq<seq<nat>>,
                         owner: seq<Option<Slot>>)

  predicate Shape(s: State) {
    && 0 < s.meta <= |s.used| == |s.data| == |s.ind| == |s.owner|
    && forall i :: 0 <= i < |s.inodes| ==> |s.inodes[i].addrs| == NDIRECT + 1
  }

  predicate IsSlot(s: State, sl: Slot) {
    sl.ino < |s.inodes| && if sl.Direct? then sl.k <= NDIRECT else sl.j < NINDIRECT
  }

  /** The indirect block of an inode, or 0. */
  function Indirect(s: State, ino: nat): nat
    requires Shape(s) && ino < |s.inodes|
  {
    s.inodes[ino].addrs[NDIRECT]
  }

  /** The block number in a slot; 0 for none. */
  function At(s: State, sl: Slot): nat
    requires Shape(s) && IsSlot(s, sl)
  {
    if sl.Direct? then s.inodes[sl.ino].addrs[sl.k]
    else
      var b := Indirect(s, sl.ino);
      if b == 0 || b >= |s.ind| || |s.ind[b]| != NINDIRECT then 0 else s.ind[b][sl.j]
  }

  /** The slot for block bn of a file. */
  function SlotOf(ino: nat, bn: nat): Slot {
    if bn < NDIRECT then Direct(ino, bn) else Leaf(ino, bn - NDIRECT)
  }

  // ----- The invariant

  ghost predicate SlotOk(s: State, sl: Slot)
    requires Shape(s)
  {
    IsSlot(s, sl) && At(s, sl) != 0 ==> s.meta <= At(s, sl) < |s.owner| && s.owner[At(s, sl)] == Some(sl)
  }

  ghost predicate BlockOk(s: State, b: nat)
    requires Shape(s)
  {
    b < |s.used| ==>
      && |s.data[b]| == BSIZE && |s.ind[b]| == NINDIRECT
      && (s.used[b] <==> b < s.meta || s.owner[b].Some?)
      && (s.owner[b].Some? ==> s.meta <= b && IsSlot(s, s.owner[b].value) && At(s, s.owner[b].value) == b)
  }

  /** Every block number below the size of the file is there. */
  ghost predicate FileOk(s: State, ino: nat)
    requires Shape(s)
  {
    ino < |s.inodes| ==>
      && s.inodes[ino].size <= MAXFILE * BSIZE
      && forall bn: nat {:trigger SlotOf(ino, bn)} :: bn * BSIZE < s.inodes[ino].size ==> At(s, SlotOf(ino, bn)) != 0
  }

  ghost predicate Inv(s: State) {
    && Shape(s)
    && (forall sl: Slot {:trigger SlotOk(s, sl)} :: SlotOk(s, sl))
    && (forall b: nat {:trigger BlockOk(s, b)} :: BlockOk(s, b))
    && (forall ino: nat {:trigger FileOk(s, ino)} :: FileOk(s, ino))
  }

  /** No file has a block: what mkfs starts from. */
  function Empty(meta: nat, blocks: nat, files: nat): State {
    State(meta, seq(blocks, b => b < meta), seq(files, _ => Inode(seq(NDIRECT + 1, _ => 0), 0)),
      seq(blocks, _ => ZeroBytes()), seq(blocks, _ => ZeroEntries()), seq(blocks, _ => None))
  }

  lemma EmptyHasInv(meta: nat, blocks: nat, files: nat)
    requires 0 < meta <= blocks
    ensures Inv(Empty(meta, blocks, files))
  {
    var s := Empty(meta, blocks, files);
    assert Shape(s);
    forall sl: Slot ensures SlotOk(s, sl) {
    }
    forall b: nat ensures BlockOk(s, b) {
    }
  }

  /** Every block in use is held by exactly one slot of one inode, and every block number in a slot is in use. */
  lemma BlocksAreOwnedOnce(s: State, x: Slot, y: Slot, b: nat)
    requires Inv(s) && IsSlot(s, x) && IsSlot(s, y)
    ensures At(s, x) != 0 ==> s.meta <= At(s, x) < |s.used| && s.used[At(s, x)]
    ensures At(s, x) == At(s, y) != 0 ==> x == y
    ensures s.meta <= b < |s.used| && s.used[b] ==> exists z :: IsSlot(s, z) && At(s, z) == b
  {
    assert SlotOk(s, x) && SlotOk(s, y) && BlockOk(s, At(s, x)) && BlockOk(s, b);
  }

  // ----- The bytes of a file

  /** Byte i of a file; 0 where there is no block. */
  function ByteAt(s: State, ino: nat, i: nat): int
    requires Shape(s) && ino < |s.inodes|
  {
    var sl := SlotOf(ino, i / BSIZE);
    if !IsSlot(s, sl) then 0
    else
      var b := At(s, sl);
      if b == 0 || b >= |s.data| || |s.data[b]| != BSIZE then 0 else s.data[b][i % BSIZE]
  }

  function Contents(s: State, ino: nat): (c: seq<int>)
    requires Shape(s) && ino < |s.inodes|
    ensures |c| == s.inodes[ino].size && forall i :: 0 <= i < |c| ==> c[i] == ByteAt(s, ino, i)
  {
    seq(s.inodes[ino].size, i requires 0 <= i < s.inodes[ino].size => ByteAt(s, ino, i))
  }

  /** Same bytes in every file, and same sizes. */
  ghost predicate SameFiles(s: State, t: State) {
    && Shape(s) && Shape(t) && |t.inodes| == |s.inodes| && t.meta == s.meta
    && (forall x: nat :: x < |s.inodes| ==> t.inodes[x].size == s.inodes[x].size)
    && forall x: nat, i: nat {:trigger ByteAt(t, x, i)} :: x < |s.inodes| ==> ByteAt(t, x, i) == ByteAt(s, x, i)
  }

  // ----- Steps

  function ZeroBytes(): (z: seq<int>)
    ensures |z| == BSIZE && forall i :: 0 <= i < BSIZE ==> z[i] == 0
  {
    seq(BSIZE, _ => 0)
  }

  function ZeroEntries(): (z: seq<nat>)
    ensures |z| == NINDIRECT && forall i :: 0 <= i < NINDIRECT ==> z[i] == 0
  {
    seq(NINDIRECT, _ => 0)
  }

  /** balloc of block b: marked in use and zeroed. */
  function AfterBalloc(s: State, b: nat): State
    requires Shape(s) && b < |s.used|
  {
    s.(used := s.used[b := true], data := s.data[b := ZeroBytes()], ind := s.ind[b := ZeroEntries()])
  }

  /** A block number stored in a slot. */
  function Store(s: State, sl: Slot, b: nat): State
    requires Shape(s) && IsSlot(s, sl) &&
      (sl.Leaf? ==> Indirect(s, sl.ino) < |s.ind| && |s.ind[Indirect(s, sl.ino)]| == NINDIRECT)
  {
    if sl.Direct? then
      s.(inodes := s.inodes[sl.ino := s.inodes[sl.ino].(addrs := s.inodes[sl.ino].addrs[sl.k := b])])
    else
      var entries: seq<nat> := s.ind[Indirect(s, sl.ino)];
      s.(ind := s.ind[Indirect(s, sl.ino) := entries[sl.j := b]])
  }

  /** bmap's allocation: a fresh block b in an empty slot. */
  function AfterAlloc(s: State, sl: Slot, b: nat): State
    requires Inv(s) && IsSlot(s, sl) && b < |s.used| && (sl.Leaf? ==> Indirect(s, sl.ino) < |s.ind|)
  {
    assert sl.Leaf? ==> BlockOk(s, Indirect(s, sl.ino));
    Store(AfterBalloc(s, b), sl, b).(owner := s.owner[b := Some(sl)])
  }

  /** m bytes of a block replaced. */
  function AfterPatch(s: State, b: nat, o: nat, src: seq<int>): State
    requires Shape(s) && b < |s.data| && o + |src| <= |s.data[b]|
  {
    s.(data := s.data[b := s.data[b][..o] + src + s.data[b][o + |src|..]])
  }

  function WithSize(s: State, ino: nat, size: nat): State
    requires ino < |s.inodes|
  {
    s.(inodes := s.inodes[ino := s.inodes[ino].(size := size)])
  }

  lemma AllocAt(s: State, sl: Slot, b: nat, x: Slot)
    requires Inv(s) && IsSlot(s, sl) && At(s, sl) == 0 && s.meta <= b < |s.used| && !s.used[b]
    requires sl.Leaf? ==> 0 < Indirect(s, sl.ino) < |s.ind|
    requires IsSlot(s, x)
    ensures var t := AfterAlloc(s, sl, b); Shape(t) && IsSlot(t, x) && At(t, x) == if x == sl then b else At(s, x)
  {
    var t := AfterAlloc(s, sl, b);
    assert BlockOk(s, b);
    if x.Leaf? {
      assert SlotOk(s, Direct(x.ino, NDIRECT)) && BlockOk(s, Indirect(s, x.ino));
    }
    if sl.Leaf? {
      assert SlotOk(s, Direct(sl.ino, NDIRECT)) && BlockOk(s, Indirect(s, sl.ino));
    }
  }

  lemma AllocKeepsInv(s: State, sl: Slot, b: nat)
    requires Inv(s) && IsSlot(s, sl) && At(s, sl) == 0 && s.meta <= b < |s.used| && !s.used[b]
    requires sl.Leaf? ==> 0 < Indirect(s, sl.ino) < |s.ind|
    ensures Inv(AfterAlloc(s, sl, b))
  {
    var t := AfterAlloc(s, sl, b);
    assert BlockOk(s, b);
    AllocAt(s, sl, b, sl);
    forall x: Slot ensures SlotOk(t, x) {
      assert SlotOk(s, x);
      if IsSlot(s, x) {
        AllocAt(s, sl, b, x);
      }
    }
    forall c: nat ensures BlockOk(t, c) {
      assert BlockOk(s, c);
      if c < |s.used| && s.owner[c].Some? {
        AllocAt(s, sl, b, s.owner[c].value);
      }
    }
    forall ino: nat ensures FileOk(t, ino) {
      assert FileOk(s, ino);
      forall bn: nat | ino < |s.inodes| && bn * BSIZE < s.inodes[ino].size ensures At(t, SlotOf(ino, bn)) != 0 {
        assert At(s, SlotOf(ino, bn)) != 0;
        AllocAt(s, sl, b, SlotOf(ino, bn));
      }
    }
  }

  /** A fresh zeroed block changes no byte of any file. */
  lemma AllocSameFiles(s: State, sl: Slot, b: nat)
    requires Inv(s) && IsSlot(s, sl) && At(s, sl) == 0 && s.meta <= b < |s.used| && !s.used[b]
    requires sl.Leaf? ==> 0 < Indirect(s, sl.ino) < |s.ind|
    ensures SameFiles(s, AfterAlloc(s, sl, b))
  {
    var t := AfterAlloc(s, sl, b);
    AllocAt(s, sl, b, sl);
    assert BlockOk(s, b);
    forall x: nat, i: nat | x < |s.inodes| ensures ByteAt(t, x, i) == ByteAt(s, x, i) {
      var y := SlotOf(x, i / BSIZE);
      if IsSlot(s, y) {
        AllocAt(s, sl, b, y);
        assert SlotOk(s, y);
      }
    }
  }

  // ----- Writing bytes

  lemma PatchKeepsInv(s: State, b: nat, o: nat, src: seq<int>)
    requires Inv(s) && b < |s.data| && o + |src| <= BSIZE
    ensures |s.data[b]| == BSIZE && Inv(AfterPatch(s, b, o, src))
  {
    assert BlockOk(s, b);
    var t := AfterPatch(s, b, o, src);
    forall x: Slot ensures SlotOk(t, x) {
      assert SlotOk(s, x);
    }
    forall c: nat ensures BlockOk(t, c) {
      assert BlockOk(s, c);
    }
    forall ino: nat ensures FileOk(t, ino) {
      assert FileOk(s, ino);
      forall bn: nat | ino < |s.inodes| && bn * BSIZE < s.inodes[ino].size ensures At(t, SlotOf(ino, bn)) != 0 {
        assert At(t, SlotOf(ino, bn)) == At(s, SlotOf(ino, bn));
      }
    }
  }

  /** Bytes written into the block of one file change that file there and no file anywhere else. */
  lemma PatchBytes(s: State, ino: nat, bn: nat, o: nat, src: seq<int>, x: nat, i: nat)
    requires Inv(s) && ino < |s.inodes| && x < |s.inodes| && bn < MAXFILE && o + |src| <= BSIZE
    requires At(s, SlotOf(ino, bn)) != 0
    ensures var b := At(s, SlotOf(ino, bn)); b < |s.data| && |s.data[b]| == BSIZE && Shape(AfterPatch(s, b, o, src))
    ensures ByteAt(AfterPatch(s, At(s, SlotOf(ino, bn)), o, src), x, i) ==
      if x == ino && i / BSIZE == bn && o <= i % BSIZE < o + |src| then src[i % BSIZE - o] else ByteAt(s, x, i)
  {
    var b := At(s, SlotOf(ino, bn));
    assert SlotOk(s, SlotOf(ino, bn)) && BlockOk(s, b);
    var t := AfterPatch(s, b, o, src);
    var y := SlotOf(x, i / BSIZE);
    if IsSlot(s, y) {
      assert SlotOk(s, y) && At(t, y) == At(s, y);
    }
  }

  // ----- itrunc

  predicate OwnedBy(o: Option<Slot>, ino: nat) {
    o.Some? && o.value.ino == ino
  }

  /** itrunc: all blocks of the file free, the inode empty. */
  function AfterTrunc(s: State, ino: nat): State
    requires Shape(s) && ino < |s.inodes|
  {
    s.(used := seq(|s.used|, b requires 0 <= b < |s.used| => s.used[b] && !OwnedBy(s.owner[b], ino)),
       owner := seq(|s.owner|, b requires 0 <= b < |s.owner| => if OwnedBy(s.owner[b], ino) then None else s.owner[b]),
       inodes := s.inodes[ino := Inode(seq(NDIRECT + 1, _ => 0), 0)])
  }

  lemma TruncAt(s: State, ino: nat, x: Slot)
    requires Inv(s) && ino < |s.inodes| && IsSlot(s, x)
    ensures var t := AfterTrunc(s, ino); Shape(t) && IsSlot(t, x) && At(t, x) == if x.ino == ino then 0 else At(s, x)
  {
  }

  lemma TruncKeepsInv(s: State, ino: nat)
    requires Inv(s) && ino < |s.inodes|
    ensures Inv(AfterTrunc(s, ino))
    ensures forall x: nat, i: nat :: x < |s.inodes| && x != ino ==> ByteAt(AfterTrunc(s, ino), x, i) == ByteAt(s, x, i)
  {
    var t := AfterTrunc(s, ino);
    forall x: Slot ensures SlotOk(t, x) {
      assert SlotOk(s, x);
      if IsSlot(s, x) {
        TruncAt(s, ino, x);
      }
    }
    forall b: nat ensures BlockOk(t, b) {
      assert BlockOk(s, b);
      if b < |s.used| && s.owner[b].Some? {
        TruncAt(s, ino, s.owner[b].value);
      }
    }
    forall y: nat ensures FileOk(t, y) {
      assert FileOk(s, y);
      forall bn: nat | y < |s.inodes| && bn * BSIZE < t.inodes[y].size ensures At(t, SlotOf(y, bn)) != 0 {
        TruncAt(s, ino, SlotOf(y, bn));
      }
    }
    forall x: nat, i: nat | x < |s.inodes| && x != ino ensures ByteAt(t, x, i) == ByteAt(s, x, i) {
      var y := SlotOf(x, i / BSIZE);
      if IsSlot(s, y) {
        TruncAt(s, ino, y);
      }
    }
  }

  /** The block of its file that a slot holds, MAXFILE for the indirect block; itrunc frees in this order. */
  function Rank(sl: Slot): nat {
    if sl.Leaf? then NDIRECT + sl.j else if sl.k < NDIRECT then sl.k else MAXFILE
  }

  predicate Gone(o: Option<Slot>, ino: nat, n: nat) {
    o.Some? && o.value.ino == ino && Rank(o.value) < n
  }

  /** The bitmap when itrunc has freed the first n slots. */
  ghost predicate FreedTo(s: State, used: seq<bool>, ino: nat, n: nat) {
    Shape(s) && |used| == |s.used| && forall b :: 0 <= b < |used| ==>
      used[b] == (s.used[b] && !Gone(s.owner[b], ino, n))
  }

  /** Freeing the block in the next slot: it is in use, so bfree does not panic, and it is no other slot's block. */
  lemma FreeNext(s: State, used: seq<bool>, sl: Slot)
    requires Inv(s) && IsSlot(s, sl) && FreedTo(s, used, sl.ino, Rank(sl))
    ensures var b := At(s, sl);
      if b == 0 then FreedTo(s, used, sl.ino, Rank(sl) + 1)
      else b < |used| && used[b] && FreedTo(s, used[b := false], sl.ino, Rank(sl) + 1)
  {
    var b := At(s, sl);
    assert SlotOk(s, sl) && BlockOk(s, b);
    var used' := if b == 0 || b >= |used| then used else used[b := false];
    forall c | 0 <= c < |used'| ensures used'[c] == (s.used[c] && !Gone(s.owner[c], sl.ino, Rank(sl) + 1)) {
      assert BlockOk(s, c);
      if s.owner[c].Some? && s.owner[c].value.ino == sl.ino && Rank(s.owner[c].value) == Rank(sl) {
        assert s.owner[c].value == sl;
      }
    }
  }

  /** Without an indirect block there is nothing after the direct ones. */
  lemma NoIndirect(s: State, used: seq<bool>, ino: nat)
    requires Inv(s) && ino < |s.inodes| && FreedTo(s, used, ino, NDIRECT) && Indirect(s, ino) == 0
    ensures FreedTo(s, used, ino, MAXFILE + 1)
  {
    forall c | 0 <= c < |used| ensures used[c] == (s.used[c] && !Gone(s.owner[c], ino, MAXFILE + 1)) {
      assert BlockOk(s, c);
    }
  }

  lemma FreedAllIsTrunc(s: State, used: seq<bool>, ino: nat)
    requires Inv(s) && ino < |s.inodes| && FreedTo(s, used, ino, MAXFILE + 1)
    ensures used == AfterTrunc(s, ino).used
  {
    forall c | 0 <= c < |used| ensures used[c] == AfterTrunc(s, ino).used[c] {
      assert BlockOk(s, c);
    }
  }

  // ----- The operations

  /** Slots that hold a block keep it. */
  ghost predicate Grows(s: State, t: State) {
    && Shape(s) && Shape(t) && |t.inodes| == |s.inodes|
    && forall x: Slot {:trigger At(s, x)} :: IsSlot(s, x) && At(s, x) != 0 ==> At(t, x) == At(s, x)
  }

  lemma AllocGrows(s: State, sl: Slot, b: nat)
    requires Inv(s) && IsSlot(s, sl) && At(s, sl) == 0 && s.meta <= b < |s.used| && !s.used[b]
    requires sl.Leaf? ==> 0 < Indirect(s, sl.ino) < |s.ind|
    ensures Grows(s, AfterAlloc(s, sl, b))
  {
    AllocAt(s, sl, b, sl);
    forall x: Slot | IsSlot(s, x) && At(s, x) != 0 ensures At(AfterAlloc(s, sl, b), x) == At(s, x) {
      AllocAt(s, sl, b, x);
    }
  }

  /** No byte of any file has changed, and no block has moved. */
  ghost predicate Extends(s: State, t: State) {
    SameFiles(s, t) && Grows(s, t) && |t.used| == |s.used|
  }

  lemma AllocIsGood(s: State, sl: Slot, b: nat)
    requires Inv(s) && IsSlot(s, sl) && At(s, sl) == 0 && b < |s.used| && !s.used[b]
    requires sl.Leaf? ==> 0 < Indirect(s, sl.ino) < |s.ind|
    ensures s.meta <= b && (sl.Leaf? ==> |s.ind[Indirect(s, sl.ino)]| == NINDIRECT && b != Indirect(s, sl.ino))
    ensures var t := AfterAlloc(s, sl, b);
      Inv(t) && Extends(s, t) && IsSlot(t, sl) && At(t, sl) == b
  {
    assert BlockOk(s, b);
    if sl.Leaf? {
      assert SlotOk(s, Direct(sl.ino, NDIRECT)) && BlockOk(s, Indirect(s, sl.ino));
    }
    AllocKeepsInv(s, sl, b);
    AllocSameFiles(s, sl, b);
    AllocGrows(s, sl, b);
    AllocAt(s, sl, b, sl);
  }

  lemma ExtendsFurther(s: State, t: State, u: State)
    requires Extends(s, t) && Extends(t, u)
    ensures Extends(s, u)
  {
    forall x: Slot | IsSlot(s, x) && At(s, x) != 0 ensures At(u, x) == At(s, x) {
      assert At(t, x) == At(s, x);
    }
    forall x: nat, i: nat | x < |s.inodes| ensures ByteAt(u, x, i) == ByteAt(s, x, i) {
      assert ByteAt(t, x, i) == ByteAt(s, x, i);
    }
  }

  ghost function Opt(b: nat): set<nat> {
    if b == 0 then {} else {b}
  }

  /** What readi copies in one turn is the contents of the file there. */
  lemma ChunkIsContents(s: State, ino: nat, off: nat, m: nat)
    requires Inv(s) && ino < |s.inodes| && off / BSIZE < MAXFILE && off % BSIZE + m <= BSIZE
    requires off + m <= s.inodes[ino].size && At(s, SlotOf(ino, off / BSIZE)) != 0
    ensures var b := At(s, SlotOf(ino, off / BSIZE));
      && b < |s.data| && |s.data[b]| == BSIZE
      && s.data[b][off % BSIZE..off % BSIZE + m] == Contents(s, ino)[off..off + m]
  {
    var sl := SlotOf(ino, off / BSIZE);
    assert SlotOk(s, sl) && BlockOk(s, At(s, sl));
    var chunk := s.data[At(s, sl)][off % BSIZE..off % BSIZE + m];
    forall k | off <= k < off + m ensures Contents(s, ino)[k] == chunk[k - off] {
      InChunk(off, m, k);
    }
  }

  /** out is what the file holds at off. */
  ghost predicate HoldsAt(s: State, ino: nat, off: nat, out: seq<int>) {
    && Shape(s) && ino < |s.inodes| && off + |out| <= s.inodes[ino].size
    && out == Contents(s, ino)[off..off + |out|]
  }

  lemma HoldsNothing(s: State, ino: nat, off: nat)
    requires Shape(s) && ino < |s.inodes| && off <= s.inodes[ino].size
    ensures HoldsAt(s, ino, off, [])
  {
  }

  lemma HoldsBoth(s: State, ino: nat, off: nat, a: seq<int>, b: seq<int>)
    requires HoldsAt(s, ino, off, a) && HoldsAt(s, ino, off + |a|, b)
    ensures HoldsAt(s, ino, off, a + b)
  {
    var c := Contents(s, ino);
    hide Shape, Contents;
    var n := off + |a|;
    assert c[off..n + |b|] == c[off..n] + c[n..n + |b|];
  }

  /** Below the size of a file every block is there. */
  lemma BlockIsThere(s: State, ino: nat, off: nat)
    requires Inv(s) && ino < |s.inodes| && off < s.inodes[ino].size
    ensures off / BSIZE < MAXFILE && At(s, SlotOf(ino, off / BSIZE)) != 0
  {
    assert FileOk(s, ino);
    assert off / BSIZE * BSIZE <= off;
  }

  // ----- What a write has done

  /** From s to t, the bytes of ino from off on were replaced by src; no other byte and no size changed, no
      block moved. */
  ghost predicate Wrote(s: State, t: State, ino: nat, off: nat, src: seq<int>) {
    && Grows(s, t) && |t.used| == |s.used| && t.meta == s.meta && ino < |s.inodes|
    && (forall x: nat :: x < |s.inodes| ==> t.inodes[x].size == s.inodes[x].size)
    && (forall x: nat, i: nat {:trigger ByteAt(t, x, i)} :: x < |s.inodes| ==>
      ByteAt(t, x, i) == if x == ino && off <= i < off + |src| then src[i - off] else ByteAt(s, x, i))
  }

  lemma WroteMore(s: State, t: State, u: State, ino: nat, off: nat, src: seq<int>, more: seq<int>)
    requires Wrote(s, t, ino, off, src) && Wrote(t, u, ino, off + |src|, more)
    ensures Wrote(s, u, ino, off, src + more)
  {
    forall x: Slot | IsSlot(s, x) && At(s, x) != 0 ensures At(u, x) == At(s, x) {
      assert At(t, x) == At(s, x);
    }
    forall x: nat, i: nat | x < |s.inodes|
      ensures ByteAt(u, x, i) == if x == ino && off <= i < off + |src + more| then (src + more)[i - off]
        else ByteAt(s, x, i)
    {
      assert ByteAt(t, x, i) == if x == ino && off <= i < off + |src| then src[i - off] else ByteAt(s, x, i);
    }
  }

  lemma NothingWrote(s: State, t: State, u: State, ino: nat, off: nat, src: seq<int>)
    requires Wrote(s, t, ino, off, src) && Extends(t, u)
    ensures Wrote(s, u, ino, off, src)
    ensures forall end: nat :: MappedTo(t, ino, end) ==> MappedTo(u, ino, end)
  {
    assert src + [] == src;
    WroteMore(s, t, u, ino, off, src, []);
    forall end: nat | MappedTo(t, ino, end) ensures MappedTo(u, ino, end) {
      forall bn: nat | bn * BSIZE < end ensures At(u, SlotOf(ino, bn)) != 0 {
        assert At(t, SlotOf(ino, bn)) != 0;
      }
    }
  }

  lemma WroteNothing(s: State, ino: nat, off: nat)
    requires Inv(s) && ino < |s.inodes| && off <= s.inodes[ino].size
    ensures Wrote(s, s, ino, off, []) && MappedTo(s, ino, off)
  {
    assert FileOk(s, ino);
  }

  /** bmap and then a copy into the block: one turn of writei's loop. */
  lemma PatchWrote(s: State, t: State, ino: nat, off: nat, src: seq<int>)
    requires Inv(t) && Extends(s, t) && ino < |s.inodes| && off / BSIZE < MAXFILE && off % BSIZE + |src| <= BSIZE
    requires At(t, SlotOf(ino, off / BSIZE)) != 0
    ensures var b := At(t, SlotOf(ino, off / BSIZE));
      && b < |t.data| && |t.data[b]| == BSIZE && Inv(AfterPatch(t, b, off % BSIZE, src))
      && Wrote(s, AfterPatch(t, b, off % BSIZE, src), ino, off, src)
      && At(AfterPatch(t, b, off % BSIZE, src), SlotOf(ino, off / BSIZE)) == b
  {
    var b := At(t, SlotOf(ino, off / BSIZE));
    assert SlotOk(t, SlotOf(ino, off / BSIZE)) && BlockOk(t, b);
    PatchKeepsInv(t, b, off % BSIZE, src);
    var u := AfterPatch(t, b, off % BSIZE, src);
    forall x: Slot | IsSlot(s, x) && At(s, x) != 0 ensures At(u, x) == At(s, x) {
      assert At(t, x) == At(s, x);
    }
    forall x: nat, i: nat | x < |s.inodes|
      ensures ByteAt(u, x, i) == if x == ino && off <= i < off + |src| then src[i - off] else ByteAt(s, x, i)
    {
      PatchBytes(t, ino, off / BSIZE, off % BSIZE, src, x, i);
      InChunk(off, |src|, i);
      assert ByteAt(t, x, i) == ByteAt(s, x, i);
    }
  }

  lemma InChunk(off: nat, m: nat, i: nat)
    requires off % BSIZE + m <= BSIZE
    ensures off <= i < off + m <==> i / BSIZE == off / BSIZE && off % BSIZE <= i % BSIZE < off % BSIZE + m
    ensures off <= i < off + m ==> i - off == i % BSIZE - off % BSIZE
  {
  }

  /** Every block number below end is there. */
  ghost predicate MappedTo(s: State, ino: nat, end: nat) {
    && Shape(s) && ino < |s.inodes| && end <= MAXFILE * BSIZE
    && forall bn: nat {:trigger SlotOf(ino, bn)} :: bn * BSIZE < end ==> At(s, SlotOf(ino, bn)) != 0
  }

  lemma MappedFurther(s: State, t: State, ino: nat, off: nat, m: nat)
    requires MappedTo(s, ino, off) && Grows(s, t) && off % BSIZE + m <= BSIZE && off + m <= MAXFILE * BSIZE
    requires off / BSIZE < MAXFILE && At(t, SlotOf(ino, off / BSIZE)) != 0
    ensures MappedTo(t, ino, off + m)
  {
    forall bn: nat | bn * BSIZE < off + m ensures At(t, SlotOf(ino, bn)) != 0 {
      if bn * BSIZE < off {
        assert At(s, SlotOf(ino, bn)) != 0;
      } else {
        assert bn == off / BSIZE;
      }
    }
  }

  lemma SizeKeepsInv(s: State, ino: nat, size: nat)
    requires Inv(s) && MappedTo(s, ino, size)
    ensures Inv(WithSize(s, ino, size))
    ensures forall x: nat, i: nat {:trigger ByteAt(WithSize(s, ino, size), x, i)} :: x < |s.inodes| ==>
      ByteAt(WithSize(s, ino, size), x, i) == ByteAt(s, x, i)
  {
    var t := WithSize(s, ino, size);
    forall x: Slot ensures SlotOk(t, x) {
      assert SlotOk(s, x);
      assert IsSlot(s, x) ==> At(t, x) == At(s, x);
    }
    forall b: nat ensures BlockOk(t, b) {
      assert BlockOk(s, b);
    }
    forall y: nat ensures FileOk(t, y) {
      assert FileOk(s, y);
      forall bn: nat | y < |s.inodes| && bn * BSIZE < t.inodes[y].size ensures At(t, SlotOf(y, bn)) != 0 {
        assert At(s, SlotOf(y, bn)) != 0;
        assert At(t, SlotOf(y, bn)) == At(s, SlotOf(y, bn));
      }
    }
    forall x: nat, i: nat | x < |s.inodes| ensures ByteAt(t, x, i) == ByteAt(s, x, i) {
      var y := SlotOf(x, i / BSIZE);
      assert IsSlot(s, y) ==> At(t, y) == At(s, y);
    }
  }

  function Max(a: nat, b: nat): nat {
    if a < b then b else a
  }

  /** writei from s to t: exactly those bytes of that file, and its size when it grew. */
  ghost predicate Written(s: State, t: State, ino: nat, off: nat, src: seq<int>) {
    && Shape(s) && Shape(t) && |t.inodes| == |s.inodes| && ino < |s.inodes|
    && (forall x: nat :: x < |s.inodes| ==>
      t.inodes[x].size == if x == ino then Max(s.inodes[x].size, off + |src|) else s.inodes[x].size)
    && (forall x: nat, i: nat {:trigger ByteAt(t, x, i)} :: x < |s.inodes| ==>
      ByteAt(t, x, i) == if x == ino && off <= i < off + |src| then src[i - off] else ByteAt(s, x, i))
  }

  /** In terms of whole files: the contents are one byte sequence with [off, off + n) replaced. */
  lemma WrittenContents(s: State, t: State, ino: nat, off: nat, src: seq<int>, x: nat)
    requires Written(s, t, ino, off, src) && off <= s.inodes[ino].size && x < |s.inodes|
    ensures x != ino ==> Contents(t, x) == Contents(s, x)
    ensures var c := Contents(s, ino);
      Contents(t, ino) == c[..off] + src + (if off + |src| < |c| then c[off + |src|..] else [])
  {
    var c := Contents(s, ino);
    var d := c[..off] + src + (if off + |src| < |c| then c[off + |src|..] else []);
    forall i | 0 <= i < |d| ensures Contents(t, ino)[i] == d[i] {
    }
  }

  lemma WrittenMore(s: State, t: State, u: State, ino: nat, off: nat, src: seq<int>, more: seq<int>)
    requires Written(s, t, ino, off, src) && Written(t, u, ino, off + |src|, more)
    ensures Written(s, u, ino, off, src + more)
  {
    forall x: nat, i: nat | x < |s.inodes|
      ensures ByteAt(u, x, i) == if x == ino && off <= i < off + |src + more| then (src + more)[i - off]
        else ByteAt(s, x, i)
    {
      assert ByteAt(t, x, i) == if x == ino && off <= i < off + |src| then src[i - off] else ByteAt(s, x, i);
    }
  }

  /** filewrite has written the first i bytes, or could not start because the offset is past the end. */
  ghost predicate Chunked(s: State, t: State, ino: nat, off: nat, src: seq<int>, i: nat) {
    && Shape(s) && Shape(t) && ino < |s.inodes| == |t.inodes| && i <= |src|
    && if off <= s.inodes[ino].size then Written(s, t, ino, off, src[..i]) else i == 0 && t == s
  }

  lemma WrittenIsMapped(s: State, t: State, ino: nat, off: nat, src: seq<int>)
    requires Chunked(s, t, ino, off, src, |src|) && Inv(t) && off <= s.inodes[ino].size
    ensures off + |src| <= MAXFILE * BSIZE && MappedTo(t, ino, off + |src|)
  {
    assert src[..|src|] == src && FileOk(t, ino);
  }

  lemma ChunkedFurther(s: State, t: State, u: State, ino: nat, off: nat, src: seq<int>, i: nat, n: nat, r: int)
    requires Chunked(s, t, ino, off, src, i) && i + n <= |src| && Shape(u) && |u.inodes| == |t.inodes|
    requires off + i > t.inodes[ino].size ==> r == -1
    requires if r == -1 then u == t else 0 <= r <= n && Written(t, u, ino, off + i, src[i..i + n][..r])
    ensures Chunked(s, u, ino, off, src, if r == -1 then i else i + r)
  {
    if off <= s.inodes[ino].size && r != -1 {
      WrittenMore(s, t, u, ino, off, src[..i], src[i..i + n][..r]);
      assert src[..i] + src[i..i + n][..r] == src[..i + r];
    }
  }

  // ----- What is changed is logged

  ghost predicate SameShape(s: State, t: State) {
    && |t.used| == |s.used| && |t.data| == |s.data| && |t.ind| == |s.ind| && |t.owner| == |s.owner|
    && |s.data| == |s.ind| == |s.owner| && |t.inodes| == |s.inodes| && t.meta == s.meta
  }

  ghost predicate BlockSame(s: State, t: State, l: set<nat>, b: nat)
    requires SameShape(s, t)
  {
    b < |s.data| && b !in l ==> t.data[b] == s.data[b] && t.ind[b] == s.ind[b] && t.owner[b] == s.owner[b]
  }

  ghost predicate BitSame(s: State, t: State, l: set<nat>, bitmap: nat, b: nat)
    requires SameShape(s, t)
  {
    b < |s.used| && bitmap + b / BPB !in l ==> t.used[b] == s.used[b]
  }

  /** Blocks and bits that differ are in l, and inodes differ nowhere but at ino. */
  ghost predicate CoveredBut(s: State, t: State, l: set<nat>, bitmap: nat, ino: nat) {
    && SameShape(s, t)
    && (forall b: nat {:trigger BlockSame(s, t, l, b)} :: BlockSame(s, t, l, b))
    && (forall b: nat {:trigger BitSame(s, t, l, bitmap, b)} :: BitSame(s, t, l, bitmap, b))
    && (forall x :: 0 <= x < |s.inodes| && x != ino ==> t.inodes[x] == s.inodes[x])
  }

  /** Whatever differs on disk between s and t is in a block of l. */
  ghost predicate Covered(s: State, t: State, l: set<nat>, bitmap: nat, itable: nat) {
    && SameShape(s, t)
    && (forall b: nat {:trigger BlockSame(s, t, l, b)} :: BlockSame(s, t, l, b))
    && (forall b: nat {:trigger BitSame(s, t, l, bitmap, b)} :: BitSame(s, t, l, bitmap, b))
    && (forall x :: 0 <= x < |s.inodes| && itable + x / IPB !in l ==> t.inodes[x] == s.inodes[x])
  }

  lemma CoveredNone(s: State, l: set<nat>, bitmap: nat, ino: nat)
    requires Shape(s)
    ensures CoveredBut(s, s, l, bitmap, ino)
  {
  }

  lemma CoveredOn(s: State, t: State, u: State, l: set<nat>, l': set<nat>, bitmap: nat, ino: nat)
    requires CoveredBut(s, t, l, bitmap, ino) && CoveredBut(t, u, l', bitmap, ino) && l <= l'
    ensures CoveredBut(s, u, l', bitmap, ino)
  {
    forall b: nat ensures BlockSame(s, u, l', b) && BitSame(s, u, l', bitmap, b) {
      assert BlockSame(s, t, l, b) && BlockSame(t, u, l', b) && BitSame(s, t, l, bitmap, b);
      assert BitSame(t, u, l', bitmap, b);
    }
  }

  lemma AllocCovered(s: State, sl: Slot, b: nat, l: set<nat>, bitmap: nat)
    requires Inv(s) && IsSlot(s, sl) && b < |s.used| && (sl.Leaf? ==> Indirect(s, sl.ino) < |s.ind|)
    requires bitmap + b / BPB in l && b in l && (sl.Leaf? ==> Indirect(s, sl.ino) in l)
    ensures CoveredBut(s, AfterAlloc(s, sl, b), l, bitmap, sl.ino)
  {
    assert sl.Leaf? ==> BlockOk(s, Indirect(s, sl.ino));
    var t := AfterAlloc(s, sl, b);
    forall c: nat ensures BlockSame(s, t, l, c) && BitSame(s, t, l, bitmap, c) {
    }
  }

  lemma CoveredSame(s: State, l: set<nat>, bitmap: nat, itable: nat)
    requires Shape(s)
    ensures Covered(s, s, l, bitmap, itable)
  {
  }

  /** iupdate: the block of the inode that changed is logged too. */
  lemma InodeCovered(s: State, t: State, u: State, l: set<nat>, l': set<nat>, bitmap: nat, itable: nat, ino: nat)
    requires CoveredBut(s, t, l, bitmap, ino) && ino < |t.inodes| == |u.inodes|
    requires u == t.(inodes := t.inodes[ino := u.inodes[ino]]) && l' == l + {itable + ino / IPB}
    ensures Covered(s, u, l', bitmap, itable)
  {
    forall b: nat ensures BlockSame(s, u, l', b) && BitSame(s, u, l', bitmap, b) {
      assert BlockSame(s, t, l, b) && BitSame(s, t, l, bitmap, b);
    }
  }

  lemma PatchCovered(s: State, b: nat, o: nat, src: seq<int>, l: set<nat>, bitmap: nat, ino: nat)
    requires Shape(s) && b < |s.data| && o + |src| <= |s.data[b]| && b in l
    ensures CoveredBut(s, AfterPatch(s, b, o, src), l, bitmap, ino)
  {
    forall c: nat ensures BlockSame(s, AfterPatch(s, b, o, src), l, c) {
    }
  }

  // ----- How many blocks a write logs

  /** A chunk of filewrite touches at most four blocks of the file. */
  lemma ChunkBlocks(off: nat, n: nat)
    requires 0 < n <= 3 * BSIZE
    ensures (off + n - 1) / BSIZE + 1 - off / BSIZE <= 4
  {
  }

  /** What one transaction of filewrite did, and the blocks it logged. */
  datatype Chunk = Chunk(before: State, after: State, logged: set<nat>)

  /** The state before chunk k. */
  function BeforeChunk(s: State, chunks: seq<Chunk>, k: nat): State
    requires k <= |chunks|
  {
    if k == 0 then s else chunks[k - 1].after
  }

  /** The chunks lead from s to t, and each logs every block it changes. */
  ghost predicate Chained(s: State, chunks: seq<Chunk>, t: State, bitmap: nat, itable: nat) {
    && t == BeforeChunk(s, chunks, |chunks|)
    && forall k :: 0 <= k < |chunks| ==>
      && chunks[k].before == BeforeChunk(s, chunks, k)
      && Covered(chunks[k].before, chunks[k].after, chunks[k].logged, bitmap, itable)
  }

  lemma ChainedOn(s: State, chunks: seq<Chunk>, t: State, c: Chunk, bitmap: nat, itable: nat)
    requires Chained(s, chunks, t, bitmap, itable) && c.before == t
    requires Covered(t, c.after, c.logged, bitmap, itable)
    ensures Chained(s, chunks + [c], c.after, bitmap, itable)
  {
    hide Covered;
    var cs := chunks + [c];
    assert forall k :: 0 <= k <= |chunks| ==> BeforeChunk(s, cs, k) == BeforeChunk(s, chunks, k);
  }

  /** No transaction of these logs more than seven blocks. */
  ghost predicate Small(chunks: seq<Chunk>) {
    forall k :: 0 <= k < |chunks| ==> |chunks[k].logged| <= CHUNKLOG
  }

  lemma SmallOn(chunks: seq<Chunk>, c: Chunk)
    requires Small(chunks) && |c.logged| <= CHUNKLOG
    ensures Small(chunks + [c])
  {
  }

  ghost function Scripts(chunks: seq<Chunk>): (r: seq<set<int>>)
    ensures |r| == |chunks| && forall k :: 0 <= k < |r| ==> r[k] == chunks[k].logged
  {
    seq(|chunks|, k requires 0 <= k < |chunks| => chunks[k].logged)
  }

  const CHUNKLOG: nat := 7

  /**
   However the chunks of any number of filewrite calls interleave, log_write
   does not panic on a log area of 26 blocks or more; and that is as small as
   an area may be for operations of seven blocks.
   */
  lemma FileWritesNeverPanic(size: int, chunks: seq<Chunk>, es: seq<LogSpace.Event>)
    requires Small(chunks) && LogSpace.Scripted(size, Scripts(chunks), es)
    ensures size >= 26 ==> LogSpace.FreeRun(size, es) != LogSpace.Panic
    ensures LogSpace.NeverPanics(size, LogSpace.Blocks(CHUNKLOG)) <==> size >= 26
  {
    LogSpace.PanicFreeExactlyWhenFits(size, LogSpace.Blocks(CHUNKLOG));
    if size >= 26 {
      LogSpace.ScriptedRunsAreSafe(size, CHUNKLOG, Scripts(chunks), es);
    }
  }

  ghost function BlockAt(s: State, ino: nat, bn: nat): nat {
    if Shape(s) && IsSlot(s, SlotOf(ino, bn)) then At(s, SlotOf(ino, bn)) else 0
  }

  ghost function DataBlocks(s: State, ino: nat, lo: nat, hi: nat): set<nat>
    decreases hi
  {
    if hi <= lo then {} else DataBlocks(s, ino, lo, hi - 1) + Opt(BlockAt(s, ino, hi - 1))
  }

  lemma {:induction false} DataBlocksFew(s: State, t: State, ino: nat, lo: nat, hi: nat)
    requires Grows(s, t) && lo <= hi
    ensures DataBlocks(s, ino, lo, hi) <= DataBlocks(t, ino, lo, hi)
    ensures |DataBlocks(t, ino, lo, hi)| <= hi - lo
  {
    if lo < hi {
      DataBlocksFew(s, t, ino, lo, hi - 1);
      assert BlockAt(s, ino, hi - 1) == 0 || BlockAt(t, ino, hi - 1) == BlockAt(s, ino, hi - 1);
    }
  }

  lemma {:induction false} InDataBlocks(s: State, ino: nat, lo: nat, hi: nat, bn: nat)
    requires lo <= bn < hi
    ensures Opt(BlockAt(s, ino, bn)) <= DataBlocks(s, ino, lo, hi)
    decreases hi
  {
    if bn < hi - 1 {
      InDataBlocks(s, ino, lo, hi - 1, bn);
    }
  }

  /** The blocks of log that a write to blocks lo..hi-1 of a file may touch, besides the one that holds the inode. */
  ghost function Touched(s: State, ino: nat, lo: nat, hi: nat, bitmap: nat): set<nat> {
    {bitmap} + Opt(IndirectOf(s, ino)) + DataBlocks(s, ino, lo, hi)
  }

  ghost function IndirectOf(s: State, ino: nat): nat {
    if Shape(s) && ino < |s.inodes| then Indirect(s, ino) else 0
  }

  lemma TouchedFurther(t: State, u: State, ino: nat, lo: nat, hi: nat, bn: nat, bitmap: nat, l: set<nat>, l': set<nat>)
    requires Grows(t, u) && lo <= bn < hi && l <= Touched(t, ino, lo, hi, bitmap) && ino < |t.inodes|
    requires l' <= l + {bitmap} + Opt(IndirectOf(u, ino)) + Opt(BlockAt(u, ino, bn))
    ensures l' <= Touched(u, ino, lo, hi, bitmap)
  {
    DataBlocksFew(t, u, ino, lo, hi);
    InDataBlocks(u, ino, lo, hi, bn);
    assert IndirectOf(t, ino) == At(t, Direct(ino, NDIRECT)) && IndirectOf(u, ino) == At(u, Direct(ino, NDIRECT));
  }

  /** From s to t, writei's loop has written the first tot bytes of src, and logged l. */
  ghost predicate Progress(s: State, t: State, l: set<nat>, bitmap: nat, ino: nat, off: nat, src: seq<int>, tot: nat) {
    && Inv(t) && tot <= |src| && Wrote(s, t, ino, off, src[..tot]) && MappedTo(t, ino, off + tot)
    && (|t.used| <= BPB ==> l <= Touched(t, ino, off / BSIZE, (off + |src| - 1) / BSIZE + 1, bitmap))
  }

  /** The same with what the loop took and logged; it has read no more of the source than can be read. */
  ghost predicate Looped(s: State, t: State, l: set<nat>, bitmap: nat, ino: nat, off: nat, src: seq<int>, tot: nat,
      fails: nat) {
    && Progress(s, t, l, bitmap, ino, off, src, tot) && tot <= fails
    && CoveredBut(s, t, l, bitmap, ino) && TookFor(s, t, ino, off, |src|)
  }

  lemma LoopStarts(s: State, l: set<nat>, bitmap: nat, ino: nat, off: nat, src: seq<int>, fails: nat)
    requires Inv(s) && ino < |s.inodes| && l == {} && off <= s.inodes[ino].size
    ensures Looped(s, s, l, bitmap, ino, off, src, 0, fails)
  {
    WroteNothing(s, ino, off);
    CoveredNone(s, l, bitmap, ino);
    TookNothing(s, ino, off, |src|);
    assert src[..0] == [];
  }

  lemma LoopedMeans(s: State, t: State, l: set<nat>, bitmap: nat, ino: nat, off: nat, src: seq<int>, tot: nat,
      fails: nat)
    requires Looped(s, t, l, bitmap, ino, off, src, tot, fails)
    ensures Inv(t) && tot <= |src| && Wrote(s, t, ino, off, src[..tot]) && MappedTo(t, ino, off + tot)
  {
  }

  /** writei from s to t with tot bytes written: which bytes, why no more, and what it took and logged. */
  ghost predicate WriteiDid(s: State, t: State, l: set<nat>, ino: nat, off: nat, src: seq<int>, tot: nat, fails: nat,
      bitmap: nat, itable: nat) {
    && Inv(t) && |t.used| == |s.used| && tot <= |src| && Written(s, t, ino, off, src[..tot])
    && (tot < |src| ==> fails < |src| || Lacks(t, ino, off + tot)) && (tot == |src| ==> |src| <= fails)
    && (0 < |src| <= fails ==> (tot == |src| <==> !Short(s, ino, off, |src|)))
    && TookFor(s, t, ino, off, |src|) && Covered(s, t, l, bitmap, itable)
    && (|t.used| <= BPB && |src| > 0 ==> |l| <= 3 + (off + |src| - 1) / BSIZE + 1 - off / BSIZE)
  }

  lemma WriteiEnds(s: State, t: State, u: State, l: set<nat>, l': set<nat>, ino: nat, off: nat, src: seq<int>,
      tot: nat, fails: nat, bitmap: nat, itable: nat)
    requires Looped(s, t, l, bitmap, ino, off, src, tot, fails) && off + |src| <= MAXFILE * BSIZE
    requires tot < |src| ==> fails < |src| || Lacks(t, ino, off + tot)
    requires Inv(u) && Written(s, u, ino, off, src[..tot]) && Indirect(u, ino) == Indirect(t, ino)
    requires |u.inodes| == |t.inodes| && u == t.(inodes := t.inodes[ino := u.inodes[ino]])
    requires forall bn: nat :: BlockAt(u, ino, bn) == BlockAt(t, ino, bn)
    requires l' == l + {itable + ino / IPB}
    ensures WriteiDid(s, u, l', ino, off, src, tot, fails, bitmap, itable)
  {
    InodeCovered(s, t, u, l, l', bitmap, itable, ino);
    if src != [] {
      EnoughExactly(s, t, u, l, ino, off, src, tot, fails, bitmap);
      if |u.used| <= BPB {
        LogsFew(s, t, l, ino, off, src, tot, bitmap, itable + ino / IPB);
      }
    }
    assert |u.used| == |s.used| && tot <= |src| && (tot == |src| ==> |src| <= fails);
    hide Inv, Written, Covered, CoveredBut, Progress, TookFor, Short, Lacks;
  }

  lemma LogsFew(s: State, t: State, l: set<nat>, ino: nat, off: nat, src: seq<int>, tot: nat, bitmap: nat, inode: nat)
    requires Progress(s, t, l, bitmap, ino, off, src, tot) && src != [] && |t.used| <= BPB
    ensures |l + {inode}| <= 3 + (off + |src| - 1) / BSIZE + 1 - off / BSIZE
  {
    hide Inv, Wrote, Touched;
    TouchedFew(t, ino, off / BSIZE, (off + |src| - 1) / BSIZE + 1, bitmap, l, inode);
  }

  lemma EnoughExactly(s: State, t: State, u: State, l: set<nat>, ino: nat, off: nat, src: seq<int>, tot: nat,
      fails: nat, bitmap: nat)
    requires Looped(s, t, l, bitmap, ino, off, src, tot, fails) && src != [] && off + |src| <= MAXFILE * BSIZE
    requires tot < |src| ==> fails < |src| || Lacks(t, ino, off + tot)
    requires u.used == t.used && IndirectOf(u, ino) == IndirectOf(t, ino)
    requires forall bn: nat :: BlockAt(u, ino, bn) == BlockAt(t, ino, bn)
    ensures TookFor(s, u, ino, off, |src|) && (Lacks(t, ino, off + tot) ==> Lacks(u, ino, off + tot))
    ensures |src| <= fails ==> (tot == |src| <==> !Short(s, ino, off, |src|))
  {
    hide Inv, Wrote, CoveredBut, TookFor, Short, Lacks, Touched;
    SizeTakesNothing(s, t, u, ino, off, |src|, off + tot);
    if tot == |src| {
      MappedMeansEnough(s, t, ino, off, |src|);
    } else if fails >= |src| {
      LackMeansShort(s, t, ino, off, |src|, off + tot);
    }
  }

  function ChunkSize(at: nat, left: nat): nat {
    if left < BSIZE - at % BSIZE then left else BSIZE - at % BSIZE
  }

  lemma ChunkFits(off: nat, n: nat, tot: nat)
    requires tot < n && off + n <= MAXFILE * BSIZE
    ensures var at, m := off + tot, ChunkSize(off + tot, n - tot);
      && 0 < m <= n - tot && at % BSIZE + m <= BSIZE
      && off / BSIZE <= at / BSIZE < (off + n - 1) / BSIZE + 1 && at / BSIZE < MAXFILE
  {
  }

  lemma TurnWrote(s: State, t: State, u: State, l: set<nat>, l': set<nat>, bitmap: nat, ino: nat, off: nat,
    src: seq<int>, tot: nat, m: nat)
    requires Progress(s, t, l, bitmap, ino, off, src, tot) && tot < |src| && off + |src| <= MAXFILE * BSIZE
    requires m == ChunkSize(off + tot, |src| - tot) && Inv(u) && tot + m <= |src|
    requires Wrote(t, u, ino, off + tot, src[tot..tot + m])
    requires (off + tot) / BSIZE < MAXFILE && At(u, SlotOf(ino, (off + tot) / BSIZE)) != 0
    requires |u.used| <= BPB ==>
      l' <= l + {bitmap} + Opt(Indirect(u, ino)) + Opt(At(u, SlotOf(ino, (off + tot) / BSIZE)))
    ensures Progress(s, u, l', bitmap, ino, off, src, tot + m)
  {
    hide Inv, Touched;
    ChunkFits(off, |src|, tot);
    WroteMore(s, t, u, ino, off, src[..tot], src[tot..tot + m]);
    MappedFurther(t, u, ino, off + tot, m);
    assert src[..tot] + src[tot..tot + m] == src[..tot + m];
    if |u.used| <= BPB {
      TouchedFurther(t, u, ino, off / BSIZE, (off + |src| - 1) / BSIZE + 1, (off + tot) / BSIZE, bitmap, l, l');
    }
  }

  lemma TurnStopped(s: State, t: State, u: State, l: set<nat>, l': set<nat>, bitmap: nat, ino: nat, off: nat,
    src: seq<int>, tot: nat)
    requires Progress(s, t, l, bitmap, ino, off, src, tot) && tot < |src| && off + |src| <= MAXFILE * BSIZE
    requires Inv(u) && Extends(t, u) && (off + tot) / BSIZE < MAXFILE
    requires |u.used| <= BPB ==>
      l' <= l + {bitmap} + Opt(Indirect(u, ino)) + Opt(At(u, SlotOf(ino, (off + tot) / BSIZE)))
    ensures Progress(s, u, l', bitmap, ino, off, src, tot)
  {
    ChunkFits(off, |src|, tot);
    NothingWrote(s, t, u, ino, off, src[..tot]);
    if |u.used| <= BPB {
      TouchedFurther(t, u, ino, off / BSIZE, (off + |src| - 1) / BSIZE + 1, (off + tot) / BSIZE, bitmap, l, l');
    }
  }

  lemma TouchedFew(s: State, ino: nat, lo: nat, hi: nat, bitmap: nat, l: set<nat>, inode: nat)
    requires Shape(s) && lo <= hi && l <= Touched(s, ino, lo, hi, bitmap)
    ensures |l + {inode}| <= 3 + hi - lo
  {
    DataBlocksFew(s, s, ino, lo, hi);
    var d := DataBlocks(s, ino, lo, hi);
    var all := {bitmap} + Opt(IndirectOf(s, ino)) + d + {inode};
    assert |all| <= |d| + 3;
    SubsetIsSmaller(l + {inode}, all);
  }

  // ----- How many blocks a write takes

  function FreeCount(used: seq<bool>): nat {
    if used == [] then 0 else FreeCount(used[..|used| - 1]) + if used[|used| - 1] then 0 else 1
  }

  lemma {:induction false} TakenCount(used: seq<bool>, b: nat)
    requires b < |used| && !used[b]
    ensures FreeCount(used[b := true]) == FreeCount(used) - 1
  {
    var n := |used| - 1;
    if b < n {
      TakenCount(used[..n], b);
      assert used[b := true][..n] == used[..n][b := true];
    } else {
      assert used[b := true][..n] == used[..n];
    }
  }

  lemma {:induction false} NoneFree(used: seq<bool>)
    requires AllUsed(used)
    ensures FreeCount(used) == 0
  {
    if used != [] {
      NoneFree(used[..|used| - 1]);
    }
  }

  /** The blocks lo..hi-1 of a file that are not there. */
  ghost function Missing(s: State, ino: nat, lo: nat, hi: nat): nat
    decreases hi
  {
    if hi <= lo then 0 else Missing(s, ino, lo, hi - 1) + if BlockAt(s, ino, hi - 1) == 0 then 1 else 0
  }

  /** What writing blocks lo..hi-1 allocates: the missing ones, and the indirect block if one of them is past the direct
      ones. */
  ghost function Need(s: State, ino: nat, lo: nat, hi: nat): nat {
    Missing(s, ino, lo, hi) + if lo < hi && NDIRECT < hi && IndirectOf(s, ino) == 0 then 1 else 0
  }

  /** The free blocks that writing blocks lo..hi-1 would leave; negative when there are too few. */
  ghost function Left(s: State, ino: nat, lo: nat, hi: nat): int {
    FreeCount(s.used) - Need(s, ino, lo, hi)
  }

  /** Every block taken from s to t was one needed for blocks a..b-1. */
  ghost predicate Balanced(s: State, t: State, ino: nat, a: nat, b: nat) {
    forall lo: nat, hi: nat {:trigger Left(t, ino, lo, hi)} :: lo <= a && b <= hi <= MAXFILE ==>
      Left(t, ino, lo, hi) == Left(s, ino, lo, hi)
  }

  lemma BalancedOn(s: State, t: State, u: State, ino: nat, a: nat, b: nat, c: nat, d: nat)
    requires Balanced(s, t, ino, a, b) && Balanced(t, u, ino, c, d) && a <= c && d <= b
    ensures Balanced(s, u, ino, a, b)
  {
    forall lo: nat, hi: nat | lo <= a && b <= hi <= MAXFILE ensures Left(u, ino, lo, hi) == Left(s, ino, lo, hi) {
      assert Left(t, ino, lo, hi) == Left(s, ino, lo, hi);
    }
  }

  lemma {:induction false} SameMissing(s: State, t: State, ino: nat, lo: nat, hi: nat)
    requires forall bn: nat :: BlockAt(t, ino, bn) == BlockAt(s, ino, bn)
    ensures Missing(t, ino, lo, hi) == Missing(s, ino, lo, hi)
    decreases hi
  {
    if lo < hi {
      SameMissing(s, t, ino, lo, hi - 1);
      assert BlockAt(t, ino, hi - 1) == BlockAt(s, ino, hi - 1);
    }
  }

  /** Nothing allocated. */
  lemma SameIsBalanced(s: State, t: State, ino: nat, a: nat, b: nat)
    requires t.used == s.used && IndirectOf(t, ino) == IndirectOf(s, ino)
    requires forall bn: nat :: BlockAt(t, ino, bn) == BlockAt(s, ino, bn)
    ensures Balanced(s, t, ino, a, b)
  {
    forall lo: nat, hi: nat | lo <= a && b <= hi <= MAXFILE ensures Left(t, ino, lo, hi) == Left(s, ino, lo, hi) {
      SameMissing(s, t, ino, lo, hi);
    }
  }

  /** The slot is one that block bn of its file needs: its own, or the indirect block's. */
  predicate IsFor(sl: Slot, bn: nat) {
    bn < MAXFILE && (sl == SlotOf(sl.ino, bn) || (NDIRECT <= bn && sl == Direct(sl.ino, NDIRECT)))
  }

  lemma AllocBlockAt(s: State, sl: Slot, b: nat, bn: nat)
    requires Inv(s) && IsSlot(s, sl) && At(s, sl) == 0 && s.meta <= b < |s.used| && !s.used[b]
    requires sl.Leaf? ==> 0 < Indirect(s, sl.ino) < |s.ind|
    ensures var t := AfterAlloc(s, sl, b);
      BlockAt(t, sl.ino, bn) == if bn < MAXFILE && bn == Rank(sl) then b else BlockAt(s, sl.ino, bn)
  {
    AllocAt(s, sl, b, sl);
    if bn < MAXFILE {
      AllocAt(s, sl, b, SlotOf(sl.ino, bn));
    }
  }

  /** Block x of the file came to be there. */
  lemma {:induction false} OneLessMissing(s: State, t: State, ino: nat, x: nat, lo: nat, hi: nat)
    requires BlockAt(s, ino, x) == 0 && hi <= MAXFILE
    requires forall bn: nat :: bn < MAXFILE ==>
      if bn == x then BlockAt(t, ino, bn) != 0 else BlockAt(t, ino, bn) == BlockAt(s, ino, bn)
    ensures Missing(t, ino, lo, hi) == Missing(s, ino, lo, hi) - if lo <= x < hi then 1 else 0
    decreases hi
  {
    hide BlockAt;
    if lo < hi {
      OneLessMissing(s, t, ino, x, lo, hi - 1);
      assert hi - 1 != x ==> BlockAt(t, ino, hi - 1) == BlockAt(s, ino, hi - 1);
    }
  }

  /** bmap's allocation takes one free block, and one the write needs. */
  lemma AllocBalanced(s: State, sl: Slot, b: nat, bn: nat)
    requires Inv(s) && IsSlot(s, sl) && At(s, sl) == 0 && s.meta <= b < |s.used| && !s.used[b]
    requires (sl.Leaf? ==> 0 < Indirect(s, sl.ino) < |s.ind|) && IsFor(sl, bn)
    ensures Balanced(s, AfterAlloc(s, sl, b), sl.ino, bn, bn + 1)
  {
    var t, ino := AfterAlloc(s, sl, b), sl.ino;
    TakenCount(s.used, b);
    AllocAt(s, sl, b, Direct(ino, NDIRECT));
    forall x: nat | x < MAXFILE
      ensures if x == Rank(sl) then BlockAt(t, ino, x) != 0 else BlockAt(t, ino, x) == BlockAt(s, ino, x)
    {
      AllocBlockAt(s, sl, b, x);
    }
    forall lo: nat, hi: nat | lo <= bn < hi <= MAXFILE ensures Left(t, ino, lo, hi) == Left(s, ino, lo, hi) {
      OneLessMissing(s, t, ino, Rank(sl), lo, hi);
    }
  }

  /** From s to t only blocks were taken that n bytes at off need. */
  ghost predicate TookFor(s: State, t: State, ino: nat, off: nat, n: nat) {
    n > 0 ==> Balanced(s, t, ino, off / BSIZE, (off + n - 1) / BSIZE + 1)
  }

  lemma TookNothing(s: State, ino: nat, off: nat, n: nat)
    ensures TookFor(s, s, ino, off, n)
  {
  }

  lemma TookInBlock(s: State, t: State, ino: nat, off: nat, n: nat)
    requires off % BSIZE + n <= BSIZE && Balanced(s, t, ino, off / BSIZE, off / BSIZE + 1)
    ensures TookFor(s, t, ino, off, n)
  {
    if n > 0 {
      assert (off + n - 1) / BSIZE == off / BSIZE;
    }
  }

  /** A part of the write more. */
  lemma TookMore(s: State, t: State, u: State, ino: nat, off: nat, n: nat, at: nat, m: nat)
    requires TookFor(s, t, ino, off, n) && TookFor(t, u, ino, at, m) && off <= at && at + m <= off + n && 0 < m
    ensures TookFor(s, u, ino, off, n)
  {
    hide Balanced;
    BalancedOn(s, t, u, ino, off / BSIZE, (off + n - 1) / BSIZE + 1, at / BSIZE, (at + m - 1) / BSIZE + 1);
  }

  lemma PatchBalanced(s: State, t: State, ino: nat, bn: nat, b: nat, o: nat, src: seq<int>)
    requires Shape(s) && b < |s.data| && o + |src| <= |s.data[b]| && t == AfterPatch(s, b, o, src)
    ensures Balanced(s, t, ino, bn, bn + 1)
  {
    forall x: nat ensures BlockAt(t, ino, x) == BlockAt(s, ino, x) {
    }
    SameIsBalanced(s, t, ino, bn, bn + 1);
  }

  lemma SizeTakesNothing(s: State, t: State, u: State, ino: nat, off: nat, n: nat, at: nat)
    requires n > 0 && TookFor(s, t, ino, off, n) && u.used == t.used && IndirectOf(u, ino) == IndirectOf(t, ino)
    requires forall bn: nat :: BlockAt(u, ino, bn) == BlockAt(t, ino, bn)
    ensures TookFor(s, u, ino, off, n) && (Lacks(t, ino, at) ==> Lacks(u, ino, at))
  {
    var lo, hi := off / BSIZE, (off + n - 1) / BSIZE + 1;
    SameIsBalanced(t, u, ino, lo, hi);
    BalancedOn(s, t, u, ino, lo, hi, lo, hi);
  }

  /** The disk is full and the block for byte at is not there. */
  ghost predicate Lacks(s: State, ino: nat, at: nat) {
    AllUsed(s.used) && at / BSIZE < MAXFILE && BlockAt(s, ino, at / BSIZE) == 0
  }

  /** There are not enough free blocks for n bytes at off. */
  ghost predicate Short(s: State, ino: nat, off: nat, n: nat)
    requires n > 0
  {
    FreeCount(s.used) < Need(s, ino, off / BSIZE, (off + n - 1) / BSIZE + 1)
  }

  /** filewrite has come from s to t by these chunks, and written the first i bytes. */
  ghost predicate FileWriteAt(s: State, t: State, chunks: seq<Chunk>, ino: nat, off: nat, src: seq<int>, i: nat,
      bitmap: nat, itable: nat) {
    && Inv(t) && |t.used| == |s.used| && Chunked(s, t, ino, off, src, i) && TookFor(s, t, ino, off, |src|)
    && Chained(s, chunks, t, bitmap, itable) && (|s.used| <= BPB ==> Small(chunks))
  }

  lemma FileWriteStarts(s: State, ino: nat, off: nat, src: seq<int>, bitmap: nat, itable: nat)
    requires Inv(s) && ino < |s.inodes|
    ensures FileWriteAt(s, s, [], ino, off, src, 0, bitmap, itable)
  {
    assert src[..0] == [];
  }

  /** One chunk: from t to u, n of its bytes asked for and r of them, or an error, the outcome. */
  ghost predicate ChunkAt(s: State, t: State, u: State, l: set<nat>, ino: nat, off: nat, src: seq<int>, i: nat, n: nat,
      r: int, fails: nat, bitmap: nat, itable: nat) {
    && Inv(u) && |u.used| == |t.used| && 0 < n <= |src| - i && -1 <= r <= n
    && Chunked(s, u, ino, off, src, if r == -1 then i else i + r)
    && TookFor(t, u, ino, off + i, n) && Covered(t, u, l, bitmap, itable) && (|u.used| <= BPB ==> |l| <= CHUNKLOG)
    && (r != n && !Stuck(s.inodes[ino].size, off, |src|, fails) ==> r >= 0 && Lacks(u, ino, off + i + r))
    && (r == n ==> off <= s.inodes[ino].size && off + i + n <= MAXFILE * BSIZE && i + n <= fails)
  }

  lemma FileWriteTurn(s: State, t: State, chunks: seq<Chunk>, ino: nat, off: nat, src: seq<int>, i: nat, bitmap: nat,
      itable: nat)
    requires FileWriteAt(s, t, chunks, ino, off, src, i, bitmap, itable)
    ensures Inv(t) && Chunked(s, t, ino, off, src, i) && ino < |t.inodes| == |s.inodes|
    ensures off <= s.inodes[ino].size ==> off + i <= t.inodes[ino].size
  {
  }

  /** writei would not start. */
  lemma ChunkRefused(s: State, t: State, ino: nat, off: nat, src: seq<int>, i: nat, n: nat, fails: nat, bitmap: nat,
      itable: nat)
    requires Inv(t) && Chunked(s, t, ino, off, src, i) && 0 < n <= |src| - i
    requires Stuck(s.inodes[ino].size, off, |src|, fails)
    ensures ChunkAt(s, t, t, {}, ino, off, src, i, n, -1, fails, bitmap, itable)
  {
    TookNothing(t, ino, off + i, n);
    CoveredSame(t, {}, bitmap, itable);
  }

  lemma ChunkWritten(s: State, t: State, u: State, l: set<nat>, ino: nat, off: nat, src: seq<int>, i: nat, n: nat,
      r: nat, fails: nat, bitmap: nat, itable: nat)
    requires Inv(t) && Chunked(s, t, ino, off, src, i) && 0 < n <= |src| - i && n <= 3 * BSIZE
    requires off + i <= t.inodes[ino].size && off + i + n <= MAXFILE * BSIZE
    requires WriteiDid(t, u, l, ino, off + i, src[i..i + n], r, if fails > i then fails - i else 0, bitmap, itable)
    ensures ChunkAt(s, t, u, l, ino, off, src, i, n, r, fails, bitmap, itable) && r <= n
    ensures r == n ==> off <= s.inodes[ino].size && i + n <= fails
  {
    assert Shape(u) && |u.inodes| == |t.inodes| && off <= s.inodes[ino].size;
    hide Inv, Covered, TookFor, Short, Lacks, Written;
    ChunkBlocks(off + i, n);
    ChunkedFurther(s, t, u, ino, off, src, i, n, r);
  }

  lemma FileWriteOn(s: State, t: State, u: State, chunks: seq<Chunk>, l: set<nat>, ino: nat, off: nat, src: seq<int>,
      i: nat, n: nat, r: int, fails: nat, bitmap: nat, itable: nat)
    requires FileWriteAt(s, t, chunks, ino, off, src, i, bitmap, itable)
    requires ChunkAt(s, t, u, l, ino, off, src, i, n, r, fails, bitmap, itable)
    ensures var j := if r == -1 then i else i + r;
      FileWriteAt(s, u, chunks + [Chunk(t, u, l)], ino, off, src, j, bitmap, itable)
    ensures r != n ==> Stuck(s.inodes[ino].size, off, |src|, fails) || Short(s, ino, off, |src|)
  {
    assert ino < |s.inodes|;
    hide Inv, Chained, Covered, TookFor, Short, Lacks, Chunked, Small;
    var c := Chunk(t, u, l);
    ChainedOn(s, chunks, t, c, bitmap, itable);
    if |s.used| <= BPB {
      SmallOn(chunks, c);
    }
    TookMore(s, t, u, ino, off, |src|, off + i, n);
    if r != n && !Stuck(s.inodes[ino].size, off, |src|, fails) {
      LackMeansShort(s, u, ino, off, |src|, off + i + r);
    }
  }

  lemma FileWriteMeans(s: State, t: State, chunks: seq<Chunk>, ino: nat, off: nat, src: seq<int>, i: nat, bitmap: nat,
      itable: nat, fails: nat)
    requires FileWriteAt(s, t, chunks, ino, off, src, i, bitmap, itable)
    ensures Inv(t) && |t.inodes| == |s.inodes| && i <= |src| && Chained(s, chunks, t, bitmap, itable)
    ensures |s.used| <= BPB ==> Small(chunks)
    ensures off <= s.inodes[ino].size ==> Written(s, t, ino, off, src[..i])
    ensures i == |src| > 0 && off <= s.inodes[ino].size && |src| <= fails ==>
      !Stuck(s.inodes[ino].size, off, |src|, fails) && !Short(s, ino, off, |src|)
  {
    hide Inv, Chained, Covered, TookFor, Short, Lacks, Small;
    if i == |src| > 0 && off <= s.inodes[ino].size {
      WrittenIsMapped(s, t, ino, off, src);
      MappedMeansEnough(s, t, ino, off, |src|);
    }
  }

  lemma {:induction false} MissingOne(s: State, ino: nat, lo: nat, hi: nat, bn: nat)
    requires lo <= bn < hi && BlockAt(s, ino, bn) == 0
    ensures Missing(s, ino, lo, hi) > 0
    decreases hi
  {
    if bn < hi - 1 {
      MissingOne(s, ino, lo, hi - 1, bn);
    }
  }

  lemma {:induction false} MissingNone(s: State, ino: nat, lo: nat, hi: nat)
    requires forall bn: nat :: lo <= bn < hi ==> BlockAt(s, ino, bn) != 0
    ensures Missing(s, ino, lo, hi) == 0
    decreases hi
  {
    if lo < hi {
      MissingNone(s, ino, lo, hi - 1);
    }
  }

  /** Stopped for want of a block: there were too few to begin with. */
  lemma LackMeansShort(s: State, t: State, ino: nat, off: nat, n: nat, at: nat)
    requires n > 0 && off <= at < off + n <= MAXFILE * BSIZE && Lacks(t, ino, at)
    requires TookFor(s, t, ino, off, n)
    ensures Short(s, ino, off, n)
  {
    var lo, hi := off / BSIZE, (off + n - 1) / BSIZE + 1;
    NoneFree(t.used);
    MissingOne(t, ino, lo, hi, at / BSIZE);
    assert Left(t, ino, lo, hi) == Left(s, ino, lo, hi);
  }

  /** All written: there were enough. */
  lemma MappedMeansEnough(s: State, t: State, ino: nat, off: nat, n: nat)
    requires n > 0 && off + n <= MAXFILE * BSIZE && MappedTo(t, ino, off + n)
    requires TookFor(s, t, ino, off, n)
    ensures !Short(s, ino, off, n)
  {
    var lo, hi := off / BSIZE, (off + n - 1) / BSIZE + 1;
    forall bn: nat | lo <= bn < hi ensures BlockAt(t, ino, bn) != 0 {
      assert bn * BSIZE < off + n;
      assert At(t, SlotOf(ino, bn)) != 0;
    }
    MissingNone(t, ino, lo, hi);
    if hi > NDIRECT {
      assert At(t, SlotOf(ino, hi - 1)) != 0;
    }
    assert Left(t, ino, lo, hi) == Left(s, ino, lo, hi);
  }

  lemma SameBitmapBlock(base: nat, bi: nat)
    requires base % BPB == 0 && bi < BPB
    ensures (base + bi) / BPB == base / BPB
  {
  }

  /** n bytes at off do not fit a file of this size, or not all of them can be read. */
  predicate Stuck(size: nat, off: nat, n: nat, fails: nat) {
    off > size || off + n > MAXFILE * BSIZE || fails < n
  }

  ghost predicate AllUsed(used: seq<bool>) {
    forall x :: 0 <= x < |used| ==> used[x]
  }

  class FileSystem {
    const meta: nat
    const bmapstart: nat
    const inodestart: nat
    var used: seq<bool>
    var inodes: seq<Inode>
    var data: seq<seq<int>>
    var ind: seq<seq<nat>>
    ghost var owner: seq<Option<Slot>>
    /** The blocks passed to log_write. */
    ghost var logged: set<nat>

    ghost function S(): State
      reads this
    {
      State(meta, used, inodes, data, ind, owner)
    }

    /** An empty file system, as mkfs makes it before it adds files. */
    constructor (meta: nat, bmapstart: nat, inodestart: nat, blocks: nat, files: nat)
      requires 0 < meta <= blocks
      ensures Inv(S()) && S() == Empty(meta, blocks, files) && logged == {}
      ensures this.bmapstart == bmapstart && this.inodestart == inodestart
    {
      this.meta, this.bmapstart, this.inodestart := meta, bmapstart, inodestart;
      var s := Empty(meta, blocks, files);
      used, inodes, data, ind, owner, logged := s.used, s.inodes, s.data, s.ind, s.owner, {};
      EmptyHasInv(meta, blocks, files);
    }

    /** balloc: the first free block, zeroed, or 0. */
    method Balloc() returns (b: nat)
      requires Shape(S()) && used[0]
      modifies this`used, this`data, this`ind, this`logged
      ensures b == 0 ==> S() == old(S()) && logged == old(logged) && forall x :: 0 <= x < |used| ==> used[x]
      ensures b != 0 ==> b < |old(used)| && !old(used)[b] && S() == AfterBalloc(old(S()), b)
      ensures b != 0 ==> logged == old(logged) + {bmapstart + b / BPB, b}
    {
      var base := 0;
      while base < |used|
        invariant base % BPB == 0 && forall x :: 0 <= x < base && x < |used| ==> used[x]
      {
        var bi := 0;
        while bi < BPB && base + bi < |used|
          invariant bi <= BPB && forall x :: 0 <= x < base + bi && x < |used| ==> used[x]
        {
          if !used[base + bi] {
            b := base + bi;
            SameBitmapBlock(base, bi);
            used := used[b := true];
            logged := logged + {bmapstart + base / BPB};
            data, ind := data[b := ZeroBytes()], ind[b := ZeroEntries()];
            logged := logged + {b};
            return;
          }
          bi := bi + 1;
        }
        base := base + BPB;
      }
      b := 0;
    }

    /** bfree: ok is false for the panic. */
    method Bfree(b: nat) returns (ok: bool)
      requires b < |used|
      modifies this`used, this`logged
      ensures ok == old(used)[b] && used == old(used)[b := false]
    {
      ok := used[b];
      used := used[b := false];
      logged := logged + {bmapstart + b / BPB};
    }

    /** The allocation bmap makes for an empty slot, on the way to block bn. */
    method Fill(sl: Slot, ghost bn: nat) returns (b: nat)
      requires Inv(S()) && IsSlot(S(), sl) && At(S(), sl) == 0 && IsFor(sl, bn)
      requires sl.Leaf? ==> 0 < Indirect(S(), sl.ino) < |ind|
      modifies this
      ensures Inv(S()) && Extends(old(S()), S()) && IsSlot(S(), sl) && b == At(S(), sl)
      ensures b == 0 ==> S() == old(S()) && logged == old(logged) && forall x :: 0 <= x < |used| ==> used[x]
      ensures b != 0 ==> meta <= b < |old(used)| && S() == AfterAlloc(old(S()), sl, b)
      ensures |used| <= BPB ==>
        logged <= old(logged) + {bmapstart} + Opt(b) + (if sl.Leaf? then Opt(Indirect(S(), sl.ino)) else {})
      ensures old(logged) <= logged && CoveredBut(old(S()), S(), logged, bmapstart, sl.ino)
      ensures Balanced(old(S()), S(), sl.ino, bn, bn + 1)
    {
      ghost var s := S();
      assert BlockOk(s, 0);
      CoveredNone(s, logged, bmapstart, sl.ino);
      SameIsBalanced(s, s, sl.ino, bn, bn + 1);
      assert Extends(s, s);
      hide Extends, CoveredBut, Balanced;
      b := Balloc();
      if b == 0 {
        return;
      }
      AllocIsGood(s, sl, b);
      AllocBalanced(s, sl, b, bn);
      if sl.Direct? {
        inodes := inodes[sl.ino := inodes[sl.ino].(addrs := inodes[sl.ino].addrs[sl.k := b])];
      } else {
        var a := inodes[sl.ino].addrs[NDIRECT];
        var entries: seq<nat> := ind[a];
        ind := ind[a := entries[sl.j := b]];
        logged := logged + {a};
      }
      owner := owner[b := Some(sl)];
      AllocCovered(s, sl, b, logged, bmapstart);
    }

    /** A slot's block number, allocated if there is none. */
    method Ensure(sl: Slot, ghost bn: nat) returns (b: nat)
      requires Inv(S()) && IsSlot(S(), sl) && (sl.Leaf? ==> Indirect(S(), sl.ino) != 0) && IsFor(sl, bn)
      modifies this
      ensures Inv(S()) && Extends(old(S()), S()) && b == At(S(), sl)
      ensures b == 0 ==> forall x :: 0 <= x < |used| ==> used[x]
      ensures At(old(S()), sl) != 0 ==> S() == old(S()) && logged == old(logged)
      ensures b == 0 ==> S() == old(S())
      ensures |used| <= BPB ==>
        logged <= old(logged) + {bmapstart} + Opt(b) + (if sl.Leaf? then Opt(Indirect(S(), sl.ino)) else {})
      ensures old(logged) <= logged && CoveredBut(old(S()), S(), logged, bmapstart, sl.ino)
      ensures Balanced(old(S()), S(), sl.ino, bn, bn + 1)
    {
      CoveredNone(S(), logged, bmapstart, sl.ino);
      if sl.Direct? {
        b := inodes[sl.ino].addrs[sl.k];
      } else {
        assert SlotOk(S(), Direct(sl.ino, NDIRECT)) && BlockOk(S(), Indirect(S(), sl.ino));
        b := ind[inodes[sl.ino].addrs[NDIRECT]][sl.j];
      }
      if b != 0 {
        return;
      }
      b := Fill(sl, bn);
    }

    /** bmap: the block number, or 0 when the disk is full; panic is for a block number past MAXFILE. */
    method Bmap(ino: nat, bn: nat) returns (panic: bool, addr: nat)
      requires Inv(S()) && ino < |inodes|
      modifies this
      ensures Inv(S()) && Extends(old(S()), S())
      ensures panic <==> bn >= MAXFILE
      ensures panic ==> S() == old(S())
      ensures !panic ==> addr == At(S(), SlotOf(ino, bn))
      ensures addr == 0 && !panic ==> forall x :: 0 <= x < |used| ==> used[x]
      ensures !panic && At(old(S()), SlotOf(ino, bn)) != 0 ==> S() == old(S())
      ensures |used| <= BPB && !panic ==>
        logged <= old(logged) + {bmapstart} + Opt(addr) + (if bn < NDIRECT then {} else Opt(Indirect(S(), ino)))
      ensures old(logged) <= logged && CoveredBut(old(S()), S(), logged, bmapstart, ino)
      ensures Balanced(old(S()), S(), ino, bn, bn + 1)
    {
      CoveredNone(S(), logged, bmapstart, ino);
      if bn < NDIRECT {
        addr := Ensure(Direct(ino, bn), bn);
        return false, addr;
      }
      if bn - NDIRECT < NINDIRECT {
        ghost var s := S();
        panic, addr := false, 0;
        var a := Ensure(Direct(ino, NDIRECT), bn);
        ghost var t, l := S(), logged;
        if a == 0 {
          return;
        }
        addr := Ensure(Leaf(ino, bn - NDIRECT), bn);
        CoveredOn(s, t, S(), l, logged, bmapstart, ino);
        BalancedOn(s, t, S(), ino, bn, bn + 1, bn, bn + 1);
        ExtendsFurther(s, t, S());
        assert Indirect(S(), ino) == At(S(), Direct(ino, NDIRECT)) == At(t, Direct(ino, NDIRECT)) == a;
        return;
      }
      return true, 0;
    }

    /** readi: fails is how many bytes of the destination can be written; -1 when the copy runs into that. */
    method Readi(ino: nat, off0: nat, n0: nat, fails: nat) returns (tot: int, out: seq<int>)
      requires Inv(S()) && ino < |inodes|
      modifies this
      ensures S() == old(S())
      ensures off0 > inodes[ino].size || off0 + n0 >= 0x1_0000_0000 ==> tot == 0 && out == []
      ensures off0 <= inodes[ino].size && off0 + n0 < 0x1_0000_0000 ==>
        var n := if off0 + n0 > inodes[ino].size then inodes[ino].size - off0 else n0;
        if n <= fails then tot == n == |out| && HoldsAt(S(), ino, off0, out) else tot == -1
    {
      hide Inv, HoldsAt;
      if off0 > inodes[ino].size || off0 + n0 >= 0x1_0000_0000 {
        return 0, [];
      }
      var n := if off0 + n0 > inodes[ino].size then inodes[ino].size - off0 else n0;
      tot, out := ReadLoop(ino, off0, n, fails);
    }

    method ReadLoop(ino: nat, off: nat, n: nat, fails: nat) returns (tot: int, out: seq<int>)
      requires Inv(S()) && ino < |inodes| && off + n <= inodes[ino].size
      modifies this
      ensures S() == old(S())
      ensures if n <= fails then tot == n == |out| && HoldsAt(S(), ino, off, out) else tot == -1
    {
      ghost var s := S();
      HoldsNothing(s, ino, off);
      hide Inv, HoldsAt;
      tot, out := 0, [];
      while tot < n
        invariant 0 <= |out| == tot <= n && tot <= fails && S() == s && HoldsAt(s, ino, off, out)
      {
        var chunk := ReadChunk(ino, off + tot, n - tot);
        HoldsBoth(s, ino, off, out, chunk);
        if tot + |chunk| > fails {
          return -1, out;
        }
        out := out + chunk;
        tot := tot + |chunk|;
      }
    }

    /** One turn of readi's loop: the bytes it copies, up to the end of a block. */
    method ReadChunk(ino: nat, off: nat, n: nat) returns (chunk: seq<int>)
      requires Inv(S()) && ino < |inodes| && 0 < n && off + n <= inodes[ino].size
      modifies this
      ensures S() == old(S())
      ensures 0 < |chunk| <= n && HoldsAt(S(), ino, off, chunk)
    {
      BlockIsThere(S(), ino, off);
      var _, addr := Bmap(ino, off / BSIZE);
      var m := if n < BSIZE - off % BSIZE then n else BSIZE - off % BSIZE;
      ChunkIsContents(S(), ino, off, m);
      chunk := data[addr][off % BSIZE..off % BSIZE + m];
    }

    /** One turn of writei's loop, with the bytes it copies; copies is whether copyin works. */
    method WriteChunk(ino: nat, off: nat, src: seq<int>, copies: bool) returns (ok: bool)
      requires Inv(S()) && ino < |inodes| && off / BSIZE < MAXFILE && off % BSIZE + |src| <= BSIZE
      modifies this
      ensures Inv(S())
      ensures ok ==> Wrote(old(S()), S(), ino, off, src) && At(S(), SlotOf(ino, off / BSIZE)) != 0
      ensures !ok ==> Extends(old(S()), S()) && (!copies || Lacks(S(), ino, off))
      ensures ok ==> copies
      ensures TookFor(old(S()), S(), ino, off, |src|)
      ensures |used| <= BPB ==>
        logged <= old(logged) + {bmapstart} + Opt(Indirect(S(), ino)) + Opt(At(S(), SlotOf(ino, off / BSIZE)))
      ensures old(logged) <= logged && CoveredBut(old(S()), S(), logged, bmapstart, ino)
    {
      ghost var s := S();
      var _, addr := Bmap(ino, off / BSIZE);
      TookInBlock(s, S(), ino, off, |src|);
      if addr == 0 || !copies {
        return false;
      }
      PatchWrote(s, S(), ino, off, src);
      ghost var t, l := S(), logged;
      var o := off % BSIZE;
      data := data[addr := data[addr][..o] + src + data[addr][o + |src|..]];
      logged := logged + {addr};
      PatchCovered(t, addr, o, src, logged, bmapstart, ino);
      CoveredOn(s, t, S(), l, logged, bmapstart, ino);
      PatchBalanced(t, S(), ino, off / BSIZE, addr, o, src);
      BalancedOn(s, t, S(), ino, off / BSIZE, off / BSIZE + 1, off / BSIZE, off / BSIZE + 1);
      TookInBlock(s, S(), ino, off, |src|);
      ok := true;
    }

    /** The end of writei: the size, and iupdate. */
    method SetSize(ghost s: State, ino: nat, ghost off: nat, end: nat, ghost src: seq<int>)
      requires Inv(S()) && Wrote(s, S(), ino, off, src) && MappedTo(S(), ino, end) && end == off + |src|
      modifies this`inodes, this`logged
      ensures Inv(S()) && Written(s, S(), ino, off, src) && Indirect(S(), ino) == Indirect(old(S()), ino)
      ensures logged == old(logged) + {inodestart + ino / IPB}
      ensures |inodes| == |old(inodes)| && S() == old(S()).(inodes := old(inodes)[ino := inodes[ino]])
      ensures forall bn: nat :: BlockAt(S(), ino, bn) == BlockAt(old(S()), ino, bn)
    {
      if end > inodes[ino].size {
        SizeKeepsInv(S(), ino, end);
        inodes := inodes[ino := inodes[ino].(size := end)];
      }
      logged := logged + {inodestart + ino / IPB};
    }

    /** One turn of the loop, or what makes it stop. */
    method WriteTurn(ghost s: State, ino: nat, off: nat, src: seq<int>, tot: nat, fails: nat) returns (m: nat)
      requires Looped(s, S(), logged, bmapstart, ino, off, src, tot, fails) && tot < |src|
      requires off + |src| <= MAXFILE * BSIZE
      modifies this
      ensures Looped(s, S(), logged, bmapstart, ino, off, src, tot + m, fails) && tot + m <= |src|
      ensures m == 0 ==> fails < |src| || Lacks(S(), ino, off + tot)
    {
      hide Balanced, TookFor, CoveredBut, Lacks;
      m := ChunkSize(off + tot, |src| - tot);
      ghost var t, l := S(), logged;
      ChunkFits(off, |src|, tot);
      var ok := WriteChunk(ino, off + tot, src[tot..tot + m], tot + m <= fails);
      CoveredOn(s, t, S(), l, logged, bmapstart, ino);
      TookMore(s, t, S(), ino, off, |src|, off + tot, m);
      if ok {
        TurnWrote(s, t, S(), l, logged, bmapstart, ino, off, src, tot, m);
      } else {
        TurnStopped(s, t, S(), l, logged, bmapstart, ino, off, src, tot);
        m := 0;
      }
    }

    /** writei: the number of bytes written, or -1; fails is how many bytes of the source can be read. */
    method Writei(ino: nat, off: nat, src: seq<int>, fails: nat) returns (tot: int)
      requires Inv(S()) && ino < |inodes| && logged == {}
      modifies this
      ensures tot == -1 <==>
        (off > old(inodes)[ino].size || off + |src| >= 0x1_0000_0000 || off + |src| > MAXFILE * BSIZE)
      ensures tot == -1 ==> S() == old(S()) && logged == {}
      ensures tot != -1 ==>
        tot >= 0 && WriteiDid(old(S()), S(), logged, ino, off, src, tot, fails, bmapstart, inodestart)
    {
      hide Inv, Shape, Looped, WriteiDid;
      ghost var s := S();
      if off > inodes[ino].size || off + |src| >= 0x1_0000_0000 {
        return -1;
      }
      if off + |src| > MAXFILE * BSIZE {
        return -1;
      }
      tot := WriteLoop(ino, off, src, fails);
      ghost var t, l := S(), logged;
      LoopedMeans(s, t, l, bmapstart, ino, off, src, tot, fails);
      SetSize(s, ino, off, off + tot, src[..tot]);
      WriteiEnds(s, t, S(), l, logged, ino, off, src, tot, fails, bmapstart, inodestart);
    }

    method WriteLoop(ino: nat, off: nat, src: seq<int>, fails: nat) returns (tot: nat)
      requires Inv(S()) && ino < |inodes| && logged == {} && off <= inodes[ino].size && off + |src| <= MAXFILE * BSIZE
      modifies this
      ensures Looped(old(S()), S(), logged, bmapstart, ino, off, src, tot, fails)
      ensures tot < |src| ==> fails < |src| || Lacks(S(), ino, off + tot)
    {
      ghost var s := S();
      LoopStarts(s, logged, bmapstart, ino, off, src, fails);
      hide Inv, Looped, Lacks;
      tot := 0;
      while tot < |src|
        invariant Looped(s, S(), logged, bmapstart, ino, off, src, tot, fails) && tot <= |src|
      {
        var m := WriteTurn(s, ino, off, src, tot, fails);
        if m == 0 {
          break;
        }
        tot := tot + m;
      }
    }

    /** The first loop of itrunc. */
    method FreeDirect(ino: nat) returns (ok: bool)
      requires Inv(S()) && ino < |inodes|
      modifies this`used, this`inodes, this`logged
      ensures ok && FreedTo(old(S()), used, ino, NDIRECT)
      ensures |inodes| == old(|inodes|) && |inodes[ino].addrs| == NDIRECT + 1
      ensures inodes == old(inodes)[ino := inodes[ino]] && forall k :: 0 <= k < NDIRECT ==> inodes[ino].addrs[k] == 0
      ensures inodes[ino].addrs[NDIRECT] == old(inodes)[ino].addrs[NDIRECT]
    {
      ghost var s := S();
      ok := true;
      for i := 0 to NDIRECT
        invariant ok && FreedTo(s, used, ino, i)
        invariant |inodes| == |s.inodes| && |inodes[ino].addrs| == NDIRECT + 1 && inodes == s.inodes[ino := inodes[ino]]
        invariant forall k :: 0 <= k <= NDIRECT ==> inodes[ino].addrs[k] == if k < i then 0 else s.inodes[ino].addrs[k]
      {
        FreeNext(s, used, Direct(ino, i));
        if inodes[ino].addrs[i] != 0 {
          ok := Bfree(inodes[ino].addrs[i]);
          inodes := inodes[ino := inodes[ino].(addrs := inodes[ino].addrs[i := 0])];
        }
      }
    }

    /** The indirect part of itrunc. */
    method FreeIndirect(ghost s: State, ino: nat) returns (ok: bool)
      requires Inv(s) && ino < |s.inodes| == |inodes| && FreedTo(s, used, ino, NDIRECT) && ind == s.ind
      requires |inodes[ino].addrs| == NDIRECT + 1 && inodes[ino].addrs[NDIRECT] == Indirect(s, ino)
      modifies this`used, this`inodes, this`logged
      ensures ok && FreedTo(s, used, ino, MAXFILE + 1)
      ensures inodes == old(inodes)[ino := old(inodes)[ino].(addrs := old(inodes)[ino].addrs[NDIRECT := 0])]
    {
      var a := inodes[ino].addrs[NDIRECT];
      ok := true;
      if a == 0 {
        NoIndirect(s, used, ino);
        assert inodes[ino].addrs[NDIRECT := 0] == inodes[ino].addrs;
        return;
      }
      assert SlotOk(s, Direct(ino, NDIRECT)) && BlockOk(s, a);
      for j := 0 to NINDIRECT
        invariant ok && FreedTo(s, used, ino, NDIRECT + j) && inodes == old(inodes)
      {
        FreeNext(s, used, Leaf(ino, j));
        if ind[a][j] != 0 {
          ok := Bfree(ind[a][j]);
        }
      }
      FreeNext(s, used, Direct(ino, NDIRECT));
      ok := Bfree(a);
      inodes := inodes[ino := inodes[ino].(addrs := inodes[ino].addrs[NDIRECT := 0])];
    }

    /** itrunc: never panics, and frees exactly the blocks of the file. */
    method Itrunc(ino: nat) returns (ok: bool)
      requires Inv(S()) && ino < |inodes|
      modifies this
      ensures ok && S() == AfterTrunc(old(S()), ino) && Inv(S())
    {
      ghost var s := S();
      var _ := FreeDirect(ino);
      ok := FreeIndirect(s, ino);
      inodes := inodes[ino := inodes[ino].(size := 0)];
      logged := logged + {inodestart + ino / IPB};
      FreedAllIsTrunc(s, used, ino);
      owner := AfterTrunc(s, ino).owner;
      assert inodes[ino].addrs == seq(NDIRECT + 1, _ => 0);
      TruncKeepsInv(s, ino);
    }

    /**
     The inode branch of filewrite: chunks of at most three blocks, each its
     own transaction.  chunks tells what each of them did.
     */
    method FileWrite(ino: nat, off0: nat, src: seq<int>, fails: nat)
      returns (ret: int, off: nat, ghost chunks: seq<Chunk>)
      requires Inv(S()) && ino < |inodes|
      modifies this
      ensures Inv(S()) && |inodes| == old(|inodes|)
      ensures ret == |src| || ret == -1
      ensures off0 <= old(inodes)[ino].size ==>
        off0 <= off <= off0 + |src| && Written(old(S()), S(), ino, off0, src[..off - off0])
      ensures off0 <= old(inodes)[ino].size && ret != -1 ==> off == off0 + |src|
      ensures ret == -1 <==>
        src != [] && (Stuck(old(inodes)[ino].size, off0, |src|, fails) || Short(old(S()), ino, off0, |src|))
      ensures old(|used|) <= BPB ==> Small(chunks)
      ensures Chained(old(S()), chunks, S(), bmapstart, inodestart)
    {
      ghost var s := S();
      FileWriteStarts(s, ino, off0, src, bmapstart, inodestart);
      hide Inv, FileWriteAt, Chained, Stuck, Short, Written, Small;
      var i := 0;
      off, chunks := off0, [];
      while i < |src|
        invariant 0 <= i <= |src| && off == off0 + i
        invariant i > 0 ==> off0 <= s.inodes[ino].size && i <= fails
        invariant FileWriteAt(s, S(), chunks, ino, off0, src, i, bmapstart, inodestart)
      {
        var n1, r;
        n1, r, chunks := FileWriteChunk(s, chunks, ino, off0, src, i, fails);
        if r > 0 {
          off := off + r;
        }
        if r != n1 {
          FileWriteMeans(s, S(), chunks, ino, off0, src, off - off0, bmapstart, inodestart, fails);
          return -1, off, chunks;
        }
        i := i + r;
      }
      FileWriteMeans(s, S(), chunks, ino, off0, src, i, bmapstart, inodestart, fails);
      ret := if i == |src| then |src| else -1;
    }

    /** One turn of filewrite's loop: one transaction. */
    method FileWriteChunk(ghost s: State, ghost before: seq<Chunk>, ino: nat, off0: nat, src: seq<int>, i: nat,
        fails: nat)
      returns (n1: nat, r: int, ghost chunks: seq<Chunk>)
      requires FileWriteAt(s, S(), before, ino, off0, src, i, bmapstart, inodestart) && i < |src|
      modifies this
      ensures 0 < n1 && -1 <= r <= n1 <= |src| - i
      ensures r == n1 ==> off0 <= s.inodes[ino].size && i + n1 <= fails
      ensures FileWriteAt(s, S(), chunks, ino, off0, src, if r == -1 then i else i + r, bmapstart, inodestart)
      ensures r != n1 ==> Stuck(s.inodes[ino].size, off0, |src|, fails) || Short(s, ino, off0, |src|)
    {
      hide Inv, Chunked, FileWriteAt, ChunkAt, WriteiDid, Short;
      var max := ((RedoLog.MAXOPBLOCKS - 1 - 1 - 2) / 2) * BSIZE;
      n1 := if |src| - i > max then max else |src| - i;
      logged := {};
      ghost var t := S();
      FileWriteTurn(s, t, before, ino, off0, src, i, bmapstart, inodestart);
      var n := if fails > i then fails - i else 0;
      r := Writei(ino, off0 + i, src[i..i + n1], n);
      if r == -1 {
        ChunkRefused(s, t, ino, off0, src, i, n1, fails, bmapstart, inodestart);
      } else {
        ChunkWritten(s, t, S(), logged, ino, off0, src, i, n1, r, fails, bmapstart, inodestart);
      }
      FileWriteOn(s, t, S(), before, logged, ino, off0, src, i, n1, r, fails, bmapstart, inodestart);
      chunks := before + [Chunk(t, S(), logged)];
    }
  }
}
