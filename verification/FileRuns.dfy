/**
 Writers of different files at once, one log_write at a time, over the log
 protocol.  Each step is one section of balloc, bmap, writei or iupdate under
 the lock of one buffer, so the sections of several writers interleave, an
 operation can be anywhere when the machine stops, and the bitmap and inode
 blocks are shared.  In memory a block is allocated and linked in several
 steps; what recovery finds is a file system in which none of this is half
 done.
 */
module FileRuns {
  import opened RedoLog
  import opened Common
  import opened FileCrash
  import F = InodeBlocks
  import P = LogProtocol
  import LogSpace

  /** A block taken from the bitmap and not yet in a slot: by which operation, and once zeroed, for which slot. */
  datatype Hold = Hold(op: nat, slot: Option<F.Slot>)

  /**
   lin is the file system with the inodes as they are in memory and without the
   blocks in held.  inodes are the inodes as the buffers have them; they differ
   only at dirty ones.
   */
  datatype Files = Files(lin: F.State, inodes: seq<F.Inode>, ops: set<nat>, locks: map<nat, nat>, dirty: set<nat>,
                         held: map<nat, Hold>)

  /** ilock; the bit in balloc; bzero; storing the number in bmap; the copy in writei; iupdate; iunlock. */
  datatype Section =
    | Lock(ino: nat)
    | Mark(b: nat)
    | Zero(b: nat, sl: F.Slot)
    | Link(b: nat)
    | Patch(ino: nat, bn: nat, at: nat, src: seq<int>)
    | Iupdate(ino: nat, size: nat)
    | Unlock(ino: nat)

  /** What the buffers hold. */
  function Buffers(m: Files): F.State
    requires F.Shape(m.lin)
  {
    var n := |m.lin.used|;
    m.lin.(
      inodes := m.inodes,
      used := seq(n, b requires 0 <= b < n => m.lin.used[b] || b in m.held),
      owner := seq(n, b requires 0 <= b < n => if b in m.held then m.held[b].slot else m.lin.owner[b])
    )
  }

  ghost predicate HoldOk(m: Files, b: nat)
    requires F.Shape(m.lin) && b in m.held
  {
    var h := m.held[b];
    && m.lin.meta <= b < |m.lin.used| && !m.lin.used[b] && h.op in m.ops
    && (h.slot.Some? ==>
      && F.IsSlot(m.lin, h.slot.value) && h.slot.value.ino in m.locks && m.locks[h.slot.value.ino] == h.op
      && m.lin.data[b] == F.ZeroBytes() && m.lin.ind[b] == F.ZeroEntries())
  }

  ghost predicate Inv(m: Files) {
    && F.Inv(m.lin) && |m.inodes| == |m.lin.inodes|
    && (forall x :: 0 <= x < |m.inodes| && x !in m.dirty ==> m.inodes[x] == m.lin.inodes[x])
    && (forall x :: x in m.dirty ==> x in m.locks)
    && (forall x :: x in m.locks ==> m.locks[x] in m.ops)
    && (forall b: nat {:trigger HoldOk(m, b)} :: b in m.held ==> HoldOk(m, b))
  }

  ghost predicate Can(m: Files, o: nat, e: Section)
    requires Inv(m)
  {
    o in m.ops &&
    match e
    case Lock(x) => x < |m.inodes| && x !in m.locks
    case Mark(b) => b < |m.lin.used| && !Buffers(m).used[b]
    case Zero(b, sl) =>
      && b in m.held && m.held[b] == Hold(o, None) && F.IsSlot(m.lin, sl) && sl.ino in m.locks && m.locks[sl.ino] == o
    case Link(b) =>
      && b in m.held && HoldOk(m, b) && m.held[b].op == o && m.held[b].slot.Some?
      && var sl := m.held[b].slot.value;
      F.At(m.lin, sl) == 0 && (sl.Leaf? ==> 0 < F.Indirect(m.lin, sl.ino) < |m.lin.ind|)
    case Patch(x, bn, at, src) =>
      && x in m.locks && m.locks[x] == o && x < |m.inodes| && bn < F.MAXFILE && at + |src| <= F.BSIZE
      && F.At(m.lin, F.SlotOf(x, bn)) != 0
    case Iupdate(x, size) => x in m.locks && m.locks[x] == o && F.MappedTo(m.lin, x, size)
    case Unlock(x) =>
      && x in m.locks && m.locks[x] == o && x !in m.dirty
      && forall b :: b in m.held && m.held[b].slot.Some? ==> m.held[b].slot.value.ino != x
  }

  ghost function Do(m: Files, o: nat, e: Section): Files
    requires Inv(m) && Can(m, o, e)
  {
    match e
    case Lock(x) => m.(locks := m.locks[x := o])
    case Mark(b) => m.(held := m.held[b := Hold(o, None)])
    case Zero(b, sl) =>
      assert HoldOk(m, b);
      m.(lin := m.lin.(data := m.lin.data[b := F.ZeroBytes()], ind := m.lin.ind[b := F.ZeroEntries()]),
         held := m.held[b := Hold(o, Some(sl))])
    case Link(b) =>
      assert HoldOk(m, b);
      var sl := m.held[b].slot.value;
      m.(lin := F.AfterAlloc(m.lin, sl, b), held := m.held - {b},
         dirty := if sl.Direct? then m.dirty + {sl.ino} else m.dirty)
    case Patch(x, bn, at, src) =>
      F.PatchBytes(m.lin, x, bn, at, src, x, 0);
      m.(lin := F.AfterPatch(m.lin, F.At(m.lin, F.SlotOf(x, bn)), at, src))
    case Iupdate(x, size) =>
      var lin := F.WithSize(m.lin, x, size);
      m.(lin := lin, inodes := m.inodes[x := lin.inodes[x]], dirty := m.dirty - {x})
    case Unlock(x) => m.(locks := m.locks - {x})
  }

  /** The block the section passes to log_write, if any. */
  ghost function Logs(m: Files, y: Layout, e: Section): Option<nat>
    requires Inv(m)
  {
    match e
    case Lock(_) => None
    case Mark(b) => Some(y.bitmap + b / F.BPB)
    case Zero(b, _) => Some(b)
    case Link(b) =>
      if b in m.held && m.held[b].slot.Some? && m.held[b].slot.value.Leaf? &&
        m.held[b].slot.value.ino < |m.lin.inodes|
      then Some(F.Indirect(m.lin, m.held[b].slot.value.ino)) else None
    case Patch(x, bn, _, _) =>
      if x < |m.lin.inodes| && bn < F.MAXFILE then Some(F.At(m.lin, F.SlotOf(x, bn))) else None
    case Iupdate(x, _) => Some(y.itable + x / F.IPB)
    case Unlock(_) => None
  }

  // ----- Every section keeps the invariant

  lemma ZeroKeepsInv(s: F.State, b: nat)
    requires F.Inv(s) && s.meta <= b < |s.used| && !s.used[b]
    ensures F.Inv(s.(data := s.data[b := F.ZeroBytes()], ind := s.ind[b := F.ZeroEntries()]))
  {
    var t := s.(data := s.data[b := F.ZeroBytes()], ind := s.ind[b := F.ZeroEntries()]);
    assert F.BlockOk(s, b);
    forall x: F.Slot | F.IsSlot(s, x) ensures F.At(t, x) == F.At(s, x) {
      ZeroAt(s, b, x);
    }
    forall x: F.Slot ensures F.SlotOk(t, x) {
      assert F.SlotOk(s, x);
    }
    forall c: nat ensures F.BlockOk(t, c) {
      assert F.BlockOk(s, c);
    }
    forall ino: nat ensures F.FileOk(t, ino) {
      assert F.FileOk(s, ino);
      forall bn: nat | ino < |s.inodes| && bn * F.BSIZE < s.inodes[ino].size ensures F.At(t, F.SlotOf(ino, bn)) != 0 {
        assert F.At(s, F.SlotOf(ino, bn)) != 0;
      }
    }
  }

  /** A free block is no indirect block. */
  lemma ZeroAt(s: F.State, b: nat, x: F.Slot)
    requires F.Inv(s) && b < |s.used| && !s.used[b] && F.IsSlot(s, x)
    ensures F.At(s.(data := s.data[b := F.ZeroBytes()], ind := s.ind[b := F.ZeroEntries()]), x) == F.At(s, x)
  {
    assert F.SlotOk(s, F.Direct(x.ino, F.NDIRECT)) && F.BlockOk(s, F.Indirect(s, x.ino));
  }

  /** A held block is another writer's business: its data stays free and zeroed. */
  lemma HeldStaysHeld(m: Files, n: Files, b: nat)
    requires F.Shape(m.lin) && F.Shape(n.lin) && b in m.held && HoldOk(m, b) && b in n.held && n.held[b] == m.held[b]
    requires n.lin.meta == m.lin.meta && |n.lin.used| == |m.lin.used| && n.lin.used[b] == m.lin.used[b]
    requires n.lin.data[b] == m.lin.data[b] && n.lin.ind[b] == m.lin.ind[b]
    requires |n.lin.inodes| == |m.lin.inodes| && n.ops == m.ops
    requires m.held[b].slot.Some? ==>
      var x := m.held[b].slot.value.ino; x in m.locks ==> x in n.locks && n.locks[x] == m.locks[x]
    ensures HoldOk(n, b)
  {
  }

  lemma MarkKeepsInv(m: Files, o: nat, b: nat)
    requires Inv(m) && Can(m, o, Mark(b))
    ensures Inv(Do(m, o, Mark(b)))
  {
    var n := Do(m, o, Mark(b));
    assert F.BlockOk(m.lin, b);
    forall c: nat | c in n.held ensures HoldOk(n, c) {
      if c != b {
        HeldStaysHeld(m, n, c);
      }
    }
  }

  lemma ZeroingKeepsInv(m: Files, o: nat, b: nat, sl: F.Slot)
    requires Inv(m) && Can(m, o, Zero(b, sl))
    ensures Inv(Do(m, o, Zero(b, sl)))
  {
    var n := Do(m, o, Zero(b, sl));
    assert HoldOk(m, b);
    ZeroKeepsInv(m.lin, b);
    forall c: nat | c in n.held ensures HoldOk(n, c) {
      if c != b {
        HeldStaysHeld(m, n, c);
      }
    }
  }

  lemma LinkKeepsInv(m: Files, o: nat, b: nat)
    requires Inv(m) && Can(m, o, Link(b))
    ensures Inv(Do(m, o, Link(b)))
  {
    var n, sl := Do(m, o, Link(b)), m.held[b].slot.value;
    F.AllocIsGood(m.lin, sl, b);
    forall c: nat | c in n.held ensures HoldOk(n, c) {
      assert HoldOk(m, c);
      LinkLeavesFree(m.lin, sl, b, c);
      HeldStaysHeld(m, n, c);
    }
  }

  /** Storing one block's number leaves other free blocks alone. */
  lemma LinkLeavesFree(s: F.State, sl: F.Slot, b: nat, c: nat)
    requires F.Inv(s) && F.IsSlot(s, sl) && s.meta <= b < |s.used| && c < |s.used| && !s.used[c] && c != b
    requires sl.Leaf? ==> 0 < F.Indirect(s, sl.ino) < |s.ind|
    ensures var t := F.AfterAlloc(s, sl, b); t.data[c] == s.data[c] && t.ind[c] == s.ind[c] && !t.used[c]
  {
    if sl.Leaf? {
      assert F.SlotOk(s, F.Direct(sl.ino, F.NDIRECT)) && F.BlockOk(s, F.Indirect(s, sl.ino));
    }
  }

  lemma PatchingKeepsInv(m: Files, o: nat, x: nat, bn: nat, at: nat, src: seq<int>)
    requires Inv(m) && Can(m, o, Patch(x, bn, at, src))
    ensures Inv(Do(m, o, Patch(x, bn, at, src)))
  {
    var n, b := Do(m, o, Patch(x, bn, at, src)), F.At(m.lin, F.SlotOf(x, bn));
    F.PatchBytes(m.lin, x, bn, at, src, x, 0);
    F.PatchKeepsInv(m.lin, b, at, src);
    assert F.SlotOk(m.lin, F.SlotOf(x, bn)) && F.BlockOk(m.lin, b);
    forall c: nat | c in n.held ensures HoldOk(n, c) {
      assert HoldOk(m, c);
      HeldStaysHeld(m, n, c);
    }
  }

  lemma IupdateKeepsInv(m: Files, o: nat, x: nat, size: nat)
    requires Inv(m) && Can(m, o, Iupdate(x, size))
    ensures Inv(Do(m, o, Iupdate(x, size)))
  {
    var n := Do(m, o, Iupdate(x, size));
    F.SizeKeepsInv(m.lin, x, size);
    forall c: nat | c in n.held ensures HoldOk(n, c) {
      HeldStaysHeld(m, n, c);
    }
  }

  lemma LocksKeepInv(m: Files, o: nat, e: Section)
    requires Inv(m) && Can(m, o, e) && (e.Lock? || e.Unlock?)
    ensures Inv(Do(m, o, e))
  {
    var n := Do(m, o, e);
    forall c: nat | c in n.held ensures HoldOk(n, c) {
      assert HoldOk(m, c);
    }
  }

  lemma SectionKeepsInv(m: Files, o: nat, e: Section)
    requires Inv(m) && Can(m, o, e)
    ensures Inv(Do(m, o, e)) && Do(m, o, e).ops == m.ops
  {
    match e
    case Mark(b) => MarkKeepsInv(m, o, b);
    case Zero(b, sl) => ZeroingKeepsInv(m, o, b, sl);
    case Link(b) => LinkKeepsInv(m, o, b);
    case Patch(x, bn, at, src) => PatchingKeepsInv(m, o, x, bn, at, src);
    case Iupdate(x, size) => IupdateKeepsInv(m, o, x, size);
    case _ => LocksKeepInv(m, o, e);
  }

  // ----- What a section does to the files

  /** Only the copy in writei changes bytes, those of the file its operation has locked, and only iupdate a size. */
  lemma SectionBytes(m: Files, o: nat, e: Section, x: nat, i: nat)
    requires Inv(m) && Can(m, o, e) && x < |m.inodes|
    ensures F.Shape(Do(m, o, e).lin) && |Do(m, o, e).lin.inodes| == |m.inodes|
    ensures F.ByteAt(Do(m, o, e).lin, x, i) ==
      if e.Patch? && e.ino == x && i / F.BSIZE == e.bn && e.at <= i % F.BSIZE < e.at + |e.src|
      then e.src[i % F.BSIZE - e.at] else F.ByteAt(m.lin, x, i)
    ensures Do(m, o, e).lin.inodes[x].size == if e.Iupdate? && e.ino == x then e.size else m.lin.inodes[x].size
    ensures (e.Patch? || e.Iupdate?) ==> e.ino in m.locks && m.locks[e.ino] == o
  {
    SectionKeepsInv(m, o, e);
    match e
    case Zero(b, sl) =>
      assert HoldOk(m, b);
      ZeroByte(m.lin, b, x, i);
    case Link(b) => F.AllocIsGood(m.lin, m.held[b].slot.value, b);
    case Patch(z, bn, at, src) => F.PatchBytes(m.lin, z, bn, at, src, x, i);
    case Iupdate(z, size) => F.SizeKeepsInv(m.lin, z, size);
    case _ =>
  }

  lemma ZeroByte(s: F.State, b: nat, x: nat, i: nat)
    requires F.Inv(s) && s.meta <= b < |s.used| && !s.used[b] && x < |s.inodes|
    ensures F.ByteAt(s.(data := s.data[b := F.ZeroBytes()], ind := s.ind[b := F.ZeroEntries()]), x, i) ==
      F.ByteAt(s, x, i)
  {
    var sl := F.SlotOf(x, i / F.BSIZE);
    if F.IsSlot(s, sl) {
      ZeroAt(s, b, sl);
      assert F.SlotOk(s, sl) && F.BlockOk(s, F.At(s, sl));
    }
  }

  // ----- A section changes no block but the one it logs

  ghost function Just(b: Option<nat>): set<nat> {
    if b.Some? then {b.value} else {}
  }

  lemma SectionCovered(m: Files, o: nat, e: Section, y: Layout)
    requires Inv(m) && Can(m, o, e)
    ensures F.Shape(Do(m, o, e).lin)
    ensures F.Covered(Buffers(m), Buffers(Do(m, o, e)), Just(Logs(m, y, e)), y.bitmap, y.itable)
  {
    SectionKeepsInv(m, o, e);
    var s, t, l := Buffers(m), Buffers(Do(m, o, e)), Just(Logs(m, y, e));
    SectionSame(m, o, e, y, 0);
    forall b: nat ensures F.BlockSame(s, t, l, b) && F.BitSame(s, t, l, y.bitmap, b) {
      SectionSame(m, o, e, y, b);
    }
  }

  ghost predicate SameBut(s: F.State, t: F.State, l: set<nat>, bitmap: nat, c: nat) {
    F.SameShape(s, t) && F.BlockSame(s, t, l, c) && F.BitSame(s, t, l, bitmap, c)
  }

  lemma SectionSame(m: Files, o: nat, e: Section, y: Layout, c: nat)
    requires Inv(m) && Can(m, o, e) && F.Shape(Do(m, o, e).lin)
    ensures SameBut(Buffers(m), Buffers(Do(m, o, e)), Just(Logs(m, y, e)), y.bitmap, c)
  {
    match e
    case Mark(b) => MarkSame(m, o, b, y, c);
    case Zero(b, sl) => ZeroSame(m, o, b, sl, y, c);
    case Link(b) => LinkSame(m, o, b, y, c);
    case Patch(x, bn, at, src) => F.PatchBytes(m.lin, x, bn, at, src, x, 0);
    case _ =>
  }

  lemma MarkSame(m: Files, o: nat, b: nat, y: Layout, c: nat)
    requires Inv(m) && Can(m, o, Mark(b))
    ensures SameBut(Buffers(m), Buffers(Do(m, o, Mark(b))), Just(Logs(m, y, Mark(b))), y.bitmap, c)
  {
    MarkSetsBit(m, o, b);
    OneBitSame(Buffers(m), Buffers(Do(m, o, Mark(b))), Just(Logs(m, y, Mark(b))), y.bitmap, b, c);
  }

  lemma MarkSetsBit(m: Files, o: nat, b: nat)
    requires Inv(m) && Can(m, o, Mark(b))
    ensures b < |Buffers(m).used|
    ensures Buffers(Do(m, o, Mark(b))) == Buffers(m).(used := Buffers(m).used[b := true])
  {
    assert F.BlockOk(m.lin, b);
    var s, t := Buffers(m), Buffers(Do(m, o, Mark(b)));
    assert b !in m.held && m.lin.owner[b].None?;
    assert t.used == s.used[b := true] && t.owner == s.owner;
  }

  lemma OneBitSame(s: F.State, t: F.State, l: set<nat>, bitmap: nat, b: nat, c: nat)
    requires |s.data| == |s.ind| == |s.owner| && b < |s.used| && t == s.(used := s.used[b := true])
    requires bitmap + b / F.BPB in l
    ensures SameBut(s, t, l, bitmap, c)
  {
  }

  lemma ZeroSame(m: Files, o: nat, b: nat, sl: F.Slot, y: Layout, c: nat)
    requires Inv(m) && Can(m, o, Zero(b, sl)) && F.Shape(Do(m, o, Zero(b, sl)).lin)
    ensures SameBut(Buffers(m), Buffers(Do(m, o, Zero(b, sl))), Just(Logs(m, y, Zero(b, sl))), y.bitmap, c)
  {
    assert HoldOk(m, b);
  }

  lemma LinkSame(m: Files, o: nat, b: nat, y: Layout, c: nat)
    requires Inv(m) && Can(m, o, Link(b)) && F.Shape(Do(m, o, Link(b)).lin)
    ensures SameBut(Buffers(m), Buffers(Do(m, o, Link(b))), Just(Logs(m, y, Link(b))), y.bitmap, c)
  {
    var sl := m.held[b].slot.value;
    if sl.Leaf? {
      assert F.SlotOk(m.lin, F.Direct(sl.ino, F.NDIRECT)) && F.BlockOk(m.lin, F.Indirect(m.lin, sl.ino));
    }
  }

  // ----- With the log, commits and crashes

  /** safe is the file system as of the last commit point. */
  datatype World = World(p: P.State, m: Files, safe: F.State)

  datatype Event = Log(call: P.Event) | File(k: nat, section: Section)

  /** The section k's operation does, as the log sees it: its block with its new contents. */
  ghost function Call(y: Layout, ser: Encoding, w: World, k: nat, e: Section): P.Event
    requires Inv(w.m) && k < |w.p.mem.ops| && Can(w.m, w.p.mem.ops[k].id, e) && Logs(w.m, y, e).Some?
  {
    SectionKeepsInv(w.m, w.p.mem.ops[k].id, e);
    var b := Logs(w.m, y, e).value;
    P.LogWrite(k, b, ser(b, ImageOf(Buffers(Do(w.m, w.p.mem.ops[k].id, e)), y, b)))
  }

  /** end_op comes after iunlock, and every block taken has got its slot. */
  ghost predicate Finished(m: Files, o: nat) {
    (forall x :: x in m.locks ==> m.locks[x] != o) && forall b :: b in m.held ==> m.held[b].op != o
  }

  ghost predicate Enabled(g: Geometry, y: Layout, ser: Encoding, w: World, e: Event)
    requires Inv(w.m)
  {
    match e
    case Log(d) =>
      P.Enabled(g, w.p, d) && !d.LogWrite? && (d.EndOp? ==> Finished(w.m, w.p.mem.ops[d.op].id))
    case File(k, f) =>
      && w.p.mode == P.Running && k < |w.p.mem.ops| && Can(w.m, w.p.mem.ops[k].id, f)
      && (Logs(w.m, y, f).Some? ==> P.Enabled(g, w.p, Call(y, ser, w, k, f)))
  }

  /** Mounted, with nothing under way. */
  function Fresh(s: F.State): Files {
    Files(s, s.inodes, {}, map[], {}, map[])
  }

  ghost function Step(g: Geometry, y: Layout, ser: Encoding, w: World, e: Event): World
    requires Inv(w.m) && Enabled(g, y, ser, w, e)
  {
    match e
    case File(k, f) =>
      var m := Do(w.m, w.p.mem.ops[k].id, f);
      if Logs(w.m, y, f).Some? then w.(p := P.Step(g, w.p, Call(y, ser, w, k, f)), m := m) else w.(m := m)
    case Log(d) =>
      var p := P.Step(g, w.p, d);
      match d
      case BeginOp => w.(p := p, m := w.m.(ops := w.m.ops + {w.p.newId}))
      case EndOp(k) => w.(p := p, m := w.m.(ops := w.m.ops - {w.p.mem.ops[k].id}))
      case DiskWrite => w.(p := p, safe := if P.IsCommitPoint(w.p) then Buffers(w.m) else w.safe)
      case Crash => w.(p := p, m := Fresh(w.safe))
      case _ => w.(p := p)
  }

  /** Whoever is under way in memory is so in the log. */
  ghost predicate SameOps(m: Files, p: P.State) {
    forall o :: o in m.ops ==> exists k :: 0 <= k < |p.mem.ops| && p.mem.ops[k].id == o
  }

  ghost predicate WorldInv(g: Geometry, y: Layout, ser: Encoding, base: Disk, w: World) {
    && P.Inv(g, base, w.p) && Inv(w.m) && SameOps(w.m, w.p) && F.Inv(w.safe)
    && Holds(g, y, ser, w.safe, P.Replay(base, w.p.hist[..w.p.durable]))
    && Holds(g, y, ser, Buffers(w.m), P.Replay(base, w.p.hist))
    && (w.p.durable == |w.p.hist| ==> Buffers(w.m) == w.safe)
  }

  /** With nothing under way the buffers hold a whole file system. */
  lemma QuietIsWhole(m: Files)
    requires Inv(m) && m.ops == {}
    ensures Buffers(m) == m.lin && F.Inv(Buffers(m))
  {
    forall b: nat ensures b !in m.held {
      assert b in m.held ==> HoldOk(m, b);
    }
    assert m.dirty == {};
    assert m.inodes == m.lin.inodes;
    assert Buffers(m).used == m.lin.used && Buffers(m).owner == m.lin.owner;
  }

  lemma FreshIsWhole(s: F.State)
    requires F.Inv(s)
    ensures Inv(Fresh(s)) && Buffers(Fresh(s)) == s
  {
    QuietIsWhole(Fresh(s));
  }

  // ----- Every step keeps it

  /** A section that logs a block moves the history and the buffers on together. */
  lemma LoggedHolds(g: Geometry, y: Layout, ser: Encoding, s: F.State, t: F.State, b: nat, u: P.Update, d: Disk)
    requires F.Covered(s, t, {b}, y.bitmap, y.itable) && u.block == b < g.blocks && u.data == ser(b, ImageOf(t, y, b))
    requires Holds(g, y, ser, s, d)
    ensures Holds(g, y, ser, t, d[b := u.data])
  {
    forall c: nat | g.Home(c) ensures d[b := u.data][c] == ser(c, ImageOf(t, y, c)) {
      if c != b {
        UnloggedIsSame(s, t, {b}, y, c);
        assert d[c] == ser(c, ImageOf(s, y, c));
      }
    }
  }

  /** A section that logs none leaves the buffers as they are. */
  lemma SilentIsSame(m: Files, o: nat, e: Section, y: Layout)
    requires Inv(m) && Can(m, o, e) && Logs(m, y, e).None?
    ensures F.Shape(Do(m, o, e).lin) && Buffers(Do(m, o, e)) == Buffers(m)
  {
    SectionKeepsInv(m, o, e);
    var n := Do(m, o, e);
    if e.Link? {
      assert HoldOk(m, e.b);
      var sl := m.held[e.b].slot.value;
      assert Buffers(n).data == Buffers(m).data && Buffers(n).ind == Buffers(m).ind;
    }
    assert Buffers(n).used == Buffers(m).used && Buffers(n).owner == Buffers(m).owner;
  }

  lemma FileKeepsWorld(g: Geometry, y: Layout, ser: Encoding, base: Disk, w: World, k: nat, e: Section)
    requires WorldInv(g, y, ser, base, w) && Enabled(g, y, ser, w, File(k, e))
    ensures WorldInv(g, y, ser, base, Step(g, y, ser, w, File(k, e)))
  {
    var o := w.p.mem.ops[k].id;
    SectionKeepsInv(w.m, o, e);
    if Logs(w.m, y, e).None? {
      SilentIsSame(w.m, o, e, y);
    } else {
      LoggedKeepsWorld(g, y, ser, base, w, k, e);
    }
  }

  /** A step that appends one update, and changes that block of the buffers. */
  lemma MoveKeepsWorld(g: Geometry, y: Layout, ser: Encoding, base: Disk, w: World, v: World, b: nat, u: P.Update)
    requires WorldInv(g, y, ser, base, w) && P.Inv(g, base, v.p) && Inv(v.m) && SameOps(v.m, v.p) && v.safe == w.safe
    requires F.Covered(Buffers(w.m), Buffers(v.m), {b}, y.bitmap, y.itable)
    requires u.block == b < |base| == g.blocks && u.data == ser(b, ImageOf(Buffers(v.m), y, b))
    requires v.p.hist == w.p.hist + [u] && v.p.durable == w.p.durable <= |w.p.hist|
    ensures WorldInv(g, y, ser, base, v)
  {
    assert F.Shape(w.m.lin) && F.Shape(v.m.lin);
    hide F.Covered, F.Inv, Inv, P.Inv, Holds, P.Replay, SameOps;
    P.ReplayAppend(base, w.p.hist, u);
    LoggedHolds(g, y, ser, Buffers(w.m), Buffers(v.m), b, u, P.Replay(base, w.p.hist));
    assert v.p.hist[..v.p.durable] == w.p.hist[..w.p.durable];
  }

  lemma LoggedKeepsWorld(g: Geometry, y: Layout, ser: Encoding, base: Disk, w: World, k: nat, e: Section)
    requires WorldInv(g, y, ser, base, w) && Enabled(g, y, ser, w, File(k, e)) && Logs(w.m, y, e).Some?
    ensures WorldInv(g, y, ser, base, Step(g, y, ser, w, File(k, e)))
  {
    hide F.Covered, F.Inv, Inv, Can, Do, P.Inv, Holds, Buffers, P.Step, P.Replay, P.Enabled, ImageOf, Logs;
    var o, d := w.p.mem.ops[k].id, Call(y, ser, w, k, e);
    SectionKeepsInv(w.m, o, e);
    SectionCovered(w.m, o, e, y);
    P.StepKeepsInv(g, base, w.p, d);
    ProtocolFacts(g, base, w.p);
    CallFacts(g, w.p, k, d.block, d.data);
    MoveKeepsWorld(g, y, ser, base, w, Step(g, y, ser, w, File(k, e)), d.block, P.Update(o, d.block, d.data));
  }

  lemma CallFacts(g: Geometry, p: P.State, k: nat, b: int, v: Block)
    requires P.Enabled(g, p, P.LogWrite(k, b, v))
    ensures g.Home(b)
    ensures var q := P.Step(g, p, P.LogWrite(k, b, v));
      && q.hist == p.hist + [P.Update(p.mem.ops[k].id, b, v)] && q.durable == p.durable
      && |q.mem.ops| == |p.mem.ops| && forall j :: 0 <= j < |p.mem.ops| ==> q.mem.ops[j].id == p.mem.ops[j].id
  {
  }

  /** What the files need to know of the log. */
  lemma ProtocolFacts(g: Geometry, base: Disk, p: P.State)
    requires P.Inv(g, base, p)
    ensures p.durable <= |p.hist| && |base| == g.blocks
    ensures p.mode != P.Running ==> p.durable == |p.hist| && p.mem.ops == []
    ensures p.mode == P.Running && p.mem.committing ==> p.mem.ops == []
  {
  }

  lemma NoOps(m: Files, p: P.State)
    requires SameOps(m, p) && p.mem.ops == []
    ensures m.ops == {}
  {
  }

  /** A step of the log that leaves history, durable prefix and files alone. */
  lemma IdleKeepsWorld(g: Geometry, y: Layout, ser: Encoding, base: Disk, w: World, v: World)
    requires WorldInv(g, y, ser, base, w) && P.Inv(g, base, v.p)
    requires v.p.hist == w.p.hist && v.p.durable == w.p.durable && v.safe == w.safe
    requires v.m == w.m.(ops := v.m.ops) && Inv(v.m) && SameOps(v.m, v.p)
    ensures WorldInv(g, y, ser, base, v)
  {
    assert Buffers(v.m) == Buffers(w.m);
  }

  lemma OpsKeepInv(m: Files, ops: set<nat>)
    requires Inv(m)
    requires forall o :: o in m.ops && o !in ops ==> Finished(m, o)
    ensures Inv(m.(ops := ops))
  {
    var n := m.(ops := ops);
    forall b: nat | b in n.held ensures HoldOk(n, b) {
      assert HoldOk(m, b);
    }
  }

  lemma BeginKeepsWorld(g: Geometry, y: Layout, ser: Encoding, base: Disk, w: World)
    requires WorldInv(g, y, ser, base, w) && Enabled(g, y, ser, w, Log(P.BeginOp))
    ensures WorldInv(g, y, ser, base, Step(g, y, ser, w, Log(P.BeginOp)))
  {
    var v := Step(g, y, ser, w, Log(P.BeginOp));
    P.StepKeepsInv(g, base, w.p, P.BeginOp);
    OpsKeepInv(w.m, v.m.ops);
    assert SameOps(v.m, v.p) by {
      assert v.p.mem.ops == w.p.mem.ops + [LogSpace.Op(w.p.newId, {}, 0)];
      assert v.p.mem.ops[|w.p.mem.ops|].id == w.p.newId;
      assert forall k :: 0 <= k < |w.p.mem.ops| ==> v.p.mem.ops[k] == w.p.mem.ops[k];
    }
    hide P.Inv, Inv, Holds, SameOps, P.Replay;
    IdleKeepsWorld(g, y, ser, base, w, v);
  }

  lemma EndKeepsWorld(g: Geometry, y: Layout, ser: Encoding, base: Disk, w: World, k: nat)
    requires WorldInv(g, y, ser, base, w) && Enabled(g, y, ser, w, Log(P.EndOp(k)))
    ensures WorldInv(g, y, ser, base, Step(g, y, ser, w, Log(P.EndOp(k))))
  {
    var v := Step(g, y, ser, w, Log(P.EndOp(k)));
    P.StepKeepsInv(g, base, w.p, P.EndOp(k));
    OpsKeepInv(w.m, v.m.ops);
    EndSameOps(w.m, v.m, w.p, v.p, k);
    hide P.Inv, Inv, Holds, SameOps, P.Replay;
    IdleKeepsWorld(g, y, ser, base, w, v);
  }

  lemma EndSameOps(m: Files, n: Files, p: P.State, q: P.State, k: nat)
    requires SameOps(m, p) && k < |p.mem.ops| && n.ops == m.ops - {p.mem.ops[k].id}
    requires q.mem.ops == p.mem.ops[..k] + p.mem.ops[k + 1..]
    ensures SameOps(n, q)
  {
    forall o | o in n.ops ensures exists j :: 0 <= j < |q.mem.ops| && q.mem.ops[j].id == o {
      var i :| 0 <= i < |p.mem.ops| && p.mem.ops[i].id == o;
      assert q.mem.ops[if i < k then i else i - 1].id == o;
    }
  }

  lemma WriteKeepsWorld(g: Geometry, y: Layout, ser: Encoding, base: Disk, w: World)
    requires WorldInv(g, y, ser, base, w) && Enabled(g, y, ser, w, Log(P.DiskWrite))
    ensures WorldInv(g, y, ser, base, Step(g, y, ser, w, Log(P.DiskWrite)))
  {
    var v := Step(g, y, ser, w, Log(P.DiskWrite));
    P.StepKeepsInv(g, base, w.p, P.DiskWrite);
    ProtocolFacts(g, base, w.p);
    assert v.p.mem == w.p.mem && v.p.hist == w.p.hist;
    hide P.Inv, Inv, Holds, P.Replay, Buffers, F.Inv;
    if P.IsCommitPoint(w.p) {
      CommitKeepsWorld(g, y, ser, base, w, v);
    } else {
      IdleKeepsWorld(g, y, ser, base, w, v);
    }
  }

  /** The commit point: with nothing under way, what the buffers hold becomes what recovery finds. */
  lemma CommitKeepsWorld(g: Geometry, y: Layout, ser: Encoding, base: Disk, w: World, v: World)
    requires WorldInv(g, y, ser, base, w) && P.Inv(g, base, v.p) && w.p.mem.ops == [] && v.p.mem == w.p.mem
    requires v.p.hist == w.p.hist && v.p.durable == |w.p.hist| && v.m == w.m && v.safe == Buffers(w.m)
    ensures WorldInv(g, y, ser, base, v)
  {
    NoOps(w.m, w.p);
    QuietIsWhole(w.m);
    hide P.Inv, Inv, Holds, P.Replay, Buffers, F.Inv;
    assert w.p.hist[..|w.p.hist|] == w.p.hist;
  }

  lemma CrashKeepsWorld(g: Geometry, y: Layout, ser: Encoding, base: Disk, w: World)
    requires WorldInv(g, y, ser, base, w) && Enabled(g, y, ser, w, Log(P.Crash))
    ensures WorldInv(g, y, ser, base, Step(g, y, ser, w, Log(P.Crash)))
  {
    P.StepKeepsInv(g, base, w.p, P.Crash);
    FreshIsWhole(w.safe);
    hide P.Inv, Inv, Holds, P.Replay, Buffers, F.Inv;
    assert w.p.hist[..w.p.durable][..w.p.durable] == w.p.hist[..w.p.durable];
  }

  lemma RestKeepsWorld(g: Geometry, y: Layout, ser: Encoding, base: Disk, w: World, d: P.Event)
    requires WorldInv(g, y, ser, base, w) && Enabled(g, y, ser, w, Log(d))
    requires d.CommitDone? || d.StartRecovery? || d.RecoveryDone?
    ensures WorldInv(g, y, ser, base, Step(g, y, ser, w, Log(d)))
  {
    P.StepKeepsInv(g, base, w.p, d);
    hide P.Inv, Inv, Holds, P.Replay;
    IdleKeepsWorld(g, y, ser, base, w, Step(g, y, ser, w, Log(d)));
  }

  lemma LogKeepsWorld(g: Geometry, y: Layout, ser: Encoding, base: Disk, w: World, d: P.Event)
    requires WorldInv(g, y, ser, base, w) && Enabled(g, y, ser, w, Log(d))
    ensures WorldInv(g, y, ser, base, Step(g, y, ser, w, Log(d)))
  {
    match d
    case BeginOp => BeginKeepsWorld(g, y, ser, base, w);
    case EndOp(k) => EndKeepsWorld(g, y, ser, base, w, k);
    case DiskWrite => WriteKeepsWorld(g, y, ser, base, w);
    case Crash => CrashKeepsWorld(g, y, ser, base, w);
    case CommitDone => RestKeepsWorld(g, y, ser, base, w, d);
    case StartRecovery => RestKeepsWorld(g, y, ser, base, w, d);
    case RecoveryDone => RestKeepsWorld(g, y, ser, base, w, d);
  }

  lemma StepKeepsWorld(g: Geometry, y: Layout, ser: Encoding, base: Disk, w: World, e: Event)
    requires WorldInv(g, y, ser, base, w) && Enabled(g, y, ser, w, e)
    ensures WorldInv(g, y, ser, base, Step(g, y, ser, w, e))
  {
    hide WorldInv, Step;
    match e
    case Log(d) => LogKeepsWorld(g, y, ser, base, w, d);
    case File(k, f) => FileKeepsWorld(g, y, ser, base, w, k, f);
  }

  // ----- Runs

  lemma QuietIsDurable(g: Geometry, base: Disk, p: P.State)
    requires P.Inv(g, base, p) && p.mode == P.Running && p.mem.ops == [] && !p.mem.committing
    ensures p.durable == |p.hist|
  {
  }

  /** A run: the states passed through and the steps between them.  Steps are defined where Inv holds, which it does
      throughout. */
  ghost predicate IsRun(g: Geometry, y: Layout, ser: Encoding, d: Disk, s: F.State, ws: seq<World>, es: seq<Event>) {
    && |ws| == |es| + 1 && ws[0] == World(P.PowerOn(d), Fresh(s), s)
    && forall i :: 0 <= i < |es| && Inv(ws[i].m) ==>
      Enabled(g, y, ser, ws[i], es[i]) && ws[i + 1] == Step(g, y, ser, ws[i], es[i])
  }

  lemma {:induction false} RunKeepsWorld(g: Geometry, y: Layout, ser: Encoding, d: Disk, s: F.State, ws: seq<World>,
      es: seq<Event>, i: nat)
    requires Readable(g, d) && F.Inv(s) && Holds(g, y, ser, s, Recover(g, d))
    requires IsRun(g, y, ser, d, s, ws, es) && i < |ws|
    ensures WorldInv(g, y, ser, Recover(g, d), ws[i])
  {
    hide WorldInv, Step, Enabled, Inv, F.Inv, Holds, Readable;
    if i == 0 {
      RunStarts(g, y, ser, d, s);
    } else {
      RunKeepsWorld(g, y, ser, d, s, ws, es, i - 1);
      WorldHasInv(g, y, ser, Recover(g, d), ws[i - 1]);
      StepKeepsWorld(g, y, ser, Recover(g, d), ws[i - 1], es[i - 1]);
    }
  }

  lemma WorldHasInv(g: Geometry, y: Layout, ser: Encoding, base: Disk, w: World)
    requires WorldInv(g, y, ser, base, w)
    ensures Inv(w.m)
  {
  }

  lemma RunStarts(g: Geometry, y: Layout, ser: Encoding, d: Disk, s: F.State)
    requires Readable(g, d) && F.Inv(s) && Holds(g, y, ser, s, Recover(g, d))
    ensures WorldInv(g, y, ser, Recover(g, d), World(P.PowerOn(d), Fresh(s), s))
  {
    P.PowerOnHasInv(g, d);
    FreshIsWhole(s);
    assert P.Replay(Recover(g, d), []) == Recover(g, d);
    hide P.Inv, Inv, F.Inv, Holds, Buffers, P.Replay;
  }

  /**
   Any number of writers, their sections in any order, and the machine may stop
   at any point, any number of times: the recovery that completes leaves the
   disk holding a file system in which every block in use is in exactly one
   slot and every file has its blocks, namely the one the buffers held at the
   last commit, when no operation was under way.  And once everybody has ended
   and the commit is over, that is what the buffers hold.
   */
  lemma FilesSurviveTogether(g: Geometry, y: Layout, ser: Encoding, d: Disk, s: F.State, ws: seq<World>,
      es: seq<Event>, i: nat, ks: seq<nat>)
    requires Readable(g, d) && F.Inv(s) && Holds(g, y, ser, s, Recover(g, d))
    requires IsRun(g, y, ser, d, s, ws, es) && i < |ws|
    ensures Readable(g, ws[i].p.disk) && F.Inv(ws[i].safe)
    ensures Holds(g, y, ser, ws[i].safe, Recover(g, CutShort(g, ws[i].p.disk, ks)))
    ensures Inv(ws[i].m) && (ws[i].p.mode == P.Running && ws[i].p.mem.ops == [] && !ws[i].p.mem.committing ==>
      Buffers(ws[i].m) == ws[i].safe)
  {
    RunKeepsWorld(g, y, ser, d, s, ws, es, i);
    var p, base := ws[i].p, Recover(g, d);
    P.RecoversDurable(g, base, p, ks);
    if p.mode == P.Running && p.mem.ops == [] && !p.mem.committing {
      QuietIsDurable(g, base, p);
    }
    hide P.Inv, Holds, P.Replay, P.SameHome;
    SameHomeHolds(g, y, ser, ws[i].safe, Recover(g, CutShort(g, p.disk, ks)), P.Replay(base, p.hist[..p.durable]));
  }
}
