/**
 File operations and crashes together: the transactions InodeBlocks describes,
 logged by LogProtocol.  However often the machine stops, recovery finds the
 file system as it was between two transactions.
 */
module FileCrash {
  import opened RedoLog
  import opened Common
  import F = InodeBlocks
  import P = LogProtocol

  /** What a block of the file system holds. */
  datatype Image =
    | Bytes(bytes: seq<int>)
    | Entries(entries: seq<nat>)
    | Bits(bits: seq<bool>)
    | Inodes(inodes: seq<F.Inode>)

  /** How the image of a block is written down in it. */
  type Encoding = (nat, Image) -> Block

  /** Inode blocks, bitmap blocks, and from the first data block on what the inodes hold. */
  datatype Layout = Layout(itable: nat, bitmap: nat)

  function Least(a: nat, b: nat): nat {
    if a < b then a else b
  }

  /** Part k of s in parts of n. */
  function Part<T>(s: seq<T>, k: nat, n: nat): seq<T> {
    s[Least(k * n, |s|)..Least(k * n + n, |s|)]
  }

  /** A block is one of numbers when it is the indirect block of an inode. */
  predicate IsIndirect(s: F.State, b: nat)
    requires b < |s.owner|
  {
    s.owner[b].Some? && s.owner[b].value.Direct? && s.owner[b].value.k == F.NDIRECT
  }

  function ImageOf(s: F.State, y: Layout, b: nat): Image {
    if b >= s.meta then
      if b >= |s.owner| || b >= |s.ind| || b >= |s.data| then Bytes([])
      else if IsIndirect(s, b) then Entries(s.ind[b]) else Bytes(s.data[b])
    else if b >= y.bitmap then Bits(Part(s.used, b - y.bitmap, F.BPB))
    else if b >= y.itable then Inodes(Part(s.inodes, b - y.itable, F.IPB))
    else Bytes([])
  }

  lemma SamePart<T>(s: seq<T>, t: seq<T>, k: nat, n: nat)
    requires |s| == |t| && (n == F.BPB || n == F.IPB) && forall x :: 0 <= x < |s| && x / n == k ==> t[x] == s[x]
    ensures Part(t, k, n) == Part(s, k, n)
  {
    var lo := Least(k * n, |s|);
    forall j | 0 <= j < |Part(s, k, n)| ensures Part(t, k, n)[j] == Part(s, k, n)[j] {
      if n == F.BPB {
        assert (lo + j) / F.BPB == k;
      } else {
        assert (lo + j) / F.IPB == k;
      }
    }
  }

  /** A block that was not logged holds what it held. */
  lemma UnloggedIsSame(s: F.State, t: F.State, l: set<nat>, y: Layout, b: nat)
    requires F.Covered(s, t, l, y.bitmap, y.itable) && b !in l
    ensures ImageOf(t, y, b) == ImageOf(s, y, b)
  {
    if b >= s.meta {
      assert F.BlockSame(s, t, l, b);
    } else if b >= y.bitmap {
      forall x | 0 <= x < |s.used| && x / F.BPB == b - y.bitmap ensures t.used[x] == s.used[x] {
        assert F.BitSame(s, t, l, y.bitmap, x);
      }
      SamePart(s.used, t.used, b - y.bitmap, F.BPB);
    } else if b >= y.itable {
      SamePart(s.inodes, t.inodes, b - y.itable, F.IPB);
    }
  }

  /**
   The home blocks of disk d hold the file system s, written down by ser.  What
   ser makes of an image may depend on the block: the boot block, the
   superblock, and the types and link counts in an inode block are the same
   whatever the files hold.
   */
  ghost predicate Holds(g: Geometry, y: Layout, ser: Encoding, s: F.State, d: Disk) {
    |d| == g.blocks && forall b: nat {:trigger ImageOf(s, y, b)} :: g.Home(b) ==> d[b] == ser(b, ImageOf(s, y, b))
  }

  /** What mkfs leaves: any boot block and superblock, and every other home block as enc writes its image down. */
  lemma MkfsDiskHolds(g: Geometry, y: Layout, enc: Image -> Block, s: F.State, boot: Block, super: Block)
    returns (ser: Encoding, d: Disk)
    requires g.start >= 2
    ensures Holds(g, y, ser, s, d)
    ensures g.blocks >= 2 ==> d[0] == boot && d[1] == super
    ensures forall b: nat :: g.Home(b) && b >= 2 ==> d[b] == enc(ImageOf(s, y, b))
  {
    ser := (b, image) => if b == 0 then boot else if b == 1 then super else enc(image);
    d := seq(g.blocks, b requires 0 <= b < g.blocks => ser(b, ImageOf(s, y, b)));
  }

  lemma SameHomeHolds(g: Geometry, y: Layout, ser: Encoding, s: F.State, d: Disk, e: Disk)
    requires P.SameHome(g, d, e) && Holds(g, y, ser, s, e)
    ensures Holds(g, y, ser, s, d)
  {
    forall b: nat | g.Home(b) ensures d[b] == ser(b, ImageOf(s, y, b)) {
      assert e[b] == ser(b, ImageOf(s, y, b));
    }
  }

  // ----- Transactions

  /** The last contents logged for block b. */
  function LastOf(us: seq<P.Update>, b: int): Option<Block> {
    if us == [] then None
    else
      var u := us[|us| - 1];
      if u.block == b then Some(u.data) else LastOf(us[..|us| - 1], b)
  }

  lemma {:induction false} ReplayIsLast(base: Disk, us: seq<P.Update>, b: nat)
    requires b < |base|
    ensures P.Replay(base, us)[b] == if LastOf(us, b).Some? then LastOf(us, b).value else base[b]
  {
    if us != [] {
      ReplayIsLast(base, us[..|us| - 1], b);
    }
  }

  lemma {:induction false} LastOfListed(us: seq<P.Update>, b: int)
    requires LastOf(us, b).Some?
    ensures exists i :: 0 <= i < |us| && us[i].block == b
  {
    if us[|us| - 1].block != b {
      LastOfListed(us[..|us| - 1], b);
      var i :| 0 <= i < |us[..|us| - 1]| && us[..|us| - 1][i].block == b;
      assert us[i].block == b;
    }
  }

  /** One operation's log_write calls. */
  datatype Calls = Calls(op: nat, updates: seq<P.Update>)

  /** The calls are for the blocks the chunk logs, each at last with its final contents. */
  ghost predicate Logs(y: Layout, ser: Encoding, c: F.Chunk, x: Calls) {
    && (forall i :: 0 <= i < |x.updates| ==> x.updates[i].op == x.op && x.updates[i].block in c.logged)
    && (forall b :: b in c.logged ==> LastOf(x.updates, b) == Some(ser(b, ImageOf(c.after, y, b))))
  }

  /** Every chunk is an operation of its own. */
  ghost predicate LogsAll(y: Layout, ser: Encoding, cs: seq<F.Chunk>, xs: seq<Calls>) {
    && |xs| == |cs|
    && (forall k :: 0 <= k < |xs| ==> Logs(y, ser, cs[k], xs[k]))
    && (forall j, k :: 0 <= j < k < |xs| ==> xs[j].op != xs[k].op)
  }

  /** All log_write calls of the first k operations, in order. */
  function HistOf(xs: seq<Calls>, k: nat): seq<P.Update>
    requires k <= |xs|
  {
    if k == 0 then [] else HistOf(xs, k - 1) + xs[k - 1].updates
  }

  lemma {:induction false} ReplayOn(base: Disk, h: seq<P.Update>, us: seq<P.Update>)
    ensures P.Replay(base, h + us) == P.Replay(P.Replay(base, h), us)
  {
    if us == [] {
      assert h + us == h;
    } else {
      ReplayOn(base, h, us[..|us| - 1]);
      assert (h + us)[..|h + us| - 1] == h + us[..|us| - 1];
    }
  }

  /** Replaying an operation's updates turns the disk before it into the disk after it. */
  lemma ChunkReplays(g: Geometry, y: Layout, ser: Encoding, c: F.Chunk, x: Calls, d: Disk)
    requires F.Covered(c.before, c.after, c.logged, y.bitmap, y.itable)
    requires Logs(y, ser, c, x) && Holds(g, y, ser, c.before, d)
    ensures Holds(g, y, ser, c.after, P.Replay(d, x.updates))
  {
    var e := P.Replay(d, x.updates);
    forall b: nat | g.Home(b) ensures e[b] == ser(b, ImageOf(c.after, y, b)) {
      ReplayIsLast(d, x.updates, b);
      if b !in c.logged {
        if LastOf(x.updates, b).Some? {
          LastOfListed(x.updates, b);
        }
        UnloggedIsSame(c.before, c.after, c.logged, y, b);
        assert d[b] == ser(b, ImageOf(c.before, y, b));
      }
    }
  }

  lemma {:induction false} ChunksReplay(g: Geometry, y: Layout, ser: Encoding, s: F.State, cs: seq<F.Chunk>,
      t: F.State, xs: seq<Calls>, k: nat, d: Disk)
    requires F.Chained(s, cs, t, y.bitmap, y.itable) && LogsAll(y, ser, cs, xs) && k <= |xs|
    requires Holds(g, y, ser, s, d)
    ensures Holds(g, y, ser, F.BeforeChunk(s, cs, k), P.Replay(d, HistOf(xs, k)))
  {
    hide F.Covered, Logs, Holds;
    if k == 0 {
      assert P.Replay(d, []) == d;
    } else {
      hide P.Replay;
      ChunksReplay(g, y, ser, s, cs, t, xs, k - 1, d);
      ReplayOn(d, HistOf(xs, k - 1), xs[k - 1].updates);
      ChunkReplays(g, y, ser, cs[k - 1], xs[k - 1], P.Replay(d, HistOf(xs, k - 1)));
    }
  }

  // ----- Where a durable prefix ends

  /** The updates of the first k operations come first. */
  lemma {:induction false} HistPrefix(xs: seq<Calls>, j: nat, k: nat)
    requires j <= k <= |xs|
    ensures |HistOf(xs, j)| <= |HistOf(xs, k)| && HistOf(xs, k)[..|HistOf(xs, j)|] == HistOf(xs, j)
  {
    if j < k {
      HistPrefix(xs, j, k - 1);
    }
  }

  /** The operation whose updates position n falls among. */
  lemma {:induction false} Among(xs: seq<Calls>, n: nat, k: nat) returns (j: nat)
    requires k <= |xs| && n < |HistOf(xs, k)|
    ensures j < k && |HistOf(xs, j)| <= n < |HistOf(xs, j + 1)|
  {
    if n < |HistOf(xs, k - 1)| {
      j := Among(xs, n, k - 1);
    } else {
      j := k - 1;
    }
  }

  /** Position n holds an update of that operation. */
  lemma InOperation(xs: seq<Calls>, k: nat, n: nat)
    requires k < |xs| && |HistOf(xs, k)| <= n < |HistOf(xs, k + 1)|
    requires forall i :: 0 <= i < |xs[k].updates| ==> xs[k].updates[i].op == xs[k].op
    ensures n < |HistOf(xs, |xs|)| && HistOf(xs, |xs|)[n].op == xs[k].op
  {
    HistPrefix(xs, k + 1, |xs|);
    var h, p := HistOf(xs, |xs|), HistOf(xs, k + 1);
    assert p == HistOf(xs, k) + xs[k].updates;
    hide HistOf;
    assert h[n] == h[..|p|][n] == p[n];
  }

  /** A prefix of the history that splits no operation is the history of the first few operations. */
  lemma WholePrefix(y: Layout, ser: Encoding, cs: seq<F.Chunk>, xs: seq<Calls>, n: nat) returns (k: nat)
    requires LogsAll(y, ser, cs, xs) && n <= |HistOf(xs, |xs|)|
    requires forall x, z :: 0 <= x < n <= z < |HistOf(xs, |xs|)| ==> HistOf(xs, |xs|)[x].op != HistOf(xs, |xs|)[z].op
    ensures k <= |xs| && HistOf(xs, |xs|)[..n] == HistOf(xs, k)
  {
    if n == |HistOf(xs, |xs|)| {
      k := |xs|;
    } else {
      k := Among(xs, n, |xs|);
      HistPrefix(xs, k, |xs|);
      if n > |HistOf(xs, k)| {
        assert Logs(y, ser, cs[k], xs[k]);
        InOperation(xs, k, n);
        InOperation(xs, k, n - 1);
      }
    }
  }

  /** Updates of operations that are still under way. */
  ghost predicate Unfinished(s: P.State, us: seq<P.Update>) {
    forall j :: 0 <= j < |us| ==> exists k :: 0 <= k < |s.mem.ops| && s.mem.ops[k].id == us[j].op
  }

  /** None of them is durable. */
  lemma UnfinishedIsLost(s: P.State, h: seq<P.Update>, part: seq<P.Update>)
    requires P.WholeOps(s) && s.hist == h + part && Unfinished(s, part)
    ensures s.durable <= |h| && s.hist[..s.durable] == h[..s.durable]
    ensures forall x, z :: 0 <= x < s.durable <= z < |h| ==> h[x].op != h[z].op
  {
    if part != [] {
      var k :| 0 <= k < |s.mem.ops| && s.mem.ops[k].id == part[0].op;
      assert s.hist[|h|].op == s.mem.ops[k].id;
    }
    assert forall x :: 0 <= x < |h| ==> s.hist[x] == h[x];
  }

  /**
   Files survive crashes whole.  Let the updates logged so far be those of a
   run of filewrite chunks, each an operation that logs every block it
   changes, and after them some of the updates of operations still under way.
   Wherever the machine stops, and however often recovery is cut short, the
   recovery that completes leaves the disk holding the file system as it was
   after the first k chunks, for some k.
   */
  lemma FilesSurviveWhole(g: Geometry, d: Disk, ss: seq<P.State>, es: seq<P.Event>, i: nat, ks: seq<nat>, y: Layout,
      ser: Encoding, s: F.State, cs: seq<F.Chunk>, t: F.State, xs: seq<Calls>, part: seq<P.Update>)
    returns (k: nat)
    requires Readable(g, d) && P.IsRun(g, d, ss, es) && i < |ss|
    requires ss[i].hist == HistOf(xs, |xs|) + part && Unfinished(ss[i], part)
    requires Holds(g, y, ser, s, Recover(g, d))
    requires F.Chained(s, cs, t, y.bitmap, y.itable) && LogsAll(y, ser, cs, xs)
    ensures k <= |cs| && Readable(g, ss[i].disk)
    ensures Holds(g, y, ser, F.BeforeChunk(s, cs, k), Recover(g, CutShort(g, ss[i].disk, ks)))
  {
    P.CrashConsistency(g, d, ss, es, i, ks);
    P.RunKeepsInv(g, d, ss, es, i);
    var h := HistOf(xs, |xs|);
    UnfinishedIsLost(ss[i], h, part);
    hide *;
    k := WholePrefix(y, ser, cs, xs, ss[i].durable);
    ChunksReplay(g, y, ser, s, cs, t, xs, k, Recover(g, d));
    SameHomeHolds(g, y, ser, F.BeforeChunk(s, cs, k), Recover(g, CutShort(g, ss[i].disk, ks)),
      P.Replay(Recover(g, d), HistOf(xs, k)));
  }
}
