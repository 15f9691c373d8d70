/**
 The on-disk redo log of kernel/log.c: its layout, the block writes that
 commit() and recover_from_log() issue, and what a crash between any two of
 those writes can do.

 A disk is a sequence of blocks.  The driver writes one block at a time, and a
 crash keeps exactly the writes issued before it, so the state left by a crash
 is `Apply(d, ws[..k])` for the list `ws` of writes under way and some `k`.
 */
module RedoLog {
  /** One disk block, as the 32-bit words struct logheader is laid over. */
  type Block = seq<int>
  type Disk = seq<Block>

  /** BSIZE / sizeof(int) */
  const WORDS: nat := 256
  const MAXOPBLOCKS: nat := 10
  const LOGSIZE: nat := 3 * MAXOPBLOCKS

  /** log.start and log.size, and the number of blocks of the device. */
  datatype Geometry = Geometry(start: nat, size: nat, blocks: nat)
  {
    ghost predicate Valid() {
      1 <= size && start + size <= blocks
    }

    /** A block outside the log area: a block the log protects. */
    predicate Home(b: int) {
      0 <= b < blocks && !(start <= b < start + size)
    }

    ghost predicate IsDisk(d: Disk) {
      |d| == blocks && forall b :: 0 <= b < |d| ==> |d[b]| == WORDS
    }
  }

  datatype Write = Write(block: nat, data: Block)

  /** Where x is listed, or the length of the list. */
  ghost function IndexOf(s: seq<int>, x: int): (i: nat)
    ensures i <= |s|
    ensures i < |s| ==> s[i] == x
    ensures i == |s| <==> x !in s
  {
    if x in s then var i :| 0 <= i < |s| && s[i] == x; i else |s|
  }

  /** Each entry is listed once. */
  ghost predicate Distinct(s: seq<int>) {
    forall i :: 0 <= i < |s| ==> IndexOf(s, s[i]) == i
  }

  lemma DistinctAppend(s: seq<int>, x: int)
    requires Distinct(s) && x !in s
    ensures Distinct(s + [x])
  {
    var t := s + [x];
    forall i | 0 <= i < |t| ensures IndexOf(t, t[i]) == i {
      var j := IndexOf(t, t[i]);
      if i < |s| && j < |s| {
        assert s[i] == s[j];
        assert IndexOf(s, s[i]) == i && IndexOf(s, s[j]) == j;
      }
    }
  }

  /** The block numbers a transaction may hold: what log_write lets through. */
  ghost predicate Loggable(g: Geometry, blocks: seq<int>) {
    && |blocks| <= LOGSIZE && |blocks| <= g.size - 1
    && Distinct(blocks)
    && forall i :: 0 <= i < |blocks| ==> g.Home(blocks[i])
  }

  // ----- The header block

  /** write_head: n and the first n entries are overwritten, the rest of the buffer stays. */
  function PutHeader(prior: Block, blocks: seq<int>): (b: Block)
    requires |prior| == WORDS && |blocks| < WORDS
    ensures |b| == WORDS
  {
    [|blocks|] + blocks + prior[1 + |blocks|..]
  }

  ghost predicate HeaderShape(b: Block) {
    |b| == WORDS && 0 <= b[0] <= LOGSIZE
  }

  /** read_head */
  function GetHeader(b: Block): seq<int>
    requires HeaderShape(b)
  {
    b[1..1 + b[0]]
  }

  lemma HeaderRoundTrip(prior: Block, blocks: seq<int>)
    requires |prior| == WORDS && |blocks| <= LOGSIZE
    ensures HeaderShape(PutHeader(prior, blocks))
    ensures GetHeader(PutHeader(prior, blocks)) == blocks
  {
    var b := PutHeader(prior, blocks);
    assert b[1..1 + |blocks|] == blocks;
  }

  /** A disk whose header names a transaction that could have been logged. */
  ghost predicate Readable(g: Geometry, d: Disk) {
    && g.Valid() && g.IsDisk(d)
    && HeaderShape(d[g.start])
    && Loggable(g, GetHeader(d[g.start]))
  }

  ghost function Logged(g: Geometry, d: Disk): (blocks: seq<int>)
    requires Readable(g, d)
    ensures Loggable(g, blocks)
  {
    GetHeader(d[g.start])
  }

  // ----- Lists of single-block writes

  ghost predicate InRange(g: Geometry, ws: seq<Write>) {
    forall i :: 0 <= i < |ws| ==> ws[i].block < g.blocks && |ws[i].data| == WORDS
  }

  function Apply(d: Disk, ws: seq<Write>): (r: Disk)
    requires forall i :: 0 <= i < |ws| ==> ws[i].block < |d|
    ensures |r| == |d|
  {
    if ws == [] then d else
      var n := |ws| - 1;
      Apply(d, ws[..n])[ws[n].block := ws[n].data]
  }

  lemma {:induction false} ApplyIsDisk(g: Geometry, d: Disk, ws: seq<Write>)
    requires g.IsDisk(d) && InRange(g, ws)
    ensures g.IsDisk(Apply(d, ws))
  {
    if ws != [] {
      ApplyIsDisk(g, d, ws[..|ws| - 1]);
    }
  }

  lemma ApplyPrefix(d: Disk, ws: seq<Write>, k: nat)
    requires forall i :: 0 <= i < |ws| ==> ws[i].block < |d|
    requires k < |ws|
    ensures Apply(d, ws[..k + 1]) == Apply(d, ws[..k])[ws[k].block := ws[k].data]
  {
    assert ws[..k + 1][..k] == ws[..k];
  }

  function LogCopies(g: Geometry, vals: seq<Block>): seq<Write> {
    seq(|vals|, i requires 0 <= i < |vals| => Write(g.start + 1 + i, vals[i]))
  }

  function Installs(blocks: seq<int>, vals: seq<Block>): seq<Write>
    requires |blocks| == |vals|
    requires forall i :: 0 <= i < |blocks| ==> 0 <= blocks[i]
  {
    seq(|vals|, i requires 0 <= i < |vals| => Write(blocks[i], vals[i]))
  }

  /** The cached contents of the logged blocks, which write_log copies. */
  ghost function Vals(store: Disk, lh: seq<int>): (vals: seq<Block>)
    requires forall i :: 0 <= i < |lh| ==> 0 <= lh[i] < |store|
    ensures |vals| == |lh|
    ensures forall i :: 0 <= i < |lh| ==> vals[i] == store[lh[i]]
  {
    seq(|lh|, i requires 0 <= i < |lh| => store[lh[i]])
  }

  /**
   The writes of commit() on a non-empty transaction, in order: write_log, the
   committing write_head, install_trans, the erasing write_head.
   */
  function CommitWrites(g: Geometry, header: Block, blocks: seq<int>, vals: seq<Block>): seq<Write>
    requires |header| == WORDS && |blocks| == |vals| && |blocks| < WORDS
    requires forall i :: 0 <= i < |blocks| ==> 0 <= blocks[i]
  {
    var committed := PutHeader(header, blocks);
    LogCopies(g, vals)
    + [Write(g.start, committed)]
    + Installs(blocks, vals)
    + [Write(g.start, PutHeader(committed, []))]
  }

  /** The i-th block of the log area. */
  function LogAt(g: Geometry, d: Disk, i: nat): Block
    requires g.start + 1 + i < |d|
  {
    d[g.start + 1 + i]
  }

  ghost function LogVals(g: Geometry, d: Disk, n: nat): seq<Block>
    requires g.start + n < |d|
  {
    d[g.start + 1..g.start + 1 + n]
  }

  /** The writes of recover_from_log() started on disk d. */
  ghost function RecoverWrites(g: Geometry, d: Disk): (ws: seq<Write>)
    requires Readable(g, d)
    ensures InRange(g, ws) && |ws| == |Logged(g, d)| + 1
  {
    var blocks := Logged(g, d);
    Installs(blocks, LogVals(g, d, |blocks|)) + [Write(g.start, PutHeader(d[g.start], []))]
  }

  /** The disk a completed recover_from_log() leaves. */
  ghost function Recover(g: Geometry, d: Disk): Disk
    requires Readable(g, d)
  {
    Apply(d, RecoverWrites(g, d))
  }

  // ----- What recovery will make of a home block

  /** The contents home block b will have once recovery completes. */
  ghost function Final(g: Geometry, d: Disk, b: int): Block
    requires Readable(g, d) && g.Home(b)
  {
    var i := IndexOf(Logged(g, d), b);
    if i < |Logged(g, d)| then LogAt(g, d, i) else d[b]
  }

  /** Recovery from e would produce what recovery from d would. */
  ghost predicate SameFinal(g: Geometry, d: Disk, e: Disk)
    requires Readable(g, d) && Readable(g, e)
  {
    forall b {:trigger Final(g, e, b)} :: g.Home(b) ==> Final(g, e, b) == Final(g, d, b)
  }

  /** Home block b of disk d overlaid with the pending transaction (blocks, vals). */
  ghost function Overlay(d: Disk, blocks: seq<int>, vals: seq<Block>, b: int): Block
    requires |blocks| == |vals| && 0 <= b < |d|
  {
    var i := IndexOf(blocks, b);
    if i < |blocks| then vals[i] else d[b]
  }

  // ----- Crash atomicity of commit()

  ghost predicate Committable(g: Geometry, d: Disk, blocks: seq<int>, vals: seq<Block>) {
    && Readable(g, d) && Logged(g, d) == []
    && Loggable(g, blocks) && |blocks| == |vals|
    && forall i :: 0 <= i < |vals| ==> |vals[i]| == WORDS
  }

  /** Block b after the first k writes of a commit. */
  ghost function CommitBlock(g: Geometry, d: Disk, blocks: seq<int>, vals: seq<Block>, k: nat, b: int): Block
    requires Committable(g, d, blocks, vals) && 0 <= b < g.blocks
  {
    var n := |blocks|;
    if b == g.start then
      if k <= n then d[b]
      else if k <= 2 * n + 1 then PutHeader(d[b], blocks)
      else PutHeader(PutHeader(d[b], blocks), [])
    else if g.start < b <= g.start + n then
      if b - g.start - 1 < k then vals[b - g.start - 1] else d[b]
    else
      var i := IndexOf(blocks, b);
      if i < n && i < k - n - 1 then vals[i] else d[b]
  }

  /** The disk after the first k writes of a commit. */
  ghost function CommitDisk(g: Geometry, d: Disk, blocks: seq<int>, vals: seq<Block>, k: nat): (e: Disk)
    requires Committable(g, d, blocks, vals)
    ensures |e| == g.blocks
    ensures forall b :: 0 <= b < |e| ==> e[b] == CommitBlock(g, d, blocks, vals, k, b)
  {
    seq(g.blocks, b requires 0 <= b < g.blocks => CommitBlock(g, d, blocks, vals, k, b))
  }

  /** The k-th write of a commit. */
  ghost function CommitWrite(g: Geometry, d: Disk, blocks: seq<int>, vals: seq<Block>, k: nat): (w: Write)
    requires Committable(g, d, blocks, vals) && k < 2 * |blocks| + 2
    ensures w.block < g.blocks && |w.data| == WORDS
  {
    var n := |blocks|;
    var committed := PutHeader(d[g.start], blocks);
    if k < n then Write(g.start + 1 + k, vals[k])
    else if k == n then Write(g.start, committed)
    else if k < 2 * n + 1 then Write(blocks[k - n - 1], vals[k - n - 1])
    else Write(g.start, PutHeader(committed, []))
  }

  lemma CommitWritesAreThose(g: Geometry, d: Disk, blocks: seq<int>, vals: seq<Block>)
    requires Committable(g, d, blocks, vals)
    ensures var ws := CommitWrites(g, d[g.start], blocks, vals);
      && |ws| == 2 * |blocks| + 2 && InRange(g, ws)
      && forall k :: 0 <= k < |ws| ==> ws[k] == CommitWrite(g, d, blocks, vals, k)
  {
  }

  lemma CommitDiskStart(g: Geometry, d: Disk, blocks: seq<int>, vals: seq<Block>)
    requires Committable(g, d, blocks, vals)
    ensures CommitDisk(g, d, blocks, vals, 0) == d
  {
  }

  /** One more write of the commit. */
  lemma CommitDiskStep(g: Geometry, d: Disk, blocks: seq<int>, vals: seq<Block>, k: nat)
    requires Committable(g, d, blocks, vals) && k < 2 * |blocks| + 2
    ensures var w := CommitWrite(g, d, blocks, vals, k);
      CommitDisk(g, d, blocks, vals, k + 1) == CommitDisk(g, d, blocks, vals, k)[w.block := w.data]
  {
    var w := CommitWrite(g, d, blocks, vals, k);
    var e, e' := CommitDisk(g, d, blocks, vals, k), CommitDisk(g, d, blocks, vals, k + 1);
    forall b | 0 <= b < g.blocks ensures e'[b] == e[w.block := w.data][b] {
      assert e[b] == CommitBlock(g, d, blocks, vals, k, b);
    }
  }

  /** What the header of that disk says, and what recovery would make of it. */
  lemma CommitDiskMeans(g: Geometry, d: Disk, blocks: seq<int>, vals: seq<Block>, k: nat)
    requires Committable(g, d, blocks, vals) && k <= 2 * |blocks| + 2
    ensures var e := CommitDisk(g, d, blocks, vals, k);
      && Readable(g, e)
      && Logged(g, e) == (if |blocks| < k <= 2 * |blocks| + 1 then blocks else [])
      && forall b {:trigger Final(g, e, b)} :: g.Home(b) ==>
           Final(g, e, b) == if k <= |blocks| then d[b] else Overlay(d, blocks, vals, b)
  {
    var n := |blocks|;
    var e := CommitDisk(g, d, blocks, vals, k);
    HeaderRoundTrip(d[g.start], blocks);
    HeaderRoundTrip(PutHeader(d[g.start], blocks), []);
    forall b | g.Home(b) ensures Final(g, e, b) == if k <= n then d[b] else Overlay(d, blocks, vals, b) {
      assert e[b] == CommitBlock(g, d, blocks, vals, k, b);
      var i := IndexOf(Logged(g, e), b);
      if i < |Logged(g, e)| {
        assert LogAt(g, e, i) == CommitBlock(g, d, blocks, vals, k, g.start + 1 + i) == vals[i];
      }
    }
  }

  lemma {:induction false} CommitReaches(g: Geometry, d: Disk, blocks: seq<int>, vals: seq<Block>, k: nat)
    requires Committable(g, d, blocks, vals) && k <= 2 * |blocks| + 2
    ensures var ws := CommitWrites(g, d[g.start], blocks, vals);
      |ws| == 2 * |blocks| + 2 && InRange(g, ws) && Apply(d, ws[..k]) == CommitDisk(g, d, blocks, vals, k)
  {
    CommitWritesAreThose(g, d, blocks, vals);
    if k == 0 {
      CommitDiskStart(g, d, blocks, vals);
    } else {
      CommitReaches(g, d, blocks, vals, k - 1);
      CommitDiskStep(g, d, blocks, vals, k - 1);
      ApplyPrefix(d, CommitWrites(g, d[g.start], blocks, vals), k - 1);
    }
  }

  /**
   Crash atomicity of commit(): whatever the number k of block writes that got
   through, a completed recovery leaves the home blocks all old or all new, and
   the switch is exactly the header write, write number |blocks|.
   */
  lemma CommitIsAtomic(g: Geometry, d: Disk, blocks: seq<int>, vals: seq<Block>, k: nat)
    requires Committable(g, d, blocks, vals)
    requires k <= 2 * |blocks| + 2
    ensures var ws := CommitWrites(g, d[g.start], blocks, vals);
      && InRange(g, ws) && |ws| == 2 * |blocks| + 2
      && Readable(g, Apply(d, ws[..k]))
      && forall b :: g.Home(b) ==>
           Recover(g, Apply(d, ws[..k]))[b] == if k <= |blocks| then d[b] else Overlay(d, blocks, vals, b)
  {
    CommitReaches(g, d, blocks, vals, k);
    CommitDiskMeans(g, d, blocks, vals, k);
    RecoverReachesFinal(g, CommitDisk(g, d, blocks, vals, k));
  }

  // ----- Crashes inside recovery

  /** Block b after the first k writes of recovery. */
  ghost function RecoverBlock(g: Geometry, d: Disk, k: nat, b: int): Block
    requires Readable(g, d) && 0 <= b < g.blocks
  {
    var n := |Logged(g, d)|;
    if b == g.start then
      if k <= n then d[b] else PutHeader(d[b], [])
    else
      var i := IndexOf(Logged(g, d), b);
      if i < n && i < k then LogAt(g, d, i) else d[b]
  }

  ghost function RecoverDisk(g: Geometry, d: Disk, k: nat): (e: Disk)
    requires Readable(g, d)
    ensures |e| == g.blocks
    ensures forall b :: 0 <= b < |e| ==> e[b] == RecoverBlock(g, d, k, b)
  {
    seq(g.blocks, b requires 0 <= b < g.blocks => RecoverBlock(g, d, k, b))
  }

  lemma RecoverDiskStep(g: Geometry, d: Disk, k: nat)
    requires Readable(g, d) && k < |RecoverWrites(g, d)|
    ensures var w := RecoverWrites(g, d)[k];
      RecoverDisk(g, d, k + 1) == RecoverDisk(g, d, k)[w.block := w.data]
  {
    var w := RecoverWrites(g, d)[k];
    var blocks := Logged(g, d);
    assert k < |blocks| ==> w == Write(blocks[k], LogAt(g, d, k));
    var e, e' := RecoverDisk(g, d, k), RecoverDisk(g, d, k + 1);
    forall b | 0 <= b < g.blocks ensures e'[b] == e[w.block := w.data][b] {
      assert e[b] == RecoverBlock(g, d, k, b);
    }
  }

  lemma RecoverDiskHeader(g: Geometry, d: Disk, k: nat)
    requires Readable(g, d) && k <= |RecoverWrites(g, d)|
    ensures var e := RecoverDisk(g, d, k);
      Readable(g, e) && Logged(g, e) == if k <= |Logged(g, d)| then Logged(g, d) else []
  {
    HeaderRoundTrip(d[g.start], []);
  }

  lemma RecoverDiskMeans(g: Geometry, d: Disk, k: nat)
    requires Readable(g, d) && k <= |RecoverWrites(g, d)|
    ensures var e := RecoverDisk(g, d, k);
      && Readable(g, e)
      && Logged(g, e) == (if k <= |Logged(g, d)| then Logged(g, d) else [])
      && SameFinal(g, d, e)
  {
    RecoverDiskHeader(g, d, k);
    var e := RecoverDisk(g, d, k);
    forall b | g.Home(b) ensures Final(g, e, b) == Final(g, d, b) {
      assert e[b] == RecoverBlock(g, d, k, b);
      var i := IndexOf(Logged(g, e), b);
      if i < |Logged(g, e)| {
        assert LogAt(g, e, i) == RecoverBlock(g, d, k, g.start + 1 + i) == LogAt(g, d, i);
      }
    }
  }

  lemma {:induction false} RecoverReaches(g: Geometry, d: Disk, k: nat)
    requires Readable(g, d) && k <= |RecoverWrites(g, d)|
    ensures Apply(d, RecoverWrites(g, d)[..k]) == RecoverDisk(g, d, k)
  {
    if k > 0 {
      RecoverReaches(g, d, k - 1);
      RecoverDiskStep(g, d, k - 1);
      ApplyPrefix(d, RecoverWrites(g, d), k - 1);
    }
  }

  /** A completed recovery leaves every home block at its final contents and the log empty. */
  lemma RecoverReachesFinal(g: Geometry, d: Disk)
    requires Readable(g, d)
    ensures Readable(g, Recover(g, d)) && Logged(g, Recover(g, d)) == []
    ensures forall b {:trigger Recover(g, d)[b]} :: g.Home(b) ==> Recover(g, d)[b] == Final(g, d, b)
  {
    var ws := RecoverWrites(g, d);
    assert ws[..|ws|] == ws;
    RecoverReaches(g, d, |ws|);
    RecoverDiskMeans(g, d, |ws|);
    forall b | g.Home(b) ensures Recover(g, d)[b] == Final(g, d, b) {
      assert RecoverDisk(g, d, |ws|)[b] == RecoverBlock(g, d, |ws|, b);
    }
  }

  /**
   Recovery cut short once per entry of ks: attempt number i performs at most
   ks[i] of its block writes and then the machine crashes.
   */
  ghost function CutShort(g: Geometry, d: Disk, ks: seq<nat>): (e: Disk)
    requires Readable(g, d)
    ensures Readable(g, e)
    ensures SameFinal(g, d, e)
    decreases |ks|
  {
    if ks == [] then d else
      var ws := RecoverWrites(g, d);
      var k := if ks[0] <= |ws| then ks[0] else |ws|;
      RecoverReaches(g, d, k);
      RecoverDiskMeans(g, d, k);
      CutShort(g, Apply(d, ws[..k]), ks[1..])
  }

  /** Any number of crashes inside recovery, then one recovery that completes, equals one recovery. */
  lemma RecoveryIsRepeatable(g: Geometry, d: Disk, ks: seq<nat>)
    requires Readable(g, d)
    ensures forall b :: g.Home(b) ==> Recover(g, CutShort(g, d, ks))[b] == Recover(g, d)[b]
  {
    var e := CutShort(g, d, ks);
    RecoverReachesFinal(g, d);
    RecoverReachesFinal(g, e);
    forall b | g.Home(b) ensures Recover(g, e)[b] == Recover(g, d)[b] {
      assert Final(g, e, b) == Final(g, d, b);
    }
  }

  /**
   The whole story of one commit: the machine crashes after k of its block
   writes, then any number of times inside recovery, then recovery completes.
   */
  lemma CommitThenCrashes(g: Geometry, d: Disk, blocks: seq<int>, vals: seq<Block>, k: nat, ks: seq<nat>)
    requires Committable(g, d, blocks, vals) && k <= 2 * |blocks| + 2
    ensures var ws := CommitWrites(g, d[g.start], blocks, vals);
      && InRange(g, ws) && |ws| == 2 * |blocks| + 2 && Readable(g, Apply(d, ws[..k]))
      && forall b :: g.Home(b) ==>
           Recover(g, CutShort(g, Apply(d, ws[..k]), ks))[b] ==
             if k <= |blocks| then d[b] else Overlay(d, blocks, vals, b)
  {
    CommitIsAtomic(g, d, blocks, vals, k);
    RecoveryIsRepeatable(g, Apply(d, CommitWrites(g, d[g.start], blocks, vals)[..k]), ks);
  }
}
