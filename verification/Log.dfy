/**
 kernel/log.c, method by method, over the buffer cache of BufferCache: the
 header in memory, the loops of write_log, install_trans, write_head and
 read_head, and commit and recovery, each tied to the list of block writes
 whose crash behaviour RedoLog settles.  A result of false is the panic of bget
 when no buffer is left.
 */
module LogLayer {
  import opened RedoLog
  import opened BufferCache
  import LogSpace

  /** What becomes of a call: it returns, or panics in log_write, in end_op or in bget. */
  datatype Outcome = Done | TooBig | OutsideTrans | Committing | OutOfBuffers

  ghost function ThroughAll(v: View, ws: seq<Write>): (r: View)
    requires |v.disk| == |v.store|
    requires forall i :: 0 <= i < |ws| ==> ws[i].block < |v.disk|
    ensures |r.disk| == |v.disk| == |r.store|
  {
    v.(disk := Apply(v.disk, ws), store := Apply(v.store, ws), writes := v.writes + ws)
  }

  lemma ThroughPrefix(v: View, ws: seq<Write>, k: nat)
    requires |v.disk| == |v.store| && k < |ws|
    requires forall i :: 0 <= i < |ws| ==> ws[i].block < |v.disk|
    ensures ThroughAll(v, ws[..k + 1]) == Through(ThroughAll(v, ws[..k]), ws[k])
  {
    ApplyPrefix(v.disk, ws, k);
    ApplyPrefix(v.store, ws, k);
    assert ws[..k + 1] == ws[..k] + [ws[k]];
  }

  lemma {:induction false} ApplyAppend(d: Disk, ws: seq<Write>, us: seq<Write>)
    requires forall i :: 0 <= i < |ws| ==> ws[i].block < |d|
    requires forall i :: 0 <= i < |us| ==> us[i].block < |d|
    ensures Apply(d, ws + us) == Apply(Apply(d, ws), us)
  {
    if us == [] {
      assert ws + us == ws;
    } else {
      ApplyAppend(d, ws, us[..|us| - 1]);
      assert (ws + us)[..|ws + us| - 1] == ws + us[..|us| - 1];
    }
  }

  lemma ThroughAppend(v: View, ws: seq<Write>, us: seq<Write>)
    requires |v.disk| == |v.store|
    requires forall i :: 0 <= i < |ws| ==> ws[i].block < |v.disk|
    requires forall i :: 0 <= i < |us| ==> us[i].block < |v.disk|
    ensures forall i :: 0 <= i < |ws + us| ==> (ws + us)[i].block < |v.disk|
    ensures ThroughAll(v, ws + us) == ThroughAll(ThroughAll(v, ws), us)
  {
    hide Apply;
    ApplyAppend(v.disk, ws, us);
    ApplyAppend(v.store, ws, us);
    assert v.writes + (ws + us) == v.writes + ws + us;
  }

  /** Block writes elsewhere leave block b alone. */
  lemma {:induction false} ApplyElsewhere(d: Disk, ws: seq<Write>, b: int)
    requires forall i :: 0 <= i < |ws| ==> ws[i].block < |d|
    requires 0 <= b < |d| && forall i :: 0 <= i < |ws| ==> ws[i].block != b
    ensures Apply(d, ws)[b] == d[b]
  {
    if ws != [] {
      ApplyElsewhere(d, ws[..|ws| - 1], b);
    }
  }

  /** What write_log put in the log area is what install_trans reads back. */
  lemma {:induction false} LogCopiesReadBack(g: Geometry, d: Disk, vals: seq<Block>, k: nat, i: nat)
    requires g.start + |vals| < |d| && i < k <= |vals|
    ensures Apply(d, LogCopies(g, vals)[..k])[g.start + 1 + i] == vals[i]
  {
    ApplyPrefix(d, LogCopies(g, vals), k - 1);
    if i < k - 1 {
      LogCopiesReadBack(g, d, vals, k - 1, i);
    }
  }

  /** write_log then write_head: the store they leave. */
  lemma CommitFirstHalf(g: Geometry, s: Disk, lh: seq<int>, vals: seq<Block>)
    requires g.Valid() && g.IsDisk(s) && Loggable(g, lh) && |vals| == |lh|
    ensures var s1 := Apply(s, LogCopies(g, vals));
      && s1[g.start] == s[g.start]
      && LogVals(g, s1[g.start := PutHeader(s[g.start], lh)], |lh|) == vals
  {
    var ws := LogCopies(g, vals);
    ApplyElsewhere(s, ws, g.start);
    assert ws[..|vals|] == ws;
    var s2 := Apply(s, ws)[g.start := PutHeader(s[g.start], lh)];
    forall i | 0 <= i < |lh| ensures LogVals(g, s2, |lh|)[i] == vals[i] {
      LogCopiesReadBack(g, s, vals, |vals|, i);
    }
  }

  /** The four parts of commit() add up to CommitWrites. */
  lemma CommitParts(g: Geometry, v: View, lh: seq<int>, vals: seq<Block>)
    requires g.Valid() && g.IsDisk(v.store) && |v.disk| == g.blocks && Loggable(g, lh) && |vals| == |lh|
    requires forall i :: 0 <= i < |vals| ==> |vals[i]| == WORDS
    ensures InRange(g, CommitWrites(g, v.store[g.start], lh, vals))
    ensures
      var head := PutHeader(v.store[g.start], lh);
      var v2 := Through(ThroughAll(v, LogCopies(g, vals)), Write(g.start, head));
      Through(ThroughAll(v2, Installs(lh, vals)), Write(g.start, PutHeader(head, [])))
      == ThroughAll(v, CommitWrites(g, v.store[g.start], lh, vals))
  {
    var head := PutHeader(v.store[g.start], lh);
    var a, b, c, d := LogCopies(g, vals), [Write(g.start, head)], Installs(lh, vals),
      [Write(g.start, PutHeader(head, []))];
    assert InRange(g, a) && InRange(g, b) && InRange(g, c) && InRange(g, d);
    ThroughAppend(v, a, b);
    ThroughAppend(v, a + b, c);
    ThroughAppend(v, a + b + c, d);
    ThroughOne(ThroughAll(v, a), b[0]);
    ThroughOne(ThroughAll(v, a + b + c), d[0]);
  }

  lemma ThroughOne(v: View, w: Write)
    requires |v.disk| == |v.store| && w.block < |v.disk|
    ensures ThroughAll(v, [w]) == Through(v, w)
  {
    assert [w][..0] == [];
    assert Apply(v.disk, [w]) == Apply(v.disk, [])[w.block := w.data];
    assert Apply(v.store, [w]) == Apply(v.store, [])[w.block := w.data];
  }

  /** Block writes make two disks agree where they are written and wherever they agreed before. */
  lemma {:induction false} ApplyAgrees(d: Disk, s: Disk, ws: seq<Write>, b: int)
    requires |d| == |s| && 0 <= b < |d| && forall i :: 0 <= i < |ws| ==> ws[i].block < |d|
    requires d[b] == s[b] || exists i :: 0 <= i < |ws| && ws[i].block == b
    ensures Apply(d, ws)[b] == Apply(s, ws)[b]
  {
    if ws != [] && ws[|ws| - 1].block != b {
      ApplyAgrees(d, s, ws[..|ws| - 1], b);
    }
  }

  /** A commit that runs to its end leaves memory and disk the same and the log empty. */
  lemma CommitSettles(g: Geometry, v: View, lh: seq<int>, vals: seq<Block>, ws: seq<Write>)
    requires Committable(g, v.disk, lh, vals) && g.IsDisk(v.store)
    requires forall b :: 0 <= b < g.blocks && b !in lh ==> v.disk[b] == v.store[b]
    requires ws == CommitWrites(g, v.disk[g.start], lh, vals) && InRange(g, ws)
    requires forall i :: 0 <= i < |lh| ==> vals[i] == v.store[lh[i]]
    ensures Readable(g, Apply(v.disk, ws)) && Logged(g, Apply(v.disk, ws)) == []
    ensures Apply(v.disk, ws) == Apply(v.store, ws)
    ensures forall b :: g.Home(b) ==> Apply(v.disk, ws)[b] == v.store[b]
  {
    CommitWritesAreThose(g, v.disk, lh, vals);
    CommitReaches(g, v.disk, lh, vals, |ws|);
    CommitDiskMeans(g, v.disk, lh, vals, |ws|);
    assert ws[..|ws|] == ws;
    forall b | 0 <= b < g.blocks ensures Apply(v.disk, ws)[b] == Apply(v.store, ws)[b] {
      if b in lh {
        var i := IndexOf(lh, b);
        assert ws[|lh| + 1 + i] == CommitWrite(g, v.disk, lh, vals, |lh| + 1 + i);
      }
      ApplyAgrees(v.disk, v.store, ws, b);
    }
    forall b | g.Home(b) ensures Apply(v.disk, ws)[b] == v.store[b] {
      assert Final(g, Apply(v.disk, ws), b) == Overlay(v.disk, lh, vals, b);
    }
  }

  /** The same for recovery. */
  lemma RecoverParts(g: Geometry, v: View)
    requires Readable(g, v.disk) && v.store == v.disk
    ensures var lh := Logged(g, v.disk);
      var v1 := ThroughAll(v, Installs(lh, LogVals(g, v.store, |lh|)));
      && v1.store[g.start] == v.disk[g.start]
      && Through(v1, Write(g.start, PutHeader(v.disk[g.start], []))) == ThroughAll(v, RecoverWrites(g, v.disk))
  {
    var lh := Logged(g, v.disk);
    var ins := Installs(lh, LogVals(g, v.store, |lh|));
    var last := Write(g.start, PutHeader(v.disk[g.start], []));
    ApplyElsewhere(v.store, ins, g.start);
    ThroughAppend(v, ins, [last]);
    ThroughOne(ThroughAll(v, ins), last);
  }

  /** The pins left when install_trans has unpinned the first k blocks of lh. */
  ghost predicate PinnedFrom(v: View, lh: seq<int>, k: nat) {
    && |v.pins| == |v.disk| && k <= |lh|
    && forall b :: 0 <= b < |v.pins| ==> v.pins[b] == if b in lh[k..] then 1 else 0
  }

  lemma UnpinNext(v: View, lh: seq<int>, k: nat)
    requires PinnedFrom(v, lh, k) && k < |lh| && Distinct(lh) && 0 <= lh[k] < |v.disk|
    ensures v.pins[lh[k]] == 1
    ensures PinnedFrom(v.(pins := v.pins[lh[k] := 0]), lh, k + 1)
  {
    assert lh[k..] == [lh[k]] + lh[k + 1..];
  }

  /** The view after one more turn of write_log's loop. */
  lemma CopyTurn(g: Geometry, v0: View, lh: seq<int>, ws: seq<Write>, tail: nat, v: View)
    requires g.Valid() && |v0.disk| == |v0.store| == g.blocks && Loggable(g, lh) && tail < |lh|
    requires ws == LogCopies(g, Vals(v0.store, lh))
    requires v == ThroughAll(v0, ws[..tail])
    ensures Through(v, Write(g.start + 1 + tail, v.store[lh[tail]])) == ThroughAll(v0, ws[..tail + 1])
  {
    ApplyElsewhere(v0.store, ws[..tail], lh[tail]);
    ThroughPrefix(v0, ws, tail);
  }

  /** The readers' blocks are neither logged nor in the log area. */
  ghost predicate Elsewhere(g: Geometry, o: set<nat>, lh: seq<int>) {
    forall b :: b in o ==> g.Home(b) && b !in lh
  }

  /** write_log finds its buffers exactly when one is left beside the pinned ones and the readers'. */
  lemma CopyRoom(g: Geometry, v: View, lh: seq<int>, o: set<nat>, tail: nat, n: nat)
    requires g.Valid() && PinnedOnce(v, lh) && Loggable(g, lh) && tail < |lh| && Elsewhere(g, o, lh)
    ensures var p, x := Pinned(v) + o, g.start + tail + 1;
      Room(n, p, x) && Room(n, p + {x}, lh[tail]) <==> |lh| + |o| < n
  {
    BlocksInUse(v, lh, o);
  }

  /** The view after one more turn of install_trans's loop. */
  lemma InstallTurn(g: Geometry, v0: View, lh: seq<int>, ws: seq<Write>, tail: nat, v: View)
    requires g.Valid() && |v0.disk| == |v0.store| == g.blocks && Loggable(g, lh) && tail < |lh|
    requires ws == Installs(lh, LogVals(g, v0.store, |lh|))
    requires v == ThroughAll(v0, ws[..tail]).(pins := v.pins)
    ensures Through(v, Write(lh[tail], LogAt(g, v.store, tail))) == ThroughAll(v0, ws[..tail + 1]).(pins := v.pins)
  {
    ApplyElsewhere(v0.store, ws[..tail], g.start + 1 + tail);
    ThroughPrefix(v0, ws, tail);
    assert ws[tail] == Write(lh[tail], LogAt(g, v.store, tail));
  }

  /** install_trans has done the first tail blocks. */
  ghost predicate Installed(g: Geometry, v0: View, lh: seq<int>, tail: nat, recovering: bool, v: View) {
    && g.Valid() && |v0.disk| == |v0.store| == g.blocks && Loggable(g, lh) && tail <= |lh|
    && v == ThroughAll(v0, Installs(lh, LogVals(g, v0.store, |lh|))[..tail]).(pins := v.pins)
    && if recovering then v.pins == v0.pins else PinnedFrom(v, lh, tail)
  }

  lemma InstalledNone(g: Geometry, lh: seq<int>, recovering: bool, v: View)
    requires g.Valid() && |v.disk| == |v.store| == g.blocks && Loggable(g, lh)
    requires PinnedOnce(v, if recovering then [] else lh)
    ensures Installed(g, v, lh, 0, recovering, v)
  {
    assert Installs(lh, LogVals(g, v.store, |lh|))[..0] == [];
    assert lh[0..] == lh;
  }

  lemma InstalledNext(g: Geometry, v0: View, lh: seq<int>, tail: nat, recovering: bool, v: View)
    requires Installed(g, v0, lh, tail, recovering, v) && tail < |lh|
    ensures |v.disk| == |v.store| == g.blocks && 0 <= lh[tail] < g.blocks
    ensures !recovering ==> lh[tail] < |v.pins| && v.pins[lh[tail]] == 1
    ensures Installed(g, v0, lh, tail + 1, recovering,
      Through(v, Write(lh[tail], LogAt(g, v.store, tail))).(pins := if recovering then v.pins
        else v.pins[lh[tail] := 0]))
  {
    InstallTurn(g, v0, lh, Installs(lh, LogVals(g, v0.store, |lh|)), tail, v);
    if !recovering {
      UnpinNext(v, lh, tail);
    }
  }

  /** n buffers are enough to install k blocks beside o readers': at commit they are all pinned, at recovery none is. */
  predicate Enough(recovering: bool, k: nat, o: nat, n: nat) {
    if recovering then o + 2 <= n else k + o < n
  }

  lemma NoPinsRoom(v: View, n: nat, o: set<nat>, b: nat)
    requires PinnedOnce(v, []) && b !in o
    ensures Room(n, Pinned(v) + o, b) <==> |o| < n
  {
    assert Pinned(v) == {} && {} + o == o;
  }

  lemma TwoRooms(n: nat, p: set<nat>, x: nat, y: nat)
    requires x !in p && y != x
    ensures Room(n, p, x) && Room(n, p + {x}, y) <==> |p| < n && (y in p || |p| + 1 < n)
  {
  }

  lemma RoomAround(n: nat, v: View, rest: seq<int>, o: set<nat>, x: nat, y: nat)
    requires PinnedOnce(v, rest) && Distinct(rest) && forall b :: b in o ==> b !in rest
    requires x !in o && x !in rest && y != x && y !in o
    ensures var p := Pinned(v) + o;
      Room(n, p, x) && Room(n, p + {x}, y) <==> |rest| + |o| < n && (y in rest || |rest| + |o| + 1 < n)
  {
    hide PinnedOnce, Distinct, Pinned, Room;
    BlocksInUse(v, rest, o);
    TwoRooms(n, Pinned(v) + o, x, y);
  }

  /** The pins install_trans still finds. */
  lemma StillPinned(g: Geometry, v0: View, lh: seq<int>, tail: nat, recovering: bool, v: View)
    requires Installed(g, v0, lh, tail, recovering, v) && PinnedOnce(v0, if recovering then [] else lh)
    ensures var rest := if recovering then [] else lh[tail..]; PinnedOnce(v, rest) && Distinct(rest)
  {
    if !recovering {
      DistinctRest(lh, tail);
    }
  }

  lemma CommitRoom(g: Geometry, v: View, lh: seq<int>, o: set<nat>, tail: nat, n: nat)
    requires g.Valid() && Loggable(g, lh) && tail < |lh| && Elsewhere(g, o, lh)
    requires PinnedOnce(v, lh[tail..]) && Distinct(lh[tail..])
    ensures var p, x := Pinned(v) + o, g.start + tail + 1;
      Room(n, p, x) && Room(n, p + {x}, lh[tail]) <==> |lh| - tail + |o| < n
  {
    hide PinnedOnce, Distinct, Pinned, Room;
    var rest := lh[tail..];
    assert rest[0] == lh[tail] && forall b :: b in rest ==> b in lh;
    RoomAround(n, v, rest, o, g.start + tail + 1, lh[tail]);
  }

  lemma RecoverRoom(g: Geometry, v: View, lh: seq<int>, o: set<nat>, tail: nat, n: nat)
    requires g.Valid() && Loggable(g, lh) && tail < |lh| && Elsewhere(g, o, lh) && PinnedOnce(v, [])
    ensures var p, x := Pinned(v) + o, g.start + tail + 1; Room(n, p, x) && Room(n, p + {x}, lh[tail]) <==> |o| + 2 <= n
  {
    hide PinnedOnce, Pinned, Room;
    RoomAround(n, v, [], o, g.start + tail + 1, lh[tail]);
  }

  /** Whether install_trans finds its buffers is settled by how many there are. */
  lemma InstallRoom(g: Geometry, v0: View, lh: seq<int>, o: set<nat>, tail: nat, recovering: bool, v: View, n: nat)
    requires Installed(g, v0, lh, tail, recovering, v) && tail < |lh| && Elsewhere(g, o, lh)
    requires PinnedOnce(v0, if recovering then [] else lh)
    ensures var p, x := Pinned(v) + o, g.start + tail + 1;
      Room(n, p, x) && Room(n, p + {x}, lh[tail]) <==> Enough(recovering, |lh| - tail, |o|, n)
  {
    hide PinnedOnce, Distinct, Pinned, Room, ThroughAll, PinnedFrom, Elsewhere;
    StillPinned(g, v0, lh, tail, recovering, v);
    if recovering {
      RecoverRoom(g, v, lh, o, tail, n);
    } else {
      CommitRoom(g, v, lh, o, tail, n);
    }
  }

  lemma ThroughTame(v: View, w: Write, p: nat)
    requires Tame(v) && w.block < |v.disk|
    ensures Tame(Through(v, w)) && Tame(Through(v, w).(pins := v.pins[w.block := p]))
  {
  }

  lemma DistinctRest(lh: seq<int>, k: nat)
    requires Distinct(lh) && k <= |lh|
    ensures Distinct(lh[k..])
  {
    var r := lh[k..];
    forall i | 0 <= i < |r| ensures IndexOf(r, r[i]) == i {
      var j := IndexOf(r, r[i]);
      assert r[j] == lh[k + j] && r[i] == lh[k + i];
      assert IndexOf(lh, lh[k + i]) == k + i && IndexOf(lh, lh[k + j]) == k + j;
    }
  }

  lemma InstalledAll(g: Geometry, v0: View, lh: seq<int>, recovering: bool, v: View)
    requires Installed(g, v0, lh, |lh|, recovering, v) && PinnedOnce(v0, if recovering then [] else lh)
    ensures v == ThroughAll(v0, Installs(lh, LogVals(g, v0.store, |lh|))).(pins := v.pins) && PinnedOnce(v, [])
  {
    var ws := Installs(lh, LogVals(g, v0.store, |lh|));
    assert ws[..|lh|] == ws;
  }

  class Log {
    const g: Geometry
    const cache: Cache
    /** log.lh: the first n entries of block */
    var lh: seq<int>
    /** log.outstanding */
    var outstanding: nat
    var committing: bool
    /** The other processes between bread and brelse, which read and change nothing. */
    ghost var q: Readers

    /** The cache as its caller sees it. */
    ghost function V(): View
      reads cache, cache.bufs
      requires cache.Valid()
    {
      ViewOf(cache.s)
    }

    /** Blocks have their size, and the logged blocks are pinned once each and no other block is. */
    ghost predicate Valid()
      reads this, cache, cache.bufs
    {
      && g.Valid() && cache.Valid()
      && g.IsDisk(cache.s.disk) && g.IsDisk(cache.s.store)
      && Loggable(g, lh)
      && PinnedOnce(V(), lh)
    }

    /** We hold no buffer, and the readers neither change anything nor look at the log area. */
    ghost predicate Rest()
      reads this, cache, cache.bufs
    {
      cache.Valid() && Held(cache.s, q, {}) && Tame(V()) && Elsewhere(g, q.blocks, [])
    }

    /** initlog, before recovery */
    constructor (c: Cache, geo: Geometry, ghost r: Readers)
      requires c.Valid() && geo.Valid() && geo.IsDisk(c.s.disk) && geo.IsDisk(c.s.store)
      requires PinnedOnce(ViewOf(c.s), [])
      ensures Valid() && cache == c && g == geo && q == r
      ensures lh == [] && outstanding == 0 && !committing
    {
      g, cache, lh, outstanding, committing, q := geo, c, [], 0, false, r;
    }

    // ----- Buffers in hand

    method BreadOne(x: nat) returns (ok: bool, i: nat)
      requires Rest() && x < |cache.disk| && x !in q.blocks
      modifies cache, cache.bufs
      ensures cache.Valid() && V() == old(V())
      ensures ok <==> Room(cache.bufs.Length, Pinned(old(V())) + q.blocks, x)
      ensures ok ==> Single(cache.s, q, i, x) && Settled(cache.s, i, x)
    {
      hide State.Valid, UsedBlocks, ViewOf, Single, Held, Pinned, Room, Settled, Tame;
      i := 0;
      ghost var s := cache.s;
      PinnedAndReadUse(s, q);
      RoomIsExact(s, x);
      NotWaiting(s, q, 0, x + 1, x);
      var a := cache.Bread(x);
      ok := a.Got?;
      if ok {
        i := a.i;
        FetchedFirst(s, cache.s, q, i, x);
        SingleIsOwned(cache.s, q, i, x);
        ReadIsSettled(cache.s, i, x);
      }
    }

    /** bread of x, then of y. */
    method BreadPair(x: nat, y: nat) returns (ok: bool, i: nat, j: nat)
      requires Rest() && x < |cache.disk| && y < |cache.disk| && x != y && x !in q.blocks && y !in q.blocks
      modifies cache, cache.bufs
      ensures cache.Valid() && V() == old(V())
      ensures var n, p := cache.bufs.Length, Pinned(old(V())) + q.blocks; ok <==> Room(n, p, x) && Room(n, p + {x}, y)
      ensures ok ==> Paired(cache.s, q, i, x, j, y) && Settled(cache.s, i, x) && Settled(cache.s, j, y)
    {
      hide State.Valid, UsedBlocks, ViewOf, Single, Held, Pinned, Room, Settled, Tame;
      i, j := 0, 0;
      ghost var s := cache.s;
      PinnedAndReadUse(s, q);
      RoomIsExact(s, x);
      NotWaiting(s, q, 0, y, x);
      var a := cache.Bread(x);
      if !a.Got? {
        return false, i, j;
      }
      ghost var t := cache.s;
      FetchedFirst(s, t, q, a.i, x);
      RoomIsExact(t, y);
      NotWaiting(t, q, a.i, x, y);
      var b := cache.Bread(y);
      if !b.Got? {
        return false, i, j;
      }
      FetchedSecond(t, cache.s, q, a.i, x, b.i, y);
      ReadIsSettled(cache.s, a.i, x);
      ReadIsSettled(cache.s, b.i, y);
      return true, a.i, b.i;
    }

    /** memmove(to, from), bwrite(to). */
    method CopyPair(to: nat, ghost x: nat, from: nat, ghost y: nat)
      requires cache.Valid() && Paired(cache.s, q, to, x, from, y)
      modifies cache, cache.bufs
      ensures cache.Valid() && cache.s == AfterSave(old(cache.s), to, old(cache.s).store[y])
    {
      hide State.Valid, ViewOf;
      cache.Put(to, x, cache.bufs[from].data);
      cache.Bwrite(to, x);
    }

    /** brelse of both. */
    method ReleasePair(i: nat, ghost x: nat, j: nat, ghost y: nat)
      requires cache.Valid() && i != j && cache.s.Owns(i, x) && cache.s.Owns(j, y) && Held(cache.s, q, {i, j})
      requires Settled(cache.s, i, x) && Settled(cache.s, j, y)
      modifies cache, cache.bufs
      ensures cache.Valid() && Held(cache.s, q, {}) && V() == old(V())
    {
      hide State.Valid, ViewOf, AfterBrelse, Held;
      ReleaseOfPair(cache.s, q, i, x, j, y);
      cache.Brelse(i, x);
      ReleaseSingle(cache.s, q, j, y);
      cache.Brelse(j, y);
    }

    // ----- Commit

    /** One turn of write_log's loop. */
    method CopyToLog(tail: nat) returns (ok: bool)
      requires g.Valid() && Rest() && |cache.disk| == g.blocks
      requires Loggable(g, lh) && PinnedOnce(V(), lh) && tail < |lh| && Elsewhere(g, q.blocks, lh)
      modifies cache, cache.bufs
      ensures cache.Valid() && (ok <==> |lh| + |q.blocks| < cache.bufs.Length)
      ensures ok ==> Rest() && V() == Through(old(V()), Write(g.start + tail + 1, old(V()).store[lh[tail]]))
      ensures !ok ==> V() == old(V())
    {
      hide State.Valid, ViewOf, AfterSave, Pinned, Distinct, PinnedOnce, Room, Tame, Held;
      CopyRoom(g, V(), lh, q.blocks, tail, cache.bufs.Length);
      ThroughTame(V(), Write(g.start + tail + 1, V().store[lh[tail]]), 0);
      ghost var x, y := g.start + tail + 1, lh[tail];
      var to, from;
      ok, to, from := BreadPair(g.start + tail + 1, lh[tail]);
      if ok {
        SaveView(cache.s, to, x, cache.s.store[y]);
        SaveKeepsOther(cache.s, q, to, x, from, y, cache.s.store[y]);
        CopyPair(to, x, from, y);
        assert {to, from} == {from, to};
        ReleasePair(from, y, to, x);
      }
    }

    method WriteLog() returns (ok: bool)
      requires Valid() && Rest() && Elsewhere(g, q.blocks, lh)
      modifies cache, cache.bufs
      ensures cache.Valid() && (ok <==> lh == [] || |lh| + |q.blocks| < cache.bufs.Length)
      ensures ok ==> Valid() && Rest() && V() == ThroughAll(old(V()), LogCopies(g, Vals(old(V()).store, lh)))
      ensures !ok ==> V() == old(V())
    {
      hide State.Valid, ViewOf, Held, Tame, Elsewhere, Distinct;
      ghost var v0 := V();
      ghost var ws := LogCopies(g, Vals(v0.store, lh));
      assert InRange(g, ws);
      assert ws[..0] == [];
      for tail := 0 to |lh|
        invariant Rest() && V() == ThroughAll(v0, ws[..tail])
        invariant tail > 0 ==> |lh| + |q.blocks| < cache.bufs.Length
      {
        CopyTurn(g, v0, lh, ws, tail, V());
        ok := CopyToLog(tail);
        if !ok {
          return;
        }
      }
      assert ws[..|lh|] == ws;
      ApplyIsDisk(g, v0.disk, ws);
      ApplyIsDisk(g, v0.store, ws);
      ok := true;
    }

    /** The loop of write_head over the header buffer. */
    method FillHeader(buf: Block) returns (hb: Block)
      requires |buf| == WORDS && |lh| <= LOGSIZE
      ensures hb == PutHeader(buf, lh)
    {
      hb := buf[0 := |lh|];
      for i := 0 to |lh|
        invariant |hb| == WORDS && hb[0] == |lh|
        invariant hb[1..1 + i] == lh[..i] && hb[1 + i..] == buf[1 + i..]
      {
        ghost var was := hb;
        hb := hb[1 + i := lh[i]];
        assert hb[1..2 + i] == was[1..1 + i] + [lh[i]] && hb[2 + i..] == was[1 + i..][1..];
        assert lh[..i + 1] == lh[..i] + [lh[i]] && buf[1 + i..][1..] == buf[2 + i..];
      }
      assert hb == [hb[0]] + hb[1..1 + |lh|] + hb[1 + |lh|..];
    }

    method WriteHead() returns (ok: bool)
      requires g.Valid() && Rest() && |cache.disk| == g.blocks && |lh| <= LOGSIZE
      requires |V().store[g.start]| == WORDS
      modifies cache, cache.bufs
      ensures cache.Valid() && (ok <==> Room(cache.bufs.Length, Pinned(old(V())) + q.blocks, g.start))
      ensures ok ==> Rest()
      ensures ok ==> V() == Through(old(V()), Write(g.start, PutHeader(old(V()).store[g.start], lh)))
    {
      hide State.Valid, ViewOf, AfterSave, AfterBrelse, Pinned, Room;
      var i;
      ok, i := BreadOne(g.start);
      if ok {
        var hb := FillHeader(cache.bufs[i].data);
        ThroughTame(V(), Write(g.start, hb), 0);
        SaveView(cache.s, i, g.start, hb);
        cache.Put(i, g.start, hb);
        cache.Bwrite(i, g.start);
        ReleaseSingle(cache.s, q, i, g.start);
        cache.Brelse(i, g.start);
      }
    }

    /** read_head: the in-memory header becomes the one on disk. */
    method ReadHead() returns (ok: bool)
      requires g.Valid() && Rest() && |cache.disk| == g.blocks
      requires HeaderShape(V().store[g.start])
      modifies this`lh, cache, cache.bufs
      ensures cache.Valid() && V() == old(V())
      ensures ok <==> Room(cache.bufs.Length, Pinned(old(V())) + q.blocks, g.start)
      ensures ok ==> Rest() && lh == GetHeader(V().store[g.start])
    {
      hide State.Valid, ViewOf, AfterBrelse, Pinned, Room, Settled;
      var i;
      ok, i := BreadOne(g.start);
      if ok {
        var buf := cache.bufs[i].data;
        var n := buf[0];
        lh := [];
        for k := 0 to n
          invariant lh == buf[1..1 + k]
          modifies this`lh
        {
          lh := lh + [buf[1 + k]];
        }
        ReleaseSingle(cache.s, q, i, g.start);
        cache.Brelse(i, g.start);
      }
    }

    /** memmove, bwrite, bunpin and brelse of install_trans, with the log block x and the home block y in hand. */
    method MoveHome(lbuf: nat, ghost x: nat, dbuf: nat, ghost y: nat, recovering: bool)
      requires cache.Valid() && Paired(cache.s, q, lbuf, x, dbuf, y)
      requires Settled(cache.s, lbuf, x) && y < |V().disk| && (!recovering ==> V().pins[y] > 0)
      modifies cache, cache.bufs
      ensures cache.Valid() && Held(cache.s, q, {})
      ensures var pins := old(V()).pins;
        V() == Through(old(V()), Write(y, old(V()).store[x])).(
          pins := if recovering then pins else pins[y := pins[y] - 1])
    {
      hide State.Valid, ViewOf, AfterSave, Held;
      assert {lbuf, dbuf} == {dbuf, lbuf};
      SaveView(cache.s, dbuf, y, cache.s.store[x]);
      SaveKeepsOther(cache.s, q, dbuf, y, lbuf, x, cache.s.store[x]);
      PairedTurned(cache.s, q, lbuf, x, dbuf, y);
      CopyPair(dbuf, y, lbuf, x);
      if !recovering {
        PinsOfOwned(cache.s, dbuf, y);
        UnpinKeepsOther(cache.s, q, dbuf, y, lbuf, x);
        cache.Bunpin(dbuf, y);
      }
      ReleasePair(lbuf, x, dbuf, y);
    }

    /** One turn of install_trans's loop. */
    method InstallOne(tail: nat, recovering: bool) returns (ok: bool)
      requires g.Valid() && Rest() && |cache.disk| == g.blocks && Loggable(g, lh) && tail < |lh|
      requires Elsewhere(g, q.blocks, lh)
      requires !recovering ==> V().pins[lh[tail]] > 0
      modifies cache, cache.bufs
      ensures cache.Valid()
      ensures var n, p := cache.bufs.Length, Pinned(old(V())) + q.blocks;
        ok <==> Room(n, p, g.start + tail + 1) && Room(n, p + {g.start + tail + 1}, lh[tail])
      ensures !ok ==> V() == old(V())
      ensures ok ==> Rest()
      ensures ok ==>
        var pins := old(V()).pins;
        V() == Through(old(V()), Write(lh[tail], LogAt(g, old(V()).store, tail))).(
          pins := if recovering then pins else pins[lh[tail] := pins[lh[tail]] - 1])
    {
      hide State.Valid, ViewOf, Pinned, Room, Distinct, Held, Tame, Paired;
      ghost var x, y := g.start + tail + 1, lh[tail];
      ThroughTame(V(), Write(y, V().store[x]), if recovering then 0 else V().pins[y] - 1);
      var lbuf, dbuf;
      ok, lbuf, dbuf := BreadPair(g.start + tail + 1, lh[tail]);
      if ok {
        MoveHome(lbuf, x, dbuf, y, recovering);
      }
    }

    /** Copy the committed blocks home; at commit, drop their pins. */
    method InstallTrans(recovering: bool) returns (ok: bool)
      requires g.Valid() && Rest() && |cache.disk| == g.blocks && Loggable(g, lh) && Elsewhere(g, q.blocks, lh)
      requires PinnedOnce(V(), if recovering then [] else lh)
      modifies cache, cache.bufs
      ensures cache.Valid()
      ensures ok <==> lh == [] || Enough(recovering, |lh|, |q.blocks|, cache.bufs.Length)
      ensures !ok ==> V() == old(V())
      ensures ok ==> Rest() && PinnedOnce(V(), [])
      ensures ok ==>
        var ws := Installs(lh, LogVals(g, old(V()).store, |lh|));
        V() == ThroughAll(old(V()), ws).(pins := V().pins)
    {
      hide State.Valid, ViewOf, Held, Room, Pinned, Installed, PinnedOnce, Installs, Through, ThroughAll, Loggable;
      ghost var v0 := V();
      InstalledNone(g, lh, recovering, v0);
      for tail := 0 to |lh|
        invariant Rest() && Installed(g, v0, lh, tail, recovering, V())
        invariant if tail == 0 then V() == v0 else Enough(recovering, |lh|, |q.blocks|, cache.bufs.Length)
      {
        InstalledNext(g, v0, lh, tail, recovering, V());
        InstallRoom(g, v0, lh, q.blocks, tail, recovering, V(), cache.bufs.Length);
        ok := InstallOne(tail, recovering);
        if !ok {
          return;
        }
      }
      InstalledAll(g, v0, lh, recovering, V());
      ok := true;
    }

    /** The log on disk is empty, and the readers are reading blocks that are not logged. */
    ghost predicate ReadyToCommit()
      reads this, cache, cache.bufs
    {
      && Valid() && Rest() && Elsewhere(g, q.blocks, lh)
      && Readable(g, V().disk) && Logged(g, V().disk) == []
    }

    /** The tail of commit and of recovery: install_trans, then an empty header. */
    method InstallAndErase(recovering: bool) returns (ok: bool)
      requires g.Valid() && Rest() && |cache.disk| == g.blocks && Loggable(g, lh) && Elsewhere(g, q.blocks, lh)
      requires PinnedOnce(V(), if recovering then [] else lh) && |V().store[g.start]| == WORDS
      modifies this`lh, cache, cache.bufs
      ensures cache.Valid()
      ensures ok <==>
        && |q.blocks| < cache.bufs.Length
        && (old(lh) == [] || Enough(recovering, |old(lh)|, |q.blocks|, cache.bufs.Length))
      ensures ok ==> Rest() && lh == [] && PinnedOnce(V(), [])
      ensures ok ==>
        var v := old(V());
        V() == Through(ThroughAll(v, Installs(old(lh), LogVals(g, v.store, |old(lh)|))),
                       Write(g.start, PutHeader(v.store[g.start], []))).(pins := V().pins)
    {
      hide State.Valid, ViewOf, Held, PutHeader, Installed, Distinct, Room, Pinned;
      ghost var v := V();
      ApplyElsewhere(v.store, Installs(lh, LogVals(g, v.store, |lh|)), g.start);
      ok := InstallTrans(recovering);
      if ok {
        lh := [];
        NoPinsRoom(V(), cache.bufs.Length, q.blocks, g.start);
        ok := WriteHead();
      }
    }

    /** The head of commit: write_log, then the header. */
    method LogAndHead() returns (ok: bool)
      requires ReadyToCommit() && lh != []
      modifies cache, cache.bufs
      ensures cache.Valid() && (ok <==> |lh| + |q.blocks| < cache.bufs.Length)
      ensures !ok ==> V() == old(V())
      ensures ok ==> Rest() && PinnedOnce(V(), lh)
      ensures ok ==>
        var v := old(V());
        V() == Through(ThroughAll(v, LogCopies(g, Vals(v.store, lh))), Write(g.start, PutHeader(v.store[g.start], lh)))
    {
      hide State.Valid, ViewOf, Held, PutHeader, Distinct, Tame;
      ghost var v := V();
      BlocksInUse(v, lh, q.blocks);
      ApplyElsewhere(v.store, LogCopies(g, Vals(v.store, lh)), g.start);
      ok := WriteLog();
      if ok {
        ok := WriteHead();
      }
    }

    /** The body of commit() on a non-empty transaction. */
    method CommitBlocks() returns (ok: bool)
      requires ReadyToCommit() && lh != []
      modifies this`lh, cache, cache.bufs
      ensures cache.Valid() && (ok <==> |old(lh)| + |q.blocks| < cache.bufs.Length)
      ensures !ok ==> lh == old(lh) && V() == old(V())
      ensures ok ==> Rest() && lh == [] && PinnedOnce(V(), [])
      ensures ok ==>
        var ws := CommitWrites(g, old(V()).disk[g.start], old(lh), Vals(old(V()).store, old(lh)));
        InRange(g, ws) && V() == ThroughAll(old(V()), ws).(pins := V().pins)
    {
      hide State.Valid, ViewOf, Held, PutHeader, Distinct, Apply, Installs, LogCopies, Pinned;
      ghost var v, vals := V(), Vals(V().store, lh);
      assert v.disk[g.start] == v.store[g.start];
      CommitFirstHalf(g, v.store, lh, vals);
      CommitParts(g, v, lh, vals);
      ok := LogAndHead();
      if ok {
        ok := InstallAndErase(false);
      }
    }

    /**
     commit(): the block writes it issues are those of CommitWrites, in that
     order, so a crash after any of them is covered by CommitIsAtomic.  It gets
     to its end exactly when a buffer is left beside the pinned ones and the
     readers'.
     */
    method Commit() returns (ok: bool)
      requires ReadyToCommit()
      modifies this`lh, cache, cache.bufs
      ensures ok <==> old(lh) == [] || |old(lh)| + |q.blocks| < cache.bufs.Length
      ensures !ok ==> cache.Valid() && lh == old(lh) && V() == old(V())
      ensures ok ==> ReadyToCommit() && lh == [] && V().disk == V().store
      ensures ok ==> forall b :: g.Home(b) ==> V().disk[b] == old(V()).store[b]
      ensures ok && old(lh) == [] ==> V() == old(V())
      ensures ok && old(lh) != [] ==>
        var ws := CommitWrites(g, old(V()).disk[g.start], old(lh), Vals(old(V()).store, old(lh)));
        InRange(g, ws) && V() == ThroughAll(old(V()), ws).(pins := V().pins)
    {
      hide State.Valid, ViewOf, Held, Distinct, PutHeader;
      ok := true;
      ghost var v, blocks, vals := V(), lh, Vals(V().store, lh);
      assert forall b :: 0 <= b < g.blocks && b !in lh ==> v.disk[b] == v.store[b];
      if |lh| > 0 {
        ok := CommitBlocks();
        if ok {
          CommitSettles(g, v, blocks, vals, CommitWrites(g, v.disk[g.start], blocks, vals));
        }
      }
    }

    /** recover_from_log() on a freshly booted cache: the block writes are RecoverWrites, the result is Recover. */
    method RecoverFromLog() returns (ok: bool)
      requires Valid() && Rest() && lh == [] && V().store == V().disk && Readable(g, V().disk)
      requires Elsewhere(g, q.blocks, Logged(g, V().disk))
      modifies this`lh, cache, cache.bufs
      ensures ok <==> cache.bufs.Length >= |q.blocks| + if Logged(g, old(V()).disk) == [] then 1 else 2
      ensures ok ==> ReadyToCommit() && lh == [] && V().disk == Recover(g, old(V()).disk)
      ensures ok ==> V() == ThroughAll(old(V()), RecoverWrites(g, old(V()).disk)).(pins := V().pins)
    {
      hide State.Valid, ViewOf, Held, PutHeader;
      ghost var v := V();
      RecoverParts(g, v);
      RecoverReachesFinal(g, v.disk);
      NoPinsRoom(v, cache.bufs.Length, q.blocks, g.start);
      ok := ReadHead();
      if ok {
        ok := InstallAndErase(true);
      }
    }

    // ----- Operations

    /** One pass of begin_op's loop: false is a sleep. */
    method BeginOp() returns (admitted: bool)
      requires Valid()
      modifies this`outstanding
      ensures Valid()
      ensures admitted <==> !committing && |lh| + (old(outstanding) + 1) * MAXOPBLOCKS <= LOGSIZE
      ensures outstanding == old(outstanding) + if admitted then 1 else 0
    {
      if committing {
        admitted := false;
      } else if |lh| + (outstanding + 1) * MAXOPBLOCKS > LOGSIZE {
        admitted := false;
      } else {
        outstanding := outstanding + 1;
        admitted := true;
      }
    }

    /** log_write on buffer i, held for block b: the two panics, absorption, and one pin per logged block. */
    method LogWrite(i: nat, ghost b: nat) returns (r: Outcome)
      requires Valid() && cache.s.Owns(i, b) && g.Home(b)
      modifies this`lh, cache, cache.bufs
      ensures Valid() && cache.s.Owns(i, b)
      ensures cache.s.claims == old(cache.s.claims) && cache.s.slot == old(cache.s.slot)
      ensures r == if LogSpace.Full(g.size, old(lh)) then TooBig else if outstanding < 1 then OutsideTrans else Done
      ensures r != Done ==> lh == old(lh) && V() == old(V())
      ensures r == Done ==> lh == LogSpace.AddBlock(old(lh), b) && V() == old(V()).(pins := V().pins)
    {
      if |lh| >= LOGSIZE || |lh| >= g.size - 1 {
        return TooBig;
      }
      if outstanding < 1 {
        return OutsideTrans;
      }
      var no := cache.bufs[i].blockno;
      var k := 0;
      while k < |lh| && lh[k] != no
        invariant 0 <= k <= |lh| && b !in lh[..k]
      {
        k := k + 1;
      }
      if k == |lh| {
        assert lh[..k] == lh;
        DistinctAppend(lh, b);
        lh := lh + [no];
        cache.Bpin(i, b);
      } else {
        lh := lh[k := no];
        assert lh == old(lh);
      }
      r := Done;
    }

    /** How fs.c changes a block: bread, a change to the data, log_write, brelse. */
    method Update(b: nat, data: Block) returns (r: Outcome)
      requires Valid() && Rest() && b !in q.blocks && g.Home(b) && |data| == WORDS
      modifies this`lh, cache, cache.bufs
      ensures r.OutOfBuffers? <==> !Room(cache.bufs.Length, Pinned(old(V())) + q.blocks, b)
      ensures !r.OutOfBuffers? ==>
        r == if LogSpace.Full(g.size, old(lh)) then TooBig else if outstanding < 1 then OutsideTrans else Done
      ensures r.Done? ==> Valid() && Rest() && lh == LogSpace.AddBlock(old(lh), b)
      ensures r.Done? ==> V() == old(V()).(store := old(V()).store[b := data], pins := V().pins)
    {
      hide State.Valid, ViewOf, Held, Pinned, Room, AfterBrelse, Distinct;
      var ok, i := BreadOne(b);
      if !ok {
        return OutOfBuffers;
      }
      ghost var s := cache.s;
      cache.Put(i, b, data);
      r := LogWrite(i, b);
      if r.Done? {
        SameHeld(s, cache.s, q, {i});
        PinsOfOwned(cache.s, i, b);
        ReleaseSingle(cache.s, q, i, b);
        cache.Brelse(i, b);
      }
    }

    /** end_op: the last operation out commits. */
    method EndOp() returns (r: Outcome)
      requires Valid() && outstanding > 0 && (outstanding == 1 ==> ReadyToCommit())
      modifies this, cache, cache.bufs
      ensures outstanding == old(outstanding) - 1 && q == old(q)
      ensures r == if old(committing) then Committing
                   else if outstanding == 0 && 0 < |old(lh)| && cache.bufs.Length <= |old(lh)| + |q.blocks|
                   then OutOfBuffers
                   else Done
      ensures r.Done? ==> Valid() && !committing && (outstanding == 0 ==> ReadyToCommit())
      ensures r.Committing? || outstanding > 0 ==> lh == old(lh) && cache.Valid() && cache.s == old(cache.s)
      ensures r.Done? && outstanding == 0 ==> lh == [] && V().disk == V().store
      ensures r.Done? && outstanding == 0 ==> forall b :: g.Home(b) ==> V().disk[b] == old(V()).store[b]
    {
      outstanding := outstanding - 1;
      if committing {
        return Committing;
      }
      r := Done;
      if outstanding == 0 {
        committing := true;
        var ok := Commit();
        if !ok {
          return OutOfBuffers;
        }
        committing := false;
      }
    }
  }

  /** Nobody between bread and brelse, as at boot. */
  ghost function NoReaders(nbuf: nat): Readers {
    Readers(seq(nbuf, _ => 0), {})
  }

  lemma BootIsQuiet(nbuf: nat, d: Disk)
    ensures Boot(nbuf, d).Valid() && Held(Boot(nbuf, d), NoReaders(nbuf), {})
    ensures Tame(ViewOf(Boot(nbuf, d))) && PinnedOnce(ViewOf(Boot(nbuf, d)), [])
  {
    BootIsValid(nbuf, d);
    var s := Boot(nbuf, d);
    forall b | 0 <= b < |d| ensures ViewOf(s).pins[b] == 0 {
      assert ViewOf(s).pins[b] == PinsOf(s, b);
    }
  }

  /** The blocks bs, one Update each, all in one transaction. */
  method LogAll(log: Log, bs: seq<int>, data: Block)
    requires log.ReadyToCommit() && log.lh == [] && log.q.blocks == {} && log.outstanding > 0
    requires |bs| <= LOGSIZE <= log.cache.bufs.Length && |bs| <= log.g.size - 1 && |data| == WORDS
    requires Distinct(bs) && forall i :: 0 <= i < |bs| ==> log.g.Home(bs[i])
    modifies log`lh, log.cache, log.cache.bufs
    ensures log.ReadyToCommit() && log.lh == bs
  {
    hide State.Valid, ViewOf, Held, Tame, Readable, Logged;
    for k := 0 to |bs|
      invariant log.ReadyToCommit() && log.lh == bs[..k]
    {
      assert bs[..k + 1] == bs[..k] + [bs[k]];
      assert bs[k] !in bs[..k];
      PinnedBlocks(log.V(), log.lh);
      assert Pinned(log.V()) + {} == Pinned(log.V());
      var r := log.Update(bs[k], data);
    }
  }

  /** binit and initlog on nbuf buffers. */
  method Mount(nbuf: nat, g: Geometry, d: Disk) returns (log: Log)
    requires Readable(g, d) && nbuf >= 2
    ensures fresh(log) && fresh(log.cache) && fresh(log.cache.bufs) && log.cache.bufs.Length == nbuf && log.g == g
    ensures log.ReadyToCommit() && log.lh == [] && log.outstanding == 0 && !log.committing && log.q.blocks == {}
  {
    hide State.Valid, ViewOf, Held, Tame, PinnedOnce;
    BootIsQuiet(nbuf, d);
    var cache := new Cache(nbuf, d);
    log := new Log(cache, g, NoReaders(nbuf));
    var ok := log.RecoverFromLog();
  }

  /**
   A machine with as many buffers as the log has room for: three operations
   within their MAXOPBLOCKS, on a log area of LOGSIZE + 1 blocks or more, and
   the last end_op panics in bget.
   */
  method FullTransactionPanics(g: Geometry, d: Disk, bs: seq<int>, data: Block) returns (r: Outcome)
    requires Readable(g, d) && g.size >= LOGSIZE + 1 && |data| == WORDS
    requires |bs| == LOGSIZE && Distinct(bs) && forall i :: 0 <= i < |bs| ==> g.Home(bs[i])
    ensures r.OutOfBuffers?
  {
    hide State.Valid, ViewOf, Held, Tame, PinnedOnce, Readable, Logged, Distinct;
    var log := Mount(LOGSIZE, g, d);
    var a1 := log.BeginOp();
    var a2 := log.BeginOp();
    var a3 := log.BeginOp();
    LogAll(log, bs, data);
    r := log.EndOp();
    r := log.EndOp();
    r := log.EndOp();
  }
}
