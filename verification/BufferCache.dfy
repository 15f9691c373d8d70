/**
 The buffer cache of kernel/bio.c.

 The state is a value; each function `After...` is one atomic section of the
 source: what bget does under bcache.lock, taking and dropping a buffer's
 sleep lock, the disk transfers of bread and bwrite, the list update of
 brelse.  Processes interleave these sections freely, so what `Valid` says
 holds between any two of them.  Class Cache holds the state in fields and
 carries the loops of the source.
 */
module BufferCache {
  import opened RedoLog
  import opened Common

  /** The device the file system is mounted on; the driver serves no other. */
  const ROOTDEV: nat := 1

  datatype Buf = Buf(valid: bool, dev: nat, blockno: nat, locked: bool, refcnt: nat, data: Block)
  {
    /** The buffer caches block b. */
    predicate For(b: nat) {
      dev == ROOTDEV && blockno == b
    }
  }

  /**
   `lru` is the list through next and prev, from head.next to head.prev.
   The rest is the specification: `slot`, the buffer of each cached block;
   `store`, what each block reads as;
   `claims`, the bget calls not yet matched by brelse, and `pins`, both per
   buffer; `writes`, every block write issued; `stamp`, when each buffer last
   fell out of use.
   */
  datatype State = State(
    bufs: seq<Buf>,
    lru: seq<nat>,
    disk: Disk,
    slot: map<nat, nat>,
    store: Disk,
    claims: seq<nat>,
    pins: seq<nat>,
    writes: seq<Write>,
    stamp: seq<int>,
    clock: int)
  {
    /** The list is a permutation of the buffers, most recently used first. */
    ghost predicate ListOk() {
      && |lru| == |bufs| == |stamp|
      && (forall k :: 0 <= k < |lru| ==> lru[k] < |bufs|)
      && (forall k, l :: 0 <= k < l < |lru| ==> stamp[lru[k]] > stamp[lru[l]])
      && (forall i :: 0 <= i < |bufs| ==> i in lru)
      && (forall i :: 0 <= i < |stamp| ==> stamp[i] <= clock)
    }

    /** Cached blocks and the buffers caching them correspond one to one. */
    ghost predicate SlotsOk() {
      && (forall i :: 0 <= i < |bufs| && bufs[i].dev == ROOTDEV ==>
            bufs[i].blockno in slot && slot[bufs[i].blockno] == i)
      && (forall b :: b in slot ==> slot[b] < |bufs| && bufs[slot[b]].For(b) && b < |disk|)
    }

    /** Reference counts are claims plus pins; only a claimed buffer is locked. */
    ghost predicate CountsOk() {
      && |claims| == |pins| == |bufs|
      && (forall i :: 0 <= i < |bufs| ==> bufs[i].refcnt == claims[i] + pins[i])
      && (forall i :: 0 <= i < |bufs| && bufs[i].locked ==> claims[i] > 0)
      && (forall i :: 0 <= i < |bufs| && bufs[i].dev != ROOTDEV ==> bufs[i].refcnt == 0)
    }

    /** Block b has contents newer than the disk, and a buffer that keeps them. */
    ghost predicate Kept(b: nat) {
      b in slot && slot[b] < |bufs| == |pins| && bufs[slot[b]].valid && (bufs[slot[b]].locked || pins[slot[b]] > 0)
    }

    /** Valid buffers hold what the block reads as; contents newer than the disk are kept. */
    ghost predicate ContentsOk() {
      && |disk| == |store|
      && (forall i :: 0 <= i < |bufs| && bufs[i].dev == ROOTDEV && bufs[i].valid ==>
            bufs[i].blockno < |store| && bufs[i].data == store[bufs[i].blockno])
      && (forall b :: 0 <= b < |disk| && disk[b] != store[b] ==> Kept(b))
    }

    ghost predicate Valid() {
      ListOk() && SlotsOk() && CountsOk() && ContentsOk()
    }

    ghost predicate Clean(b: nat) {
      b < |disk| && b < |store| && disk[b] == store[b]
    }

    /** Buffer i is claimed for block b. */
    ghost predicate Has(i: nat, b: nat) {
      i < |bufs| == |claims| == |pins| && bufs[i].For(b) && claims[i] > 0
    }

    /** Buffer i is locked and filled: the state in which bread returns it. */
    ghost predicate Owns(i: nat, b: nat) {
      Has(i, b) && bufs[i].locked && bufs[i].valid
    }

    // ----- The atomic sections

    /** bget under bcache.lock, choosing buffer i. */
    function AfterClaim(i: nat, b: nat): State
      requires i < |bufs| == |claims|
    {
      this.(claims := claims[i := claims[i] + 1],
            slot := if bufs[i].For(b) then slot else Evict(slot, bufs[i])[b := i],
            bufs := bufs[i := if bufs[i].For(b) then bufs[i].(refcnt := bufs[i].refcnt + 1)
                              else bufs[i].(dev := ROOTDEV, blockno := b, valid := false, refcnt := 1)])
    }

    /** acquiresleep(&b->lock) */
    function AfterLock(i: nat): State
      requires i < |bufs|
    {
      this.(bufs := bufs[i := bufs[i].(locked := true)])
    }

    /** bread after bget: read the disk if the buffer is not valid. */
    function AfterFill(i: nat): State
      requires i < |bufs| && bufs[i].blockno < |disk|
    {
      if bufs[i].valid then this
      else this.(bufs := bufs[i := bufs[i].(data := disk[bufs[i].blockno], valid := true)])
    }

    /** The caller changes b->data. */
    function AfterPut(i: nat, v: Block): State
      requires i < |bufs| && bufs[i].blockno < |store|
    {
      this.(bufs := bufs[i := bufs[i].(data := v)], store := store[bufs[i].blockno := v])
    }

    function AfterWrite(i: nat): State
      requires i < |bufs| && bufs[i].blockno < |disk|
    {
      this.(disk := disk[bufs[i].blockno := bufs[i].data],
            writes := writes + [Write(bufs[i].blockno, bufs[i].data)])
    }

    /** releasesleep(&b->lock) */
    function AfterUnlock(i: nat): State
      requires i < |bufs|
    {
      this.(bufs := bufs[i := bufs[i].(locked := false)])
    }

    /** b->refcnt-- in brelse */
    function AfterDrop(i: nat): State
      requires i < |bufs| == |claims| && claims[i] > 0 && bufs[i].refcnt > 0
    {
      this.(claims := claims[i := claims[i] - 1],
            bufs := bufs[i := bufs[i].(refcnt := bufs[i].refcnt - 1)])
    }

    /** The relinking at the end of brelse. */
    function ToFront(i: nat): State
      requires i < |bufs| == |stamp|
    {
      this.(lru := MoveToFront(lru, i), stamp := stamp[i := clock + 1], clock := clock + 1)
    }

    /** brelse under bcache.lock: a buffer no one uses moves to the head of the list. */
    function AfterUnref(i: nat): State
      requires i < |bufs| == |stamp| == |claims| && claims[i] > 0 && bufs[i].refcnt > 0
    {
      if bufs[i].refcnt > 1 then AfterDrop(i) else AfterDrop(i).ToFront(i)
    }

    function AfterPin(i: nat): State
      requires i < |bufs| == |pins|
    {
      this.(bufs := bufs[i := bufs[i].(refcnt := bufs[i].refcnt + 1)],
            pins := pins[i := pins[i] + 1])
    }

    function AfterUnpin(i: nat): State
      requires i < |bufs| == |pins| && pins[i] > 0 && bufs[i].refcnt > 0
    {
      this.(bufs := bufs[i := bufs[i].(refcnt := bufs[i].refcnt - 1)],
            pins := pins[i := pins[i] - 1])
    }
  }

  function MoveToFront(s: seq<nat>, x: nat): seq<nat> {
    [x] + Remove(s, x)
  }

  function Evict(slot: map<nat, nat>, buf: Buf): map<nat, nat> {
    map b | b in slot && !buf.For(b) :: slot[b]
  }

  // ----- Each section keeps the cache valid

  lemma ClaimHitKeepsValid(s: State, i: nat, b: nat)
    requires s.Valid() && i < |s.bufs| && s.bufs[i].For(b)
    ensures s.AfterClaim(i, b).Valid() && s.AfterClaim(i, b).Has(i, b)
  {
  }

  lemma ClaimMissKeepsSlots(s: State, i: nat, b: nat)
    requires s.SlotsOk() && i < |s.bufs| == |s.claims| && b < |s.disk| && b !in s.slot
    ensures s.AfterClaim(i, b).SlotsOk()
  {
  }

  lemma ClaimMissKeepsContents(s: State, i: nat, b: nat)
    requires s.SlotsOk() && s.CountsOk() && s.ContentsOk()
    requires i < |s.bufs| && b < |s.disk| && b !in s.slot && s.bufs[i].refcnt == 0
    ensures s.AfterClaim(i, b).ContentsOk()
  {
    var t := s.AfterClaim(i, b);
    forall c | 0 <= c < |t.disk| && t.disk[c] != t.store[c] ensures t.Kept(c) {
      assert s.Kept(c);
      assert s.slot[c] != i;
    }
  }

  /** Recycling is safe: the buffer is in no one's hands and its contents are on disk. */
  lemma ClaimMissKeepsValid(s: State, i: nat, b: nat)
    requires s.Valid() && i < |s.bufs| && b < |s.disk|
    requires b !in s.slot && s.bufs[i].refcnt == 0
    ensures !s.bufs[i].For(b) && s.AfterClaim(i, b).Valid() && s.AfterClaim(i, b).Has(i, b)
  {
    ClaimMissKeepsSlots(s, i, b);
    ClaimMissKeepsContents(s, i, b);
  }

  lemma LockKeepsValid(s: State, i: nat, b: nat)
    requires s.Valid() && s.Has(i, b) && !s.bufs[i].locked
    ensures s.AfterLock(i).Valid() && s.AfterLock(i).Has(i, b)
  {
  }

  /** A buffer that is not valid belongs to a block whose last contents are on disk. */
  lemma FillKeepsValid(s: State, i: nat, b: nat)
    requires s.Valid() && s.Has(i, b) && s.bufs[i].locked
    ensures s.AfterFill(i).Valid() && s.AfterFill(i).Owns(i, b)
    ensures s.AfterFill(i).bufs[i].data == s.store[b]
  {
  }

  lemma PutKeepsValid(s: State, i: nat, b: nat, v: Block)
    requires s.Valid() && s.Owns(i, b)
    ensures s.AfterPut(i, v).Valid() && s.AfterPut(i, v).Owns(i, b)
  {
  }

  lemma WriteKeepsValid(s: State, i: nat, b: nat)
    requires s.Valid() && s.Owns(i, b)
    ensures s.AfterWrite(i).Valid() && s.AfterWrite(i).Owns(i, b) && s.AfterWrite(i).Clean(b)
  {
  }

  /** Buffer i may be let go: what its block was changed to has been logged (pinned) or written. */
  ghost predicate Settled(s: State, i: nat, b: nat) {
    s.Clean(b) || (i < |s.pins| && s.pins[i] > 0)
  }

  /** brelse, first half: all stays well exactly when the client has logged or written what it changed. */
  lemma UnlockKeepsValid(s: State, i: nat, b: nat)
    requires s.Valid() && s.Owns(i, b)
    ensures s.AfterUnlock(i).Has(i, b) && (s.AfterUnlock(i).Valid() <==> Settled(s, i, b))
  {
    var t := s.AfterUnlock(i);
    assert t.Kept(b) <==> s.pins[i] > 0;
  }

  lemma PinKeepsValid(s: State, i: nat, b: nat)
    requires s.Valid() && s.Owns(i, b)
    ensures s.AfterPin(i).Valid() && s.AfterPin(i).Owns(i, b)
  {
  }

  lemma UnpinKeepsValid(s: State, i: nat, b: nat)
    requires s.Valid() && s.Owns(i, b) && s.pins[i] > 0
    ensures s.AfterUnpin(i).Valid() && s.AfterUnpin(i).Owns(i, b)
  {
  }

  lemma MoveToFrontPermutes(s: seq<nat>, k: nat, x: nat)
    requires k < |s| && s[k] == x && forall l :: 0 <= l < k ==> s[l] != x
    ensures |MoveToFront(s, x)| == |s| && MoveToFront(s, x)[0] == x
    ensures forall l :: 0 < l <= k ==> MoveToFront(s, x)[l] == s[l - 1]
    ensures forall l :: k < l < |s| ==> MoveToFront(s, x)[l] == s[l]
    ensures forall y :: y in s ==> y in MoveToFront(s, x)
  {
    RemoveAt(s, k);
    var t := MoveToFront(s, x);
    assert t == [x] + (s[..k] + s[k + 1..]);
    forall y | y in s ensures y in t {
      var l :| 0 <= l < |s| && s[l] == y;
      assert t[if l < k then l + 1 else if l == k then 0 else l] == y;
    }
  }

  lemma ToFrontKeepsList(s: State, i: nat)
    requires s.ListOk() && i < |s.bufs|
    ensures s.ToFront(i).ListOk()
  {
    assert i in s.lru;
    var k :| 0 <= k < |s.lru| && s.lru[k] == i;
    MoveToFrontPermutes(s.lru, k, i);
  }

  lemma ToFrontKeepsValid(s: State, i: nat)
    requires s.Valid() && i < |s.bufs|
    ensures s.ToFront(i).Valid()
  {
    ToFrontKeepsList(s, i);
  }

  lemma DropKeepsValid(s: State, i: nat, b: nat)
    requires s.Valid() && s.Has(i, b) && (s.bufs[i].locked ==> s.claims[i] > 1)
    ensures s.bufs[i].refcnt > 0 && s.AfterDrop(i).Valid()
  {
  }

  /** brelse, second half: this claim on the buffer ends. */
  lemma UnrefKeepsValid(s: State, i: nat, b: nat)
    requires s.Valid() && s.Has(i, b) && (s.bufs[i].locked ==> s.claims[i] > 1)
    ensures s.bufs[i].refcnt > 0 && s.AfterUnref(i).Valid()
  {
    DropKeepsValid(s, i, b);
    ToFrontKeepsValid(s.AfterDrop(i), i);
  }

  // ----- What validity means to a caller

  /** At most one buffer per block. */
  lemma OneBufferPerBlock(s: State, i: nat, j: nat)
    requires s.Valid() && i < |s.bufs| && j < |s.bufs|
    requires s.bufs[i].dev == ROOTDEV && s.bufs[j].dev == ROOTDEV && s.bufs[i].blockno == s.bufs[j].blockno
    ensures i == j
  {
    assert s.slot[s.bufs[i].blockno] == i;
  }

  /** A block someone claims or pins stays in its buffer, whatever section runs next. */
  lemma PinnedIsNotRecycled(s: State, i: nat, b: nat, j: nat, c: nat)
    requires s.Valid() && i < |s.bufs| && j < |s.bufs| && c < |s.disk|
    requires s.bufs[i].For(b) && s.claims[i] + s.pins[i] > 0
    requires s.bufs[j].For(c) || (c !in s.slot && s.bufs[j].refcnt == 0)
    ensures s.AfterClaim(j, c).bufs[i].For(b)
    ensures s.AfterClaim(j, c).bufs[i].(refcnt := 0) == s.bufs[i].(refcnt := 0)
  {
    assert s.slot[b] == i;
  }

  /**
   What happens otherwise: once the buffer has been recycled for some block c,
   the next bread of b, into whatever buffer j, finds the old contents.
   */
  lemma UnsettledIsForgotten(s: State, i: nat, b: nat, c: nat, j: nat)
    requires s.Valid() && s.Owns(i, b) && !Settled(s, i, b) && s.claims[i] == 1
    requires c < |s.disk| && c != b && j < |s.bufs|
    ensures var t := s.AfterUnlock(i);
      && t.claims[i] > 0 && t.bufs[i].refcnt > 0 && t.AfterUnref(i).bufs[i].refcnt == 0
      && var u := t.AfterUnref(i).AfterClaim(i, c);
      && b < |s.store| == |s.disk|
      && u.AfterClaim(j, b).AfterLock(j).AfterFill(j).bufs[j].data == s.disk[b] != s.store[b]
  {
    assert s.slot[b] == i;
    assert s.bufs[j].For(b) ==> j == i;
  }

  // ----- Running out of buffers

  /** The blocks in use, buffer by buffer. */
  ghost function UsedBlocks(bufs: seq<Buf>): set<nat> {
    if bufs == [] then {}
    else
      var last := bufs[|bufs| - 1];
      UsedBlocks(bufs[..|bufs| - 1]) + if last.refcnt > 0 then {last.blockno} else {}
  }

  lemma {:induction false} UsedBlocksElements(bufs: seq<Buf>, b: nat)
    ensures b in UsedBlocks(bufs) <==> exists i :: 0 <= i < |bufs| && bufs[i].refcnt > 0 && bufs[i].blockno == b
  {
    if bufs != [] {
      UsedBlocksElements(bufs[..|bufs| - 1], b);
    }
  }

  lemma {:induction false} UsedBlocksSize(bufs: seq<Buf>)
    requires forall i, j :: 0 <= i < j < |bufs| && bufs[i].refcnt > 0 && bufs[j].refcnt > 0 ==>
      bufs[i].blockno != bufs[j].blockno
    ensures |UsedBlocks(bufs)| <= |bufs|
    ensures |UsedBlocks(bufs)| == |bufs| <==> forall i :: 0 <= i < |bufs| ==> bufs[i].refcnt > 0
  {
    if bufs != [] {
      var n := |bufs| - 1;
      UsedBlocksSize(bufs[..n]);
      UsedBlocksElements(bufs[..n], bufs[n].blockno);
      if |UsedBlocks(bufs)| == |bufs| {
        assert |UsedBlocks(bufs[..n])| == n;
        assert forall i :: 0 <= i < n ==> bufs[..n][i].refcnt > 0;
      }
    }
  }

  lemma AllInUse(s: State)
    requires s.SlotsOk() && s.CountsOk()
    ensures |UsedBlocks(s.bufs)| <= |s.bufs|
    ensures |UsedBlocks(s.bufs)| == |s.bufs| <==> forall i :: 0 <= i < |s.bufs| ==> s.bufs[i].refcnt > 0
  {
    UsedBlocksSize(s.bufs);
  }

  lemma UsedExactly(s: State)
    requires s.Valid()
    ensures |UsedBlocks(s.bufs)| == |s.bufs| <==> forall i :: 0 <= i < |s.bufs| ==> s.bufs[i].refcnt > 0
    ensures |s.claims| == |s.bufs|
  {
    AllInUse(s);
  }

  /** Buffer i is the least recently used one not in use. */
  ghost predicate IsVictim(s: State, i: nat) {
    && |s.stamp| == |s.bufs| && i < |s.bufs| && s.bufs[i].refcnt == 0
    && forall j :: 0 <= j < |s.bufs| && s.bufs[j].refcnt == 0 ==> s.stamp[i] <= s.stamp[j]
  }

  // ----- Runs of any number of processes

  datatype Event =
    | Claim(i: nat, b: nat)
    | Lock(i: nat, b: nat)
    | Fill(i: nat, b: nat)
    | Put(i: nat, b: nat, v: Block)
    | WriteBack(i: nat, b: nat)
    | Unlock(i: nat, b: nat)
    | Unref(i: nat, b: nat)
    | Pin(i: nat, b: nat)
    | Unpin(i: nat, b: nat)

  /** What the source and its locks allow. */
  ghost predicate Enabled(s: State, e: Event) {
    match e
    case Claim(i, b) =>
      b < |s.disk| && i < |s.bufs| == |s.claims| && (s.bufs[i].For(b) || (b !in s.slot && IsVictim(s, i)))
    case Lock(i, b) => s.Has(i, b) && !s.bufs[i].locked
    case Fill(i, b) => s.Has(i, b) && s.bufs[i].locked && b < |s.disk|
    case Put(i, b, v) => s.Owns(i, b) && b < |s.store|
    case WriteBack(i, b) => s.Owns(i, b) && b < |s.disk|
    case Unlock(i, b) => s.Owns(i, b)
    case Unref(i, b) =>
      s.Has(i, b) && (s.bufs[i].locked ==> s.claims[i] > 1) && s.bufs[i].refcnt > 0 && |s.stamp| == |s.bufs|
    case Pin(i, b) => s.Owns(i, b)
    case Unpin(i, b) => s.Owns(i, b) && s.pins[i] > 0 && s.bufs[i].refcnt > 0
  }

  ghost function Step(s: State, e: Event): State
    requires Enabled(s, e)
  {
    match e
    case Claim(i, b) => s.AfterClaim(i, b)
    case Lock(i, b) => s.AfterLock(i)
    case Fill(i, b) => s.AfterFill(i)
    case Put(i, b, v) => s.AfterPut(i, v)
    case WriteBack(i, b) => s.AfterWrite(i)
    case Unlock(i, b) => s.AfterUnlock(i)
    case Unref(i, b) => s.AfterUnref(i)
    case Pin(i, b) => s.AfterPin(i)
    case Unpin(i, b) => s.AfterUnpin(i)
  }

  /** The one thing asked of clients: to log or write what they changed before they let go. */
  ghost predicate Tidy(s: State, e: Event) {
    e.Unlock? ==> Settled(s, e.i, e.b)
  }

  lemma StepKeepsValidExactlyWhen(s: State, e: Event)
    requires s.Valid() && Enabled(s, e)
    ensures Step(s, e).Valid() <==> Tidy(s, e)
  {
    match e
    case Claim(i, b) =>
      if s.bufs[i].For(b) {
        ClaimHitKeepsValid(s, i, b);
      } else {
        ClaimMissKeepsValid(s, i, b);
      }
    case Lock(i, b) => LockKeepsValid(s, i, b);
    case Fill(i, b) => FillKeepsValid(s, i, b);
    case Put(i, b, v) => PutKeepsValid(s, i, b, v);
    case WriteBack(i, b) => WriteKeepsValid(s, i, b);
    case Unlock(i, b) => UnlockKeepsValid(s, i, b);
    case Unref(i, b) => UnrefKeepsValid(s, i, b);
    case Pin(i, b) => PinKeepsValid(s, i, b);
    case Unpin(i, b) => UnpinKeepsValid(s, i, b);
  }

  lemma StepStores(s: State, e: Event)
    requires s.Valid() && Enabled(s, e)
    ensures e.Put? ==> e.b < |s.store|
    ensures Step(s, e).store == if e.Put? then s.store[e.b := e.v] else s.store
    ensures |Step(s, e).disk| == |s.disk|
  {
  }

  /** binit: every buffer linked in at the head, so the last one comes first. */
  ghost function Boot(nbuf: nat, d: Disk): State {
    State(seq(nbuf, i => Buf(false, 0, 0, false, 0, [])), seq(nbuf, k => if k < nbuf then nbuf - 1 - k else 0),
          d, map[], d, seq(nbuf, i => 0), seq(nbuf, i => 0), [], seq(nbuf, i => i), nbuf)
  }

  lemma BootIsValid(nbuf: nat, d: Disk)
    ensures Boot(nbuf, d).Valid()
  {
    var s := Boot(nbuf, d);
    forall i | 0 <= i < nbuf ensures i in s.lru {
      assert s.lru[nbuf - 1 - i] == i;
    }
  }

  ghost predicate IsRun(nbuf: nat, d: Disk, ss: seq<State>, es: seq<Event>) {
    && |ss| == |es| + 1 && ss[0] == Boot(nbuf, d)
    && forall k :: 0 <= k < |es| ==>
         Enabled(ss[k], es[k]) && Tidy(ss[k], es[k]) && ss[k + 1] == Step(ss[k], es[k])
  }

  /** The last contents a process put in a buffer of block b, or the disk the machine booted with. */
  ghost function LastPut(d: Disk, es: seq<Event>, b: nat): Block
    requires b < |d|
  {
    if es == [] then d[b]
    else
      var e := es[|es| - 1];
      if e.Put? && e.b == b then e.v else LastPut(d, es[..|es| - 1], b)
  }

  lemma {:induction false} RunKeepsValid(nbuf: nat, d: Disk, ss: seq<State>, es: seq<Event>, k: nat)
    requires IsRun(nbuf, d, ss, es) && k <= |es|
    ensures ss[k].Valid()
  {
    if k == 0 {
      BootIsValid(nbuf, d);
    } else {
      RunKeepsValid(nbuf, d, ss, es, k - 1);
      StepKeepsValidExactlyWhen(ss[k - 1], es[k - 1]);
    }
  }

  lemma RunStepStores(nbuf: nat, d: Disk, ss: seq<State>, es: seq<Event>, k: nat)
    requires IsRun(nbuf, d, ss, es) && k < |es|
    ensures |ss[k].disk| == |ss[k].store|
    ensures es[k].Put? ==> es[k].b < |ss[k].store|
    ensures ss[k + 1].store == if es[k].Put? then ss[k].store[es[k].b := es[k].v] else ss[k].store
  {
    RunKeepsValid(nbuf, d, ss, es, k);
    StepStores(ss[k], es[k]);
  }

  /** After k events every block reads as the last contents put. */
  lemma {:induction false} RunStores(nbuf: nat, d: Disk, ss: seq<State>, es: seq<Event>, k: nat)
    requires IsRun(nbuf, d, ss, es) && k <= |es|
    ensures |ss[k].store| == |d|
    ensures forall b :: 0 <= b < |d| ==> ss[k].store[b] == LastPut(d, es[..k], b)
  {
    if k > 0 {
      RunStores(nbuf, d, ss, es, k - 1);
      RunStepStores(nbuf, d, ss, es, k - 1);
      assert es[..k][..k - 1] == es[..k - 1];
    }
  }

  /**
   The cache agrees with a simple store.  At every point of every run, a
   process that has a block locked and filled sees the last contents any
   process put there, however often the buffer was recycled in between; and a
   block nobody is changing or has pinned reads the same from the disk.
   */
  lemma CacheAgreesWithStore(nbuf: nat, d: Disk, ss: seq<State>, es: seq<Event>, k: nat, i: nat, b: nat)
    requires IsRun(nbuf, d, ss, es) && k <= |es| && b < |d|
    ensures ss[k].Owns(i, b) ==> ss[k].bufs[i].data == LastPut(d, es[..k], b)
    ensures !ss[k].Kept(b) ==> |ss[k].disk| == |d| && ss[k].disk[b] == LastPut(d, es[..k], b)
  {
    RunKeepsValid(nbuf, d, ss, es, k);
    RunStores(nbuf, d, ss, es, k);
  }

  // ----- Which buffer is recycled

  /** Buffer i fell out of use by the event between s and t. */
  predicate Fell(s: State, t: State, i: nat) {
    i < |s.bufs| && i < |t.bufs| && s.bufs[i].refcnt > 0 && t.bufs[i].refcnt == 0
  }

  /** When buffer i last fell out of use, by events; before the first one, the order in which binit linked them. */
  ghost function LastUse(ss: seq<State>, k: nat, i: nat): int
    requires k < |ss|
  {
    if k == 0 then i - |ss[0].bufs| else if Fell(ss[k - 1], ss[k], i) then k else LastUse(ss, k - 1, i)
  }

  lemma {:induction false} LastUseBound(ss: seq<State>, k: nat, i: nat)
    requires k < |ss| && i < |ss[0].bufs|
    ensures LastUse(ss, k, i) <= k
  {
    if k > 0 {
      LastUseBound(ss, k - 1, i);
    }
  }

  /** A step stamps exactly the buffer that falls out of use by it, with the latest time. */
  lemma StepStamps(s: State, e: Event, i: nat)
    requires s.Valid() && Enabled(s, e) && i < |s.bufs|
    ensures var t := Step(s, e);
      && |t.bufs| == |t.stamp| == |s.bufs| == |s.stamp|
      && (if Fell(s, t, i) then t.stamp[i] > s.clock && e.i == i else t.stamp[i] == s.stamp[i] <= s.clock)
  {
  }

  lemma {:induction false} SameBuffers(nbuf: nat, d: Disk, ss: seq<State>, es: seq<Event>, k: nat)
    requires IsRun(nbuf, d, ss, es) && k <= |es|
    ensures |ss[k].bufs| == nbuf
    decreases k
  {
    if k > 0 {
      SameBuffers(nbuf, d, ss, es, k - 1);
    }
  }

  lemma RunStarts(nbuf: nat, d: Disk, ss: seq<State>, es: seq<Event>)
    requires IsRun(nbuf, d, ss, es)
    ensures |ss| == |es| + 1 && |ss[0].bufs| == |ss[0].stamp| == nbuf
    ensures forall i :: 0 <= i < nbuf ==> ss[0].stamp[i] == i
  {
  }

  lemma RunStep(nbuf: nat, d: Disk, ss: seq<State>, es: seq<Event>, k: nat)
    requires IsRun(nbuf, d, ss, es) && k < |es|
    ensures k + 1 < |ss| && ss[k].Valid() && Enabled(ss[k], es[k]) && ss[k + 1] == Step(ss[k], es[k])
  {
    RunKeepsValid(nbuf, d, ss, es, k);
  }

  lemma {:induction false} StampsAreUses(nbuf: nat, d: Disk, ss: seq<State>, es: seq<Event>, k: nat, i: nat, j: nat)
    requires IsRun(nbuf, d, ss, es) && k <= |es| && i < nbuf && j < nbuf
    ensures |ss[k].bufs| == |ss[k].stamp| == nbuf
    ensures LastUse(ss, k, i) < LastUse(ss, k, j) <==> ss[k].stamp[i] < ss[k].stamp[j]
    decreases k
  {
    hide IsRun, State.Valid, Step, Enabled, Boot;
    RunStarts(nbuf, d, ss, es);
    if k > 0 {
      RunStep(nbuf, d, ss, es, k - 1);
      StampsAreUses(nbuf, d, ss, es, k - 1, i, j);
      StepStamps(ss[k - 1], es[k - 1], i);
      StepStamps(ss[k - 1], es[k - 1], j);
      LastUseBound(ss, k - 1, i);
      LastUseBound(ss, k - 1, j);
    }
  }

  /** In every run, the buffer bget recycles is, of those nobody uses, the one that fell out of use first. */
  lemma VictimIsOldest(nbuf: nat, d: Disk, ss: seq<State>, es: seq<Event>, k: nat, j: nat)
    requires IsRun(nbuf, d, ss, es) && k < |es| && es[k].Claim? && es[k].i < |ss[k].bufs|
    requires !ss[k].bufs[es[k].i].For(es[k].b)
    ensures ss[k].bufs[es[k].i].refcnt == 0
    ensures j < |ss[k].bufs| && ss[k].bufs[j].refcnt == 0 ==> LastUse(ss, k, es[k].i) <= LastUse(ss, k, j)
  {
    SameBuffers(nbuf, d, ss, es, k);
    if j < nbuf {
      StampsAreUses(nbuf, d, ss, es, k, j, es[k].i);
    }
  }

  // ----- The cache as its caller sees it

  /** Disk, readable contents, block writes issued, pins per block: no buffers, no list. */
  datatype View = View(disk: Disk, store: Disk, writes: seq<Write>, pins: seq<nat>)

  /** Write w reaches the cached contents and the disk. */
  ghost function Through(v: View, w: Write): View
    requires w.block < |v.disk| == |v.store|
  {
    v.(disk := v.disk[w.block := w.data], store := v.store[w.block := w.data], writes := v.writes + [w])
  }

  ghost function PinsOf(s: State, b: nat): nat
    requires s.SlotsOk() && s.CountsOk()
  {
    if b in s.slot then s.pins[s.slot[b]] else 0
  }

  ghost function ViewOf(s: State): (v: View)
    requires s.Valid()
    ensures v.disk == s.disk && v.store == s.store && v.writes == s.writes
    ensures |v.pins| == |v.disk| == |v.store|
    ensures forall b :: 0 <= b < |v.pins| ==> v.pins[b] == PinsOf(s, b)
  {
    View(s.disk, s.store, s.writes, seq(|s.disk|, b requires 0 <= b < |s.disk| => PinsOf(s, b)))
  }

  /** Nothing about buffers other than i changed. */
  ghost predicate OnlyAt(i: nat, s: State, t: State) {
    && |t.bufs| == |s.bufs| == |t.claims| == |s.claims| == |t.pins| == |s.pins| && i < |s.bufs|
    && t.bufs == s.bufs[i := t.bufs[i]]
    && t.claims == s.claims[i := t.claims[i]]
    && t.pins == s.pins[i := t.pins[i]]
  }

  /** What other processes are between bread and brelse with: their claims per buffer, and those blocks. */
  datatype Readers = Readers(claims: seq<nat>, blocks: set<nat>)

  /** The claims are those of the readers q and one on each buffer of hs. */
  ghost predicate Held(s: State, q: Readers, hs: set<nat>) {
    && |q.claims| == |s.claims|
    && (forall i :: 0 <= i < |s.claims| ==> s.claims[i] == q.claims[i] + if i in hs then 1 else 0)
    && (forall b: nat {:trigger ReaderOf(s, q, b)} {:trigger b in q.blocks} :: b in q.blocks <==> ReaderOf(s, q, b))
  }

  /** Only pinned blocks have contents newer than the disk: nobody is in the middle of a change. */
  ghost predicate Tame(v: View) {
    && |v.disk| == |v.store| == |v.pins|
    && forall b :: 0 <= b < |v.disk| && v.disk[b] != v.store[b] ==> v.pins[b] > 0
  }

  lemma ClaimKeepsView(s: State, i: nat, b: nat)
    requires s.Valid() && i < |s.bufs| && b < |s.disk|
    requires s.bufs[i].For(b) || (b !in s.slot && s.bufs[i].refcnt == 0)
    requires s.AfterClaim(i, b).Valid()
    ensures ViewOf(s.AfterClaim(i, b)) == ViewOf(s)
  {
    var t := s.AfterClaim(i, b);
    forall c | 0 <= c < |s.disk| ensures PinsOf(t, c) == PinsOf(s, c) {
    }
  }

  lemma FillKeepsView(s: State, i: nat)
    requires s.Valid() && i < |s.bufs| && s.bufs[i].blockno < |s.disk|
    requires s.AfterLock(i).Valid() && s.AfterLock(i).AfterFill(i).Valid()
    ensures ViewOf(s.AfterLock(i).AfterFill(i)) == ViewOf(s)
  {
  }

  /** What bread comes to: a buffer, a wait for a locked one, or the panic. */
  datatype Answer = Got(i: nat) | Waits(i: nat) | NoBuffers

  /** bread as a whole, on buffer i. */
  ghost function AfterBread(s: State, i: nat, b: nat): State
    requires i < |s.bufs| == |s.claims| && b < |s.disk|
  {
    s.AfterClaim(i, b).AfterLock(i).AfterFill(i)
  }

  lemma BreadOnly(s: State, i: nat, b: nat)
    requires s.Valid() && i < |s.bufs| && b < |s.disk|
    ensures OnlyAt(i, s, AfterBread(s, i, b)) && AfterBread(s, i, b).claims[i] == s.claims[i] + 1
  {
  }

  lemma BreadView(s: State, i: nat, b: nat)
    requires s.Valid() && i < |s.bufs| && b < |s.disk|
    requires s.bufs[i].For(b) || (b !in s.slot && s.bufs[i].refcnt == 0)
    requires !s.bufs[i].locked
    ensures AfterBread(s, i, b).Valid() && ViewOf(AfterBread(s, i, b)) == ViewOf(s)
    ensures AfterBread(s, i, b).Owns(i, b) && AfterBread(s, i, b).bufs[i].data == s.store[b]
  {
    if s.bufs[i].For(b) {
      ClaimHitKeepsValid(s, i, b);
    } else {
      ClaimMissKeepsValid(s, i, b);
    }
    ClaimKeepsView(s, i, b);
    var t := s.AfterClaim(i, b);
    LockKeepsValid(t, i, b);
    FillKeepsValid(t.AfterLock(i), i, b);
    FillKeepsView(t, i);
  }

  /** From s to t, bread got buffer i for block b, whose contents it holds. */
  ghost predicate Fetched(s: State, t: State, i: nat, b: nat) {
    && OnlyAt(i, s, t) && t.claims[i] == s.claims[i] + 1 && (s.bufs[i].For(b) || s.bufs[i].refcnt == 0)
    && t.Owns(i, b) && b < |t.store| && t.bufs[i].data == t.store[b]
    && UsedBlocks(t.bufs) == UsedBlocks(s.bufs) + {b}
  }

  lemma PutView(s: State, i: nat, b: nat, v: Block)
    requires s.Valid() && s.Owns(i, b) && s.AfterPut(i, v).Valid()
    ensures ViewOf(s.AfterPut(i, v)) == ViewOf(s).(store := s.store[b := v])
  {
  }

  lemma WriteView(s: State, i: nat, b: nat)
    requires s.Valid() && s.Owns(i, b) && s.AfterWrite(i).Valid()
    ensures ViewOf(s.AfterWrite(i)) ==
      ViewOf(s).(disk := s.disk[b := s.store[b]], writes := s.writes + [Write(b, s.store[b])])
  {
  }

  lemma UnlockKeepsView(s: State, i: nat)
    requires s.Valid() && i < |s.bufs| && s.AfterUnlock(i).Valid()
    ensures ViewOf(s.AfterUnlock(i)) == ViewOf(s)
  {
  }

  lemma UnrefKeepsView(s: State, i: nat)
    requires s.Valid() && i < |s.bufs| && s.claims[i] > 0 && s.bufs[i].refcnt > 0 && s.AfterUnref(i).Valid()
    ensures ViewOf(s.AfterUnref(i)) == ViewOf(s)
  {
  }

  /** brelse as a whole. */
  ghost function AfterBrelse(s: State, i: nat): State
    requires i < |s.bufs| == |s.stamp| == |s.claims| && s.claims[i] > 0 && s.bufs[i].refcnt > 0
  {
    s.AfterUnlock(i).AfterUnref(i)
  }

  lemma ReleaseKeepsValid(s: State, i: nat, b: nat)
    requires s.Valid() && s.Owns(i, b)
    ensures s.bufs[i].refcnt > 0 && (AfterBrelse(s, i).Valid() <==> Settled(s, i, b))
    ensures AfterBrelse(s, i).Valid() ==> ViewOf(AfterBrelse(s, i)) == ViewOf(s)
  {
    var t := s.AfterUnlock(i);
    UnlockKeepsValid(s, i, b);
    if Settled(s, i, b) {
      UnrefKeepsValid(t, i, b);
      UnlockKeepsView(s, i);
      UnrefKeepsView(t, i);
    } else {
      assert !t.AfterUnref(i).Kept(b);
    }
  }

  lemma PinView(s: State, i: nat, b: nat)
    requires s.Valid() && s.Owns(i, b) && s.AfterPin(i).Valid()
    ensures ViewOf(s.AfterPin(i)) == ViewOf(s).(pins := ViewOf(s).pins[b := ViewOf(s).pins[b] + 1])
  {
  }

  lemma UnpinView(s: State, i: nat, b: nat)
    requires s.Valid() && s.Owns(i, b) && s.pins[i] > 0 && s.AfterUnpin(i).Valid()
    ensures ViewOf(s).pins[b] > 0
    ensures ViewOf(s.AfterUnpin(i)) == ViewOf(s).(pins := ViewOf(s).pins[b := ViewOf(s).pins[b] - 1])
  {
  }

  // ----- Buffers for a commit

  /** bread of b puts one more block in use. */
  lemma BreadUses(s: State, i: nat, b: nat)
    requires s.Valid() && i < |s.bufs| && b < |s.disk|
    requires s.bufs[i].For(b) || (b !in s.slot && s.bufs[i].refcnt == 0)
    ensures UsedBlocks(AfterBread(s, i, b).bufs) == UsedBlocks(s.bufs) + {b}
  {
    var t := AfterBread(s, i, b);
    forall c: nat ensures c in UsedBlocks(t.bufs) <==> c in UsedBlocks(s.bufs) || c == b {
      UsedBlocksElements(t.bufs, c);
      UsedBlocksElements(s.bufs, c);
      assert t.bufs[i].refcnt > 0 && t.bufs[i].blockno == b;
      forall k | 0 <= k < |s.bufs| && k != i ensures t.bufs[k] == s.bufs[k] {
      }
    }
  }

  ghost function Pinned(v: View): set<nat> {
    set b | 0 <= b < |v.pins| && v.pins[b] > 0
  }

  /** With the blocks p in use, block b can have one of n buffers. */
  predicate Room(n: nat, p: set<nat>, b: nat) {
    b in p || |p| < n
  }

  lemma RoomIsExact(s: State, b: nat)
    requires s.Valid()
    ensures b in s.slot || |UsedBlocks(s.bufs)| != |s.bufs| <==> Room(|s.bufs|, UsedBlocks(s.bufs), b)
  {
    AllInUse(s);
    UsedBlocksElements(s.bufs, b);
  }

  /** Buffer i holds block b, and besides the readers' no other buffer is held. */
  ghost predicate Single(s: State, q: Readers, i: nat, b: nat) {
    s.Owns(i, b) && Held(s, q, {i}) && b < |s.store| && s.bufs[i].data == s.store[b]
  }

  /** Blocks x and y are held in buffers i and j, and besides the readers' no other buffer is held. */
  ghost predicate Paired(s: State, q: Readers, i: nat, x: nat, j: nat, y: nat) {
    && i != j && s.Owns(i, x) && s.Owns(j, y) && Held(s, q, {i, j})
    && x < |s.store| && s.bufs[i].data == s.store[x] && y < |s.store| && s.bufs[j].data == s.store[y]
  }

  predicate ReaderOf(s: State, q: Readers, b: nat) {
    b in s.slot && s.slot[b] < |q.claims| && q.claims[s.slot[b]] > 0
  }

  /** A read leaves the readers' buffers alone. */
  lemma FetchedKeepsReader(s: State, t: State, q: Readers, hs: set<nat>, i: nat, b: nat, c: nat)
    requires s.SlotsOk() && s.CountsOk() && t.SlotsOk() && Held(s, q, hs) && Fetched(s, t, i, b) && i !in hs
    ensures ReaderOf(t, q, c) <==> ReaderOf(s, q, c)
  {
    hide UsedBlocks;
    if c in t.slot && t.slot[c] != i {
      assert s.bufs[t.slot[c]].For(c);
    }
    if c in s.slot && s.slot[c] != i {
      assert t.bufs[s.slot[c]].For(c);
    }
  }

  lemma FetchedKeepsReaders(s: State, t: State, q: Readers, hs: set<nat>, i: nat, b: nat)
    requires s.Valid() && t.Valid() && Held(s, q, hs) && Fetched(s, t, i, b) && i !in hs
    ensures Held(t, q, hs + {i})
  {
    hide UsedBlocks, State.ListOk, State.SlotsOk, State.CountsOk, State.ContentsOk, State.Owns;
    forall c: nat ensures c in q.blocks <==> ReaderOf(t, q, c) {
      FetchedKeepsReader(s, t, q, hs, i, b, c);
    }
  }

  lemma FetchedFirst(s: State, t: State, q: Readers, i: nat, b: nat)
    requires s.Valid() && t.Valid() && Held(s, q, {}) && Fetched(s, t, i, b)
    ensures Single(t, q, i, b)
  {
    FetchedKeepsReaders(s, t, q, {}, i, b);
    assert {} + {i} == {i};
  }

  lemma FetchedSecond(s: State, t: State, q: Readers, i: nat, x: nat, j: nat, y: nat)
    requires s.Valid() && t.Valid() && Single(s, q, i, x) && Fetched(s, t, j, y) && x != y && t.store == s.store
    ensures Paired(t, q, i, x, j, y)
  {
    FetchedKeepsReaders(s, t, q, {i}, j, y);
    assert {i} + {j} == {i, j};
  }

  lemma SameHeld(s: State, t: State, q: Readers, hs: set<nat>)
    requires Held(s, q, hs) && t.claims == s.claims && t.slot == s.slot
    ensures Held(t, q, hs)
  {
    assert forall b: nat :: ReaderOf(t, q, b) <==> ReaderOf(s, q, b);
  }

  lemma PairedTurned(s: State, q: Readers, i: nat, x: nat, j: nat, y: nat)
    requires Paired(s, q, i, x, j, y)
    ensures Paired(s, q, j, y, i, x)
  {
    assert {i, j} == {j, i};
  }

  lemma SingleIsOwned(s: State, q: Readers, i: nat, b: nat)
    requires Single(s, q, i, b)
    ensures s.Owns(i, b)
  {
  }

  /** What was read while nobody changes anything is settled until it is changed. */
  lemma ReadIsSettled(s: State, i: nat, b: nat)
    requires s.Valid() && Tame(ViewOf(s)) && s.Owns(i, b)
    ensures Settled(s, i, b)
  {
    assert ViewOf(s).pins[b] == PinsOf(s, b) == s.pins[i];
  }

  /** Nobody else has block b locked, unless a reader holds it. */
  lemma NotWaiting(s: State, q: Readers, i: nat, x: nat, b: nat)
    requires s.Valid() && b != x && b !in q.blocks && (Held(s, q, {}) || Single(s, q, i, x))
    ensures b in s.slot ==> s.slot[b] < |s.bufs| && !s.bufs[s.slot[b]].locked
  {
  }

  /** Buffer i is given the data v and written. */
  ghost function AfterSave(s: State, i: nat, v: Block): State
    requires i < |s.bufs| && s.bufs[i].blockno < |s.store| == |s.disk|
  {
    s.AfterPut(i, v).AfterWrite(i)
  }

  lemma SaveView(s: State, i: nat, x: nat, v: Block)
    requires s.Valid() && s.Owns(i, x)
    ensures AfterSave(s, i, v).Valid() && AfterSave(s, i, v).Owns(i, x) && AfterSave(s, i, v).Clean(x)
    ensures ViewOf(AfterSave(s, i, v)) == Through(ViewOf(s), Write(x, v))
  {
    PutKeepsValid(s, i, x, v);
    PutView(s, i, x, v);
    WriteKeepsValid(s.AfterPut(i, v), i, x);
    WriteView(s.AfterPut(i, v), i, x);
  }

  /** What is held stays held, and settled, while another buffer is saved. */
  lemma SaveKeepsOther(s: State, q: Readers, i: nat, x: nat, j: nat, y: nat, v: Block)
    requires s.Valid() && i != j && s.Owns(i, x) && s.Owns(j, y) && Held(s, q, {i, j})
    ensures var t := AfterSave(s, i, v);
      x != y && t.Owns(j, y) && Held(t, q, {i, j}) && (Settled(s, j, y) ==> Settled(t, j, y))
  {
    assert s.slot[x] == i && s.slot[y] == j;
  }

  lemma PinsOfOwned(s: State, i: nat, b: nat)
    requires s.Valid() && s.Owns(i, b)
    ensures b < |s.disk| && ViewOf(s).pins[b] == s.pins[i]
  {
    assert ViewOf(s).pins[b] == PinsOf(s, b);
  }

  lemma UnpinKeepsOther(s: State, q: Readers, i: nat, x: nat, j: nat, y: nat)
    requires s.Valid() && i != j && s.Owns(i, x) && s.Owns(j, y) && Held(s, q, {i, j}) && s.pins[i] > 0
    requires s.Clean(x) && Settled(s, j, y)
    ensures s.bufs[i].refcnt > 0
    ensures var t := s.AfterUnpin(i); t.Owns(j, y) && Held(t, q, {i, j}) && Settled(t, i, x) && Settled(t, j, y)
  {
  }

  lemma ReleaseSingle(s: State, q: Readers, i: nat, b: nat)
    requires s.Valid() && s.Owns(i, b) && Held(s, q, {i}) && Settled(s, i, b)
    ensures AfterBrelse(s, i).Valid() && Held(AfterBrelse(s, i), q, {}) && ViewOf(AfterBrelse(s, i)) == ViewOf(s)
  {
    ReleaseKeepsValid(s, i, b);
  }

  lemma ReleaseOfPair(s: State, q: Readers, i: nat, x: nat, j: nat, y: nat)
    requires s.Valid() && i != j && s.Owns(i, x) && s.Owns(j, y) && Held(s, q, {i, j})
    requires Settled(s, i, x) && Settled(s, j, y)
    ensures var t := AfterBrelse(s, i);
      t.Valid() && ViewOf(t) == ViewOf(s) && t.Owns(j, y) && Held(t, q, {j}) && Settled(t, j, y)
  {
    ReleaseKeepsValid(s, i, x);
  }

  /** Between our own reads, exactly the pinned blocks and the readers' use buffers. */
  lemma PinnedAndReadUse(s: State, q: Readers)
    requires s.Valid() && Held(s, q, {})
    ensures UsedBlocks(s.bufs) == Pinned(ViewOf(s)) + q.blocks
  {
    var v := ViewOf(s);
    forall b: nat ensures b in UsedBlocks(s.bufs) <==> b in Pinned(v) || b in q.blocks {
      UsedBlocksElements(s.bufs, b);
      assert b in q.blocks <==> ReaderOf(s, q, b);
      if b < |v.pins| {
        assert v.pins[b] == PinsOf(s, b);
      }
    }
  }

  /** The blocks of lh are pinned once each, no other block is. */
  ghost predicate PinnedOnce(v: View, lh: seq<int>) {
    && |v.pins| == |v.disk|
    && (forall i :: 0 <= i < |lh| ==> 0 <= lh[i] < |v.disk|)
    && forall b :: 0 <= b < |v.pins| ==> v.pins[b] == if b in lh then 1 else 0
  }

  ghost function Elements(s: seq<int>): set<nat> {
    set b: nat | b in s
  }

  lemma {:induction false} DistinctElements(s: seq<int>)
    requires Distinct(s) && forall i :: 0 <= i < |s| ==> 0 <= s[i]
    ensures |Elements(s)| == |s|
  {
    if s != [] {
      DistinctElements(s[1..]);
      assert Elements(s) == Elements(s[1..]) + {s[0]};
    }
  }

  lemma PinnedBlocks(v: View, lh: seq<int>)
    requires PinnedOnce(v, lh) && Distinct(lh)
    ensures Pinned(v) == Elements(lh) && |Pinned(v)| == |lh|
  {
    DistinctElements(lh);
    assert forall b: nat :: b in Pinned(v) <==> b in lh;
  }

  /** The buffers in use by a transaction and readers of other blocks. */
  lemma BlocksInUse(v: View, lh: seq<int>, o: set<nat>)
    requires PinnedOnce(v, lh) && Distinct(lh) && forall b :: b in o ==> b !in lh
    ensures |Pinned(v) + o| == |lh| + |o| && forall b: nat :: b in Pinned(v) <==> b in lh
  {
    PinnedBlocks(v, lh);
    assert Pinned(v) * o == {};
  }

  /**
   What a commit of the blocks lh finds: write_log's bread of a log block gets
   a buffer if and only if fewer blocks are pinned or being read than there are
   buffers.  NBUF equals LOGSIZE, so a full transaction would leave none.
   */
  lemma CommitFindsBuffer(s: State, q: Readers, lh: seq<int>, b: nat)
    requires s.Valid() && Held(s, q, {}) && PinnedOnce(ViewOf(s), lh) && Distinct(lh)
    requires (forall x :: x in q.blocks ==> x !in lh) && b < |s.disk| && b !in lh && b !in q.blocks
    ensures |lh| + |q.blocks| <= |s.bufs|
    ensures (b in s.slot || exists i :: 0 <= i < |s.bufs| && s.bufs[i].refcnt == 0) <==>
      |lh| + |q.blocks| < |s.bufs|
  {
    PinnedAndReadUse(s, q);
    BlocksInUse(ViewOf(s), lh, q.blocks);
    AllInUse(s);
    RoomIsExact(s, b);
  }

  class Cache {
    /** bcache.buf */
    const bufs: array<Buf>
    var lru: seq<nat>
    var disk: Disk
    ghost var s: State

    /** The fields are those of the state. */
    ghost predicate Tied()
      reads this, bufs
    {
      bufs[..] == s.bufs && lru == s.lru && disk == s.disk
    }

    ghost predicate Valid()
      reads this, bufs
    {
      Tied() && s.Valid()
    }

    /** binit */
    constructor (nbuf: nat, d: Disk)
      ensures Valid() && fresh(bufs) && s == Boot(nbuf, d)
    {
      bufs := new Buf[nbuf](_ => Buf(false, 0, 0, false, 0, []));
      disk := d;
      lru := [];
      s := Boot(nbuf, d);
      new;
      for b := 0 to nbuf
        invariant bufs[..] == s.bufs && disk == d && s == Boot(nbuf, d)
        invariant |lru| == b && forall k :: 0 <= k < b ==> lru[k] == b - 1 - k
      {
        lru := [b] + lru;
      }
      BootIsValid(nbuf, d);
    }

    /** The first loop of bget: is the block cached? */
    method Lookup(b: nat) returns (r: Option<nat>)
      requires Valid()
      ensures r.Some? <==> b in s.slot
      ensures r.Some? ==> r.value == s.slot[b] && r.value < |s.bufs| && s.bufs[r.value].For(b)
    {
      var k := 0;
      while k < |lru|
        invariant 0 <= k <= |lru|
        invariant forall l :: 0 <= l < k ==> !bufs[lru[l]].For(b)
      {
        if bufs[lru[k]].For(b) {
          return Some(lru[k]);
        }
        k := k + 1;
      }
      forall i | 0 <= i < |s.bufs| ensures !s.bufs[i].For(b) {
        assert i in lru;
      }
      return None;
    }

    /** The second loop of bget: from the far end of the list, the first buffer not in use. */
    method FindUnused() returns (r: Option<nat>)
      requires Valid()
      ensures r.Some? ==> IsVictim(s, r.value)
      ensures r.None? ==> forall i :: 0 <= i < |s.bufs| ==> s.bufs[i].refcnt > 0
    {
      var k := |lru|;
      while k > 0
        invariant 0 <= k <= |lru|
        invariant forall l :: k <= l < |lru| ==> s.bufs[lru[l]].refcnt > 0
      {
        k := k - 1;
        if bufs[lru[k]].refcnt == 0 {
          forall j | 0 <= j < |s.bufs| && s.bufs[j].refcnt == 0 ensures s.stamp[lru[k]] <= s.stamp[j] {
            assert j in lru;
          }
          return Some(lru[k]);
        }
      }
      forall i | 0 <= i < |s.bufs| ensures s.bufs[i].refcnt > 0 {
        assert i in lru;
      }
      return None;
    }

    /**
     bget up to the release of bcache.lock.  None is the panic "no buffers",
     which happens exactly when all buffers are busy with other blocks.
     */
    method Claim(b: nat) returns (r: Option<nat>)
      requires Valid() && b < |disk|
      modifies this, bufs
      ensures Valid()
      ensures r.None? <==> b !in old(s.slot) && |UsedBlocks(old(s.bufs))| == bufs.Length
      ensures r.None? ==> s == old(s)
      ensures r.Some? ==> r.value < bufs.Length && s == old(s).AfterClaim(r.value, b) && s.Has(r.value, b)
      ensures r.Some? ==> if b in old(s.slot) then r.value == old(s.slot)[b] else IsVictim(old(s), r.value)
    {
      hide UsedBlocks, State.ListOk, State.SlotsOk, State.CountsOk, State.ContentsOk, Evict;
      UsedExactly(s);
      r := Lookup(b);
      if r.Some? {
        ClaimHitKeepsValid(s, r.value, b);
        bufs[r.value] := bufs[r.value].(refcnt := bufs[r.value].refcnt + 1);
        s := s.AfterClaim(r.value, b);
        return;
      }
      r := FindUnused();
      if r.Some? {
        ClaimMissKeepsValid(s, r.value, b);
        bufs[r.value] := bufs[r.value].(dev := ROOTDEV, blockno := b, valid := false, refcnt := 1);
        s := s.AfterClaim(r.value, b);
      }
    }

    /** The rest of bread, once the sleep lock is taken: fill the buffer if needed. */
    method LockAndFill(i: nat, ghost b: nat)
      requires Valid() && s.Has(i, b) && !s.bufs[i].locked && b < |disk|
      modifies this, bufs
      ensures Valid() && s == old(s).AfterLock(i).AfterFill(i)
      ensures s.Owns(i, b) && s.bufs[i].data == old(s.store[b])
    {
      LockKeepsValid(s, i, b);
      FillKeepsValid(s.AfterLock(i), i, b);
      bufs[i] := bufs[i].(locked := true);
      if !bufs[i].valid {
        bufs[i] := bufs[i].(data := disk[bufs[i].blockno], valid := true);
      }
      s := s.AfterLock(i).AfterFill(i);
    }

    /** memmove into b->data */
    method Put(i: nat, ghost b: nat, v: Block)
      requires Valid() && s.Owns(i, b)
      modifies this, bufs
      ensures Valid() && s == old(s).AfterPut(i, v) && s.Owns(i, b) && OnlyAt(i, old(s), s)
      ensures ViewOf(s) == old(ViewOf(s)).(store := old(s.store)[b := v])
    {
      PutKeepsValid(s, i, b, v);
      PutView(s, i, b, v);
      bufs[i] := bufs[i].(data := v);
      s := s.AfterPut(i, v);
    }

    method Bwrite(i: nat, ghost b: nat)
      requires Valid() && s.Owns(i, b)
      modifies this, bufs
      ensures Valid() && s == old(s).AfterWrite(i) && s.Owns(i, b) && s.Clean(b) && OnlyAt(i, old(s), s)
      ensures ViewOf(s) == old(ViewOf(s)).(disk := old(s.disk)[b := old(s.store)[b]],
                                           writes := old(s.writes) + [Write(b, old(s.store)[b])])
    {
      WriteKeepsValid(s, i, b);
      WriteView(s, i, b);
      disk := disk[bufs[i].blockno := bufs[i].data];
      s := s.AfterWrite(i);
    }

    /** brelse, up to the release of the sleep lock */
    method Unlock(i: nat, ghost b: nat)
      requires Tied() && s.Owns(i, b)
      modifies this, bufs
      ensures Tied() && s == old(s).AfterUnlock(i)
    {
      bufs[i] := bufs[i].(locked := false);
      s := s.AfterUnlock(i);
    }

    /** brelse, under bcache.lock */
    method Unref(i: nat, ghost b: nat)
      requires Tied() && s.Has(i, b) && |s.stamp| == |s.bufs| && s.bufs[i].refcnt > 0
      modifies this, bufs
      ensures Tied() && s == old(s).AfterUnref(i)
    {
      bufs[i] := bufs[i].(refcnt := bufs[i].refcnt - 1);
      if bufs[i].refcnt == 0 {
        lru := MoveToFront(lru, i);
      }
      s := s.AfterUnref(i);
    }

    method Bpin(i: nat, ghost b: nat)
      requires Valid() && s.Owns(i, b)
      modifies this, bufs
      ensures Valid() && s == old(s).AfterPin(i) && s.Owns(i, b) && OnlyAt(i, old(s), s)
      ensures ViewOf(s) == old(ViewOf(s)).(pins := old(ViewOf(s)).pins[b := old(ViewOf(s)).pins[b] + 1])
    {
      PinKeepsValid(s, i, b);
      PinView(s, i, b);
      bufs[i] := bufs[i].(refcnt := bufs[i].refcnt + 1);
      s := s.AfterPin(i);
    }

    method Bunpin(i: nat, ghost b: nat)
      requires Valid() && s.Owns(i, b) && s.pins[i] > 0
      modifies this, bufs
      ensures Valid() && old(s).bufs[i].refcnt > 0 && s == old(s).AfterUnpin(i) && s.Owns(i, b) && OnlyAt(i, old(s), s)
      ensures old(ViewOf(s)).pins[b] > 0
      ensures ViewOf(s) == old(ViewOf(s)).(pins := old(ViewOf(s)).pins[b := old(ViewOf(s)).pins[b] - 1])
    {
      UnpinKeepsValid(s, i, b);
      UnpinView(s, i, b);
      bufs[i] := bufs[i].(refcnt := bufs[i].refcnt - 1);
      s := s.AfterUnpin(i);
    }

    // ----- The interface of bio.c: bread, brelse

    /** bread; a buffer someone else has locked is claimed, and LockAndFill goes on when it is free. */
    method Bread(b: nat) returns (r: Answer)
      requires Valid() && b < |disk|
      modifies this, bufs
      ensures Valid() && ViewOf(s) == old(ViewOf(s))
      ensures r.NoBuffers? <==> b !in old(s.slot) && |UsedBlocks(old(s.bufs))| == bufs.Length
      ensures r.Waits? <==> b in old(s.slot) && old(s.bufs[s.slot[b]].locked)
      ensures r.NoBuffers? ==> s == old(s)
      ensures r.Waits? ==> r.i == old(s.slot[b]) && s == old(s).AfterClaim(r.i, b)
      ensures r.Got? ==> Fetched(old(s), s, r.i, b)
    {
      ghost var s0 := s;
      var c := Claim(b);
      if c.None? {
        return NoBuffers;
      }
      var i := c.value;
      ClaimKeepsView(s0, i, b);
      if bufs[i].locked {
        return Waits(i);
      }
      LockAndFill(i, b);
      BreadOnly(s0, i, b);
      BreadView(s0, i, b);
      BreadUses(s0, i, b);
      return Got(i);
    }

    /** The cache goes on agreeing with the store exactly when the caller logged or wrote its changes. */
    method Brelse(i: nat, ghost b: nat)
      requires Valid() && s.Owns(i, b)
      modifies this, bufs
      ensures Tied() && s == AfterBrelse(old(s), i)
      ensures s.Valid() <==> Settled(old(s), i, b)
      ensures s.Valid() ==> ViewOf(s) == old(ViewOf(s))
      ensures OnlyAt(i, old(s), s) && s.claims[i] == old(s.claims)[i] - 1
      ensures s.slot == old(s.slot) && !s.bufs[i].locked
    {
      ghost var s0 := s;
      UnlockKeepsValid(s0, i, b);
      ReleaseKeepsValid(s0, i, b);
      Unlock(i, b);
      Unref(i, b);
    }
  }
}
