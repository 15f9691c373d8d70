/**
 The whole life of the log: operations of several processes, group commit one
 block write at a time, crashes between any two steps, and recovery that can
 itself be cut short.  The specification beside it is a list of updates of
 which some prefix is durable.
 */
module LogProtocol {
  import opened RedoLog
  import LogSpace

  datatype Mode = Running | Down | Recovering

  /** What an operation did to one home block. */
  datatype Update = Update(op: nat, block: int, data: Block)

  /**
   `store` is what bread returns for each block while the kernel runs.
   `writes` are the block writes of the commit or recovery under way, `next`
   the number issued, `origin` the disk they started from.
   `hist` and `durable` are the specification: all updates so far, and how
   many of them have committed.
   */
  datatype State = State(
    mode: Mode,
    disk: Disk,
    store: Disk,
    mem: LogSpace.State,
    writes: seq<Write>,
    next: nat,
    origin: Disk,
    hist: seq<Update>,
    durable: nat,
    newId: nat)

  datatype Event =
    | BeginOp
    | LogWrite(op: nat, block: int, data: Block)
    | EndOp(op: nat)
    | DiskWrite
    | CommitDone
    | Crash
    | StartRecovery
    | RecoveryDone

  ghost predicate InStore(g: Geometry, s: State) {
    && g.Valid() && g.IsDisk(s.disk) && g.IsDisk(s.store)
    && |s.mem.lh| <= LOGSIZE
    && forall i :: 0 <= i < |s.mem.lh| ==> 0 <= s.mem.lh[i] < g.blocks
  }

  ghost predicate Enabled(g: Geometry, s: State, e: Event) {
    match e
    case BeginOp => s.mode == Running && LogSpace.Admits(s.mem)
    case LogWrite(i, b, v) =>
      && s.mode == Running && i < |s.mem.ops|
      && g.Home(b) && b < |s.store| && |v| == WORDS
      && !LogSpace.Full(g.size, s.mem.lh)
    case EndOp(i) => s.mode == Running && i < |s.mem.ops| && InStore(g, s)
    case DiskWrite =>
      && (s.mode == Recovering || (s.mode == Running && s.mem.committing))
      && s.next < |s.writes| && s.writes[s.next].block < |s.disk|
    case CommitDone => s.mode == Running && s.mem.committing && s.next == |s.writes|
    case Crash => s.durable <= |s.hist|
    case StartRecovery => s.mode == Down && Readable(g, s.disk)
    case RecoveryDone => s.mode == Recovering && s.next == |s.writes|
  }

  /** The write under way is the header write that names the transaction: the commit point. */
  predicate IsCommitPoint(s: State) {
    s.mode == Running && s.mem.lh != [] && s.next == |s.mem.lh|
  }

  ghost function Step(g: Geometry, s: State, e: Event): State
    requires Enabled(g, s, e)
  {
    match e
    case BeginOp => s.(mem := LogSpace.Begin(s.mem, s.newId), newId := s.newId + 1)
    case LogWrite(i, b, v) =>
      s.(mem := LogSpace.Log(s.mem, i, b),
         store := s.store[b := v],
         hist := s.hist + [Update(s.mem.ops[i].id, b, v)])
    case EndOp(i) =>
      var mem := LogSpace.End(s.mem, i);
      if mem.committing && mem.lh != [] then
        s.(mem := mem, next := 0, origin := s.disk,
           writes := CommitWrites(g, s.disk[g.start], mem.lh, Vals(s.store, mem.lh)))
      else
        s.(mem := mem, next := 0, origin := s.disk, writes := [])
    case DiskWrite =>
      var w := s.writes[s.next];
      s.(disk := s.disk[w.block := w.data],
         next := s.next + 1,
         durable := if IsCommitPoint(s) then |s.hist| else s.durable)
    case CommitDone => s.(mem := LogSpace.CommitDone(s.mem), writes := [], next := 0)
    case Crash =>
      // memory is lost; so are the updates that had not committed
      s.(mode := Down, store := s.disk, mem := LogSpace.Init, writes := [], next := 0,
         hist := s.hist[..s.durable])
    case StartRecovery =>
      s.(mode := Recovering, writes := RecoverWrites(g, s.disk), next := 0, origin := s.disk)
    case RecoveryDone => s.(mode := Running, store := s.disk, writes := [], next := 0)
  }

  /** Power-on with disk d. */
  ghost function PowerOn(d: Disk): State {
    State(Down, d, d, LogSpace.Init, [], 0, d, [], 0, 0)
  }

  /** A run: the states passed through, and the events between them. */
  ghost predicate IsRun(g: Geometry, d: Disk, ss: seq<State>, es: seq<Event>) {
    && |ss| == |es| + 1 && ss[0] == PowerOn(d)
    && forall i :: 0 <= i < |es| ==> Enabled(g, ss[i], es[i]) && ss[i + 1] == Step(g, ss[i], es[i])
  }

  // ----- The specification

  ghost function Replay(base: Disk, hist: seq<Update>): (d: Disk)
    ensures |d| == |base|
  {
    if hist == [] then base else
      var u := hist[|hist| - 1];
      var d := Replay(base, hist[..|hist| - 1]);
      if 0 <= u.block < |d| then d[u.block := u.data] else d
  }

  lemma ReplayAppend(base: Disk, hist: seq<Update>, u: Update)
    requires 0 <= u.block < |base|
    ensures Replay(base, hist + [u]) == Replay(base, hist)[u.block := u.data]
  {
    assert (hist + [u])[..|hist|] == hist;
  }

  ghost predicate SameHome(g: Geometry, d: Disk, e: Disk) {
    |d| == |e| == g.blocks && forall b :: g.Home(b) ==> d[b] == e[b]
  }

  /** Recovery from the present disk would produce exactly the durable updates. */
  ghost predicate DurableOnDisk(g: Geometry, base: Disk, s: State) {
    && s.durable <= |s.hist|
    && Readable(g, s.disk) && |base| == g.blocks
    && forall b {:trigger Final(g, s.disk, b)} :: g.Home(b) ==>
      Final(g, s.disk, b) == Replay(base, s.hist[..s.durable])[b]
  }

  /** No operation straddles the durable prefix. */
  ghost predicate WholeOps(s: State) {
    && s.durable <= |s.hist|
    && (forall i :: 0 <= i < |s.hist| ==> s.hist[i].op < s.newId)
    && (forall k :: 0 <= k < |s.mem.ops| ==> s.mem.ops[k].id < s.newId)
    && (forall i, k :: 0 <= i < s.durable && 0 <= k < |s.mem.ops| ==> s.hist[i].op != s.mem.ops[k].id)
    && (forall i, j :: 0 <= i < s.durable <= j < |s.hist| ==> s.hist[i].op != s.hist[j].op)
  }

  /** The kernel is running and no commit is writing. */
  ghost predicate Quiet(g: Geometry, s: State)
    requires Readable(g, s.disk) && g.IsDisk(s.store)
  {
    && Logged(g, s.disk) == []
    && (s.mem.ops == [] ==> s.mem.lh == [] && s.durable == |s.hist|)
    && (s.mem.lh == [] ==> s.durable == |s.hist|)
    && forall b {:trigger s.disk[b]} :: g.Home(b) && b !in s.mem.lh ==> s.disk[b] == s.store[b]
  }

  /** A commit is writing. */
  ghost predicate Writing(g: Geometry, s: State)
    requires InStore(g, s)
  {
    var vals := Vals(s.store, s.mem.lh);
    && s.mem.ops == []
    && Committable(g, s.origin, s.mem.lh, vals)
    && s.writes == (if s.mem.lh == [] then [] else CommitWrites(g, s.origin[g.start], s.mem.lh, vals))
    && s.next <= |s.writes|
    && s.disk == (if s.mem.lh == [] then s.origin else CommitDisk(g, s.origin, s.mem.lh, vals, s.next))
    && (s.next > |s.mem.lh| || s.mem.lh == [] ==> s.durable == |s.hist|)
    && forall b {:trigger s.origin[b]} :: g.Home(b) && b !in s.mem.lh ==> s.origin[b] == s.store[b]
  }

  ghost predicate RunningInv(g: Geometry, base: Disk, s: State)
    requires DurableOnDisk(g, base, s)
  {
    && InStore(g, s)
    && Loggable(g, s.mem.lh)
    && SameHome(g, s.store, Replay(base, s.hist))
    && if s.mem.committing then Writing(g, s) else Quiet(g, s)
  }

  ghost predicate RecoveringInv(g: Geometry, s: State) {
    && s.durable == |s.hist| && s.mem == LogSpace.Init
    && Readable(g, s.origin)
    && s.writes == RecoverWrites(g, s.origin) && s.next <= |s.writes|
    && s.disk == RecoverDisk(g, s.origin, s.next)
  }

  ghost predicate Inv(g: Geometry, base: Disk, s: State) {
    && DurableOnDisk(g, base, s)
    && WholeOps(s)
    && match s.mode
       case Running => RunningInv(g, base, s)
       case Recovering => RecoveringInv(g, s)
       case Down => s.durable == |s.hist| && s.mem == LogSpace.Init
  }

  // ----- Each step keeps it

  lemma BeginKeepsInv(g: Geometry, base: Disk, s: State)
    requires Inv(g, base, s) && Enabled(g, s, BeginOp)
    ensures Inv(g, base, Step(g, s, BeginOp))
  {
  }

  lemma LogWriteKeepsWholeOps(g: Geometry, s: State, i: nat, b: int, v: Block)
    requires WholeOps(s) && Enabled(g, s, LogWrite(i, b, v))
    ensures WholeOps(Step(g, s, LogWrite(i, b, v)))
  {
  }

  lemma LogWriteKeepsInv(g: Geometry, base: Disk, s: State, i: nat, b: int, v: Block)
    requires Inv(g, base, s) && Enabled(g, s, LogWrite(i, b, v))
    ensures Inv(g, base, Step(g, s, LogWrite(i, b, v)))
  {
    var t := Step(g, s, LogWrite(i, b, v));
    LogWriteKeepsWholeOps(g, s, i, b, v);
    ReplayAppend(base, s.hist, Update(s.mem.ops[i].id, b, v));
    assert t.hist[..t.durable] == s.hist[..s.durable];
  }

  lemma EndKeepsInv(g: Geometry, base: Disk, s: State, i: nat)
    requires Inv(g, base, s) && Enabled(g, s, EndOp(i))
    ensures Inv(g, base, Step(g, s, EndOp(i)))
  {
    var t := Step(g, s, EndOp(i));
    if t.mem.committing && t.mem.lh != [] {
      CommitDiskStart(g, s.disk, t.mem.lh, Vals(s.store, t.mem.lh));
    }
  }

  /** Overlaying the logged blocks on the disk the commit started from gives the cached contents. */
  lemma OverlayIsStore(g: Geometry, s: State)
    requires InStore(g, s) && Writing(g, s)
    ensures forall b :: g.Home(b) ==> Overlay(s.origin, s.mem.lh, Vals(s.store, s.mem.lh), b) == s.store[b]
  {
  }

  /** One block write of a commit: the log fills, the commit point passes, blocks are installed. */
  lemma CommitWriteKeepsWriting(g: Geometry, s: State)
    requires InStore(g, s) && Writing(g, s) && Loggable(g, s.mem.lh)
    requires s.mode == Running && s.mem.committing && Enabled(g, s, DiskWrite)
    ensures var t := Step(g, s, DiskWrite);
      InStore(g, t) && Writing(g, t) && Readable(g, t.disk) && s.mem.lh != [] && t.next <= 2 * |s.mem.lh| + 2
  {
    hide CommitDisk, CommitWrites, Readable, Distinct;
    NextCommitDisk(g, s.origin, s.mem.lh, Vals(s.store, s.mem.lh), s.next);
  }

  lemma NextCommitDisk(g: Geometry, d: Disk, blocks: seq<int>, vals: seq<Block>, k: nat)
    requires Committable(g, d, blocks, vals)
    ensures |CommitWrites(g, d[g.start], blocks, vals)| == 2 * |blocks| + 2
    ensures k < 2 * |blocks| + 2 ==>
      var w := CommitWrites(g, d[g.start], blocks, vals)[k];
      && w.block < |CommitDisk(g, d, blocks, vals, k)|
      && CommitDisk(g, d, blocks, vals, k)[w.block := w.data] == CommitDisk(g, d, blocks, vals, k + 1)
      && g.IsDisk(CommitDisk(g, d, blocks, vals, k + 1)) && Readable(g, CommitDisk(g, d, blocks, vals, k + 1))
  {
    CommitWritesAreThose(g, d, blocks, vals);
    if k < 2 * |blocks| + 2 {
      CommitDiskStep(g, d, blocks, vals, k);
      CommitDiskMeans(g, d, blocks, vals, k + 1);
    }
  }

  /** While a commit writes, recovery would find the old contents up to the commit point and the cached ones
      after it. */
  lemma WritingFinal(g: Geometry, s: State)
    requires InStore(g, s) && Writing(g, s) && s.mem.lh != [] && s.next <= 2 * |s.mem.lh| + 2
    ensures Readable(g, s.disk)
    ensures forall b {:trigger Final(g, s.disk, b)} :: g.Home(b) ==>
      Final(g, s.disk, b) == if s.next <= |s.mem.lh| then s.origin[b] else s.store[b]
  {
    CommitDiskMeans(g, s.origin, s.mem.lh, Vals(s.store, s.mem.lh), s.next);
    OverlayIsStore(g, s);
  }

  lemma CommitWriteKeepsDurable(g: Geometry, base: Disk, s: State)
    requires DurableOnDisk(g, base, s) && RunningInv(g, base, s)
    requires s.mode == Running && Enabled(g, s, DiskWrite)
    ensures DurableOnDisk(g, base, Step(g, s, DiskWrite))
  {
    hide CommitDisk, CommitWrites;
    var t := Step(g, s, DiskWrite);
    CommitWriteKeepsWriting(g, s);
    WritingFinal(g, s);
    WritingFinal(g, t);
    assert s.hist[..|s.hist|] == s.hist;
    forall b | g.Home(b) ensures Final(g, t.disk, b) == Replay(base, t.hist[..t.durable])[b] {
      assert Final(g, s.disk, b) == Replay(base, s.hist[..s.durable])[b];
    }
  }

  lemma CommitWriteKeepsInv(g: Geometry, base: Disk, s: State)
    requires Inv(g, base, s) && s.mode == Running && Enabled(g, s, DiskWrite)
    ensures Inv(g, base, Step(g, s, DiskWrite))
  {
    CommitWriteKeepsDurable(g, base, s);
    CommitWriteKeepsWriting(g, s);
  }

  /** With an empty log on disk, the home blocks are their own final contents. */
  lemma EmptyLogIsFinal(g: Geometry, base: Disk, s: State)
    requires DurableOnDisk(g, base, s) && Logged(g, s.disk) == [] && s.durable == |s.hist|
    ensures SameHome(g, s.disk, Replay(base, s.hist))
  {
    assert s.hist[..|s.hist|] == s.hist;
    forall b | g.Home(b) ensures s.disk[b] == Replay(base, s.hist)[b] {
      assert Final(g, s.disk, b) == s.disk[b];
    }
  }

  lemma CommitDoneKeepsInv(g: Geometry, base: Disk, s: State)
    requires Inv(g, base, s) && Enabled(g, s, CommitDone)
    ensures Inv(g, base, Step(g, s, CommitDone))
  {
    if s.mem.lh != [] {
      CommitWritesAreThose(g, s.origin, s.mem.lh, Vals(s.store, s.mem.lh));
      CommitDiskMeans(g, s.origin, s.mem.lh, Vals(s.store, s.mem.lh), s.next);
    }
    EmptyLogIsFinal(g, base, s);
  }

  lemma RecoveryWriteKeepsInv(g: Geometry, base: Disk, s: State)
    requires Inv(g, base, s) && s.mode == Recovering && Enabled(g, s, DiskWrite)
    ensures Inv(g, base, Step(g, s, DiskWrite))
  {
    var t := Step(g, s, DiskWrite);
    RecoverDiskStep(g, s.origin, s.next);
    RecoveryKeepsFinal(g, s.origin, s.next);
    assert t.disk == RecoverDisk(g, s.origin, s.next + 1);
    forall b | g.Home(b) ensures Final(g, t.disk, b) == Replay(base, t.hist[..t.durable])[b] {
      assert Final(g, t.disk, b) == Final(g, s.disk, b);
    }
  }

  lemma RecoveryKeepsFinal(g: Geometry, d: Disk, k: nat)
    requires Readable(g, d) && k < |RecoverWrites(g, d)|
    ensures Readable(g, RecoverDisk(g, d, k)) && Readable(g, RecoverDisk(g, d, k + 1))
    ensures forall b {:trigger Final(g, RecoverDisk(g, d, k + 1), b)} :: g.Home(b) ==>
      Final(g, RecoverDisk(g, d, k + 1), b) == Final(g, RecoverDisk(g, d, k), b)
  {
    RecoverDiskMeans(g, d, k);
    RecoverDiskMeans(g, d, k + 1);
    forall b | g.Home(b) ensures Final(g, RecoverDisk(g, d, k + 1), b) == Final(g, RecoverDisk(g, d, k), b) {
      assert Final(g, RecoverDisk(g, d, k), b) == Final(g, d, b);
    }
  }

  lemma StartRecoveryKeepsInv(g: Geometry, base: Disk, s: State)
    requires Inv(g, base, s) && Enabled(g, s, StartRecovery)
    ensures Inv(g, base, Step(g, s, StartRecovery))
  {
    assert RecoverWrites(g, s.disk)[..0] == [];
    RecoverReaches(g, s.disk, 0);
  }

  lemma RecoveryDoneKeepsInv(g: Geometry, base: Disk, s: State)
    requires Inv(g, base, s) && Enabled(g, s, RecoveryDone)
    ensures Inv(g, base, Step(g, s, RecoveryDone))
  {
    RecoverDiskMeans(g, s.origin, s.next);
    EmptyLogIsFinal(g, base, s);
  }

  lemma StepKeepsInv(g: Geometry, base: Disk, s: State, e: Event)
    requires Inv(g, base, s) && Enabled(g, s, e)
    ensures Inv(g, base, Step(g, s, e))
  {
    match e
    case BeginOp => BeginKeepsInv(g, base, s);
    case LogWrite(i, b, v) => LogWriteKeepsInv(g, base, s, i, b, v);
    case EndOp(i) => EndKeepsInv(g, base, s, i);
    case DiskWrite =>
      if s.mode == Running {
        CommitWriteKeepsInv(g, base, s);
      } else {
        RecoveryWriteKeepsInv(g, base, s);
      }
    case CommitDone => CommitDoneKeepsInv(g, base, s);
    case Crash => assert s.hist[..s.durable][..s.durable] == s.hist[..s.durable];
    case StartRecovery => StartRecoveryKeepsInv(g, base, s);
    case RecoveryDone => RecoveryDoneKeepsInv(g, base, s);
  }

  lemma PowerOnHasInv(g: Geometry, d: Disk)
    requires Readable(g, d)
    ensures Inv(g, Recover(g, d), PowerOn(d))
  {
    RecoverReachesFinal(g, d);
  }

  lemma {:induction false} RunKeepsInv(g: Geometry, d: Disk, ss: seq<State>, es: seq<Event>, i: nat)
    requires Readable(g, d) && IsRun(g, d, ss, es) && i < |ss|
    ensures Inv(g, Recover(g, d), ss[i])
  {
    if i == 0 {
      PowerOnHasInv(g, d);
    } else {
      RunKeepsInv(g, d, ss, es, i - 1);
      StepKeepsInv(g, Recover(g, d), ss[i - 1], es[i - 1]);
    }
  }

  // ----- What it means

  /** Recovery, however often it is cut short, gives the durable updates. */
  lemma RecoversDurable(g: Geometry, base: Disk, s: State, ks: seq<nat>)
    requires Inv(g, base, s)
    ensures s.durable <= |s.hist| && Readable(g, s.disk)
    ensures SameHome(g, Recover(g, CutShort(g, s.disk, ks)), Replay(base, s.hist[..s.durable]))
  {
    RecoverReachesFinal(g, CutShort(g, s.disk, ks));
  }

  /**
   At every point of every run: if the machine stops here and reboots, with any
   number ks of recoveries cut short, the recovery that completes leaves the
   home blocks at exactly the durable prefix of the updates; no operation has
   updates both inside and outside that prefix; and while the kernel runs,
   every block reads as the last update made to it.
   */
  lemma CrashConsistency(g: Geometry, d: Disk, ss: seq<State>, es: seq<Event>, i: nat, ks: seq<nat>)
    requires Readable(g, d) && IsRun(g, d, ss, es) && i < |ss|
    ensures var s := ss[i];
      && s.durable <= |s.hist| && Readable(g, s.disk)
      && SameHome(g, Recover(g, CutShort(g, s.disk, ks)), Replay(Recover(g, d), s.hist[..s.durable]))
      && (forall x, y :: 0 <= x < s.durable <= y < |s.hist| ==> s.hist[x].op != s.hist[y].op)
      && (s.mode == Running ==> SameHome(g, s.store, Replay(Recover(g, d), s.hist)))
  {
    RunKeepsInv(g, d, ss, es, i);
    RecoversDurable(g, Recover(g, d), ss[i], ks);
  }

  lemma DurableStep(g: Geometry, base: Disk, s: State, e: Event)
    requires Inv(g, base, s) && Enabled(g, s, e)
    ensures var t := Step(g, s, e);
      && s.durable <= |s.hist| && t.durable <= |t.hist|
      && s.hist[..s.durable] <= t.hist[..t.durable]
      && (s.durable == t.durable || (e.DiskWrite? && IsCommitPoint(s)))
  {
  }

  lemma DurableBound(g: Geometry, d: Disk, ss: seq<State>, es: seq<Event>, i: nat)
    requires Readable(g, d) && IsRun(g, d, ss, es) && i < |ss|
    ensures ss[i].durable <= |ss[i].hist|
  {
    RunKeepsInv(g, d, ss, es, i);
  }

  lemma DurableRunStep(g: Geometry, d: Disk, ss: seq<State>, es: seq<Event>, k: nat)
    requires Readable(g, d) && IsRun(g, d, ss, es) && k < |es|
    ensures ss[k].durable <= |ss[k].hist| && ss[k + 1].durable <= |ss[k + 1].hist|
    ensures ss[k].hist[..ss[k].durable] <= ss[k + 1].hist[..ss[k + 1].durable]
    ensures ss[k].durable == ss[k + 1].durable || (es[k].DiskWrite? && IsCommitPoint(ss[k]))
  {
    RunKeepsInv(g, d, ss, es, k);
    DurableStep(g, Recover(g, d), ss[k], es[k]);
  }

  /** What has committed in s has committed in t. */
  ghost predicate KeepsDurable(s: State, t: State) {
    s.durable <= |s.hist| && t.durable <= |t.hist| && s.hist[..s.durable] <= t.hist[..t.durable]
  }

  lemma KeepsDurableOn(s: State, t: State, u: State)
    requires KeepsDurable(s, t) && KeepsDurable(t, u)
    ensures KeepsDurable(s, u)
  {
  }

  lemma DurableNext(g: Geometry, d: Disk, ss: seq<State>, es: seq<Event>, k: nat)
    requires Readable(g, d) && IsRun(g, d, ss, es) && k < |es|
    ensures KeepsDurable(ss[k], ss[k + 1])
    ensures ss[k].durable == ss[k + 1].durable || (es[k].DiskWrite? && IsCommitPoint(ss[k]))
  {
    DurableRunStep(g, d, ss, es, k);
  }

  lemma RunLength(g: Geometry, d: Disk, ss: seq<State>, es: seq<Event>)
    requires IsRun(g, d, ss, es)
    ensures |ss| == |es| + 1
  {
  }

  /** What committed stays committed: the durable prefix only grows, and only at a commit's header write. */
  lemma {:induction false} DurableOnlyGrows(g: Geometry, d: Disk, ss: seq<State>, es: seq<Event>, i: nat, j: nat)
    requires Readable(g, d) && IsRun(g, d, ss, es) && i <= j < |ss|
    ensures KeepsDurable(ss[i], ss[j])
    ensures ss[i].durable == ss[j].durable || exists k :: i <= k < j && es[k].DiskWrite? && IsCommitPoint(ss[k])
    decreases j
  {
    hide IsRun, Readable, IsCommitPoint;
    if i == j {
      DurableBound(g, d, ss, es, i);
    } else {
      hide KeepsDurable;
      RunLength(g, d, ss, es);
      DurableOnlyGrows(g, d, ss, es, i, j - 1);
      DurableNext(g, d, ss, es, j - 1);
      KeepsDurableOn(ss[i], ss[j - 1], ss[j]);
    }
  }

  /** Once the last operation has ended and its commit is over, every update is durable. */
  lemma EndedMeansDurable(g: Geometry, d: Disk, ss: seq<State>, es: seq<Event>, i: nat)
    requires Readable(g, d) && IsRun(g, d, ss, es) && i < |ss|
    requires ss[i].mode == Running && ss[i].mem.ops == [] && !ss[i].mem.committing
    ensures ss[i].durable == |ss[i].hist|
    ensures SameHome(g, ss[i].disk, ss[i].store)
  {
    RunKeepsInv(g, d, ss, es, i);
  }
}
