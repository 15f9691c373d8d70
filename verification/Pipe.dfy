/**
 kernel/pipe.c: a ring buffer with 32-bit wrapping counters, and readers and
 writers that sleep on it.  Each turn of a loop under pi->lock is a step; sleep
 gives the lock up and falls asleep in one step, and wakeup wakes every sleeper
 of its channel in one step (that sleep and wakeup provide this is the subject
 of SleepLock).  accepted and consumed record the bytes put in and taken out.
 */
module Pipe {
  import opened Common

  const PIPESIZE: nat := 512
  const WRAP: nat := 0x1_0000_0000

  // ----- The ring

  datatype Ring = Ring(data: seq<int>, nread: nat, nwrite: nat)

  predicate IsEmpty(r: Ring) {
    r.nread == r.nwrite
  }

  predicate IsFull(r: Ring) {
    r.nwrite == (r.nread + PIPESIZE) % WRAP
  }

  function Put(r: Ring, ch: int): Ring
    requires |r.data| == PIPESIZE
  {
    Ring(r.data[r.nwrite % PIPESIZE := ch], r.nread, (r.nwrite + 1) % WRAP)
  }

  function Next(r: Ring): int
    requires |r.data| == PIPESIZE
  {
    r.data[r.nread % PIPESIZE]
  }

  function Drop(r: Ring): Ring {
    r.(nread := (r.nread + 1) % WRAP)
  }

  /** The ring holds the bytes accepted[taken..]. */
  ghost predicate Represents(r: Ring, accepted: seq<int>, taken: nat) {
    && |r.data| == PIPESIZE && taken <= |accepted| <= taken + PIPESIZE
    && r.nread == taken % WRAP && r.nwrite == |accepted| % WRAP
    && forall k :: taken <= k < |accepted| ==> r.data[k % PIPESIZE] == accepted[k]
  }

  lemma WrapIsHarmless(n: nat)
    ensures (n % WRAP) % PIPESIZE == n % PIPESIZE
    ensures (n % WRAP + 1) % WRAP == (n + 1) % WRAP
    ensures (n % WRAP + PIPESIZE) % WRAP == (n + PIPESIZE) % WRAP
  {
    assert n == WRAP * (n / WRAP) + n % WRAP;
  }

  /** Within PIPESIZE of each other, two counts with the same place in the ring, or the same wrapped value,
      are equal. */
  lemma CloseCounts(a: nat, b: nat)
    requires a <= b <= a + PIPESIZE
    ensures a % WRAP == b % WRAP ==> a == b
    ensures a % PIPESIZE == b % PIPESIZE ==> a == b || b == a + PIPESIZE
  {
  }

  /** The tests for empty and full see through the wrap-around. */
  lemma TestsAreExact(r: Ring, accepted: seq<int>, taken: nat)
    requires Represents(r, accepted, taken)
    ensures IsEmpty(r) <==> |accepted| == taken
    ensures IsFull(r) <==> |accepted| == taken + PIPESIZE
  {
    CloseCounts(taken, |accepted|);
    WrapIsHarmless(taken);
    CloseCounts(|accepted|, taken + PIPESIZE);
  }

  lemma PutAppends(r: Ring, accepted: seq<int>, taken: nat, ch: int)
    requires Represents(r, accepted, taken) && !IsFull(r)
    ensures Represents(Put(r, ch), accepted + [ch], taken)
  {
    TestsAreExact(r, accepted, taken);
    WrapIsHarmless(|accepted|);
    forall k | taken <= k < |accepted| + 1 ensures Put(r, ch).data[k % PIPESIZE] == (accepted + [ch])[k] {
      CloseCounts(k, |accepted|);
    }
  }

  lemma DropTakes(r: Ring, accepted: seq<int>, taken: nat)
    requires Represents(r, accepted, taken) && !IsEmpty(r)
    ensures taken < |accepted| && Next(r) == accepted[taken]
    ensures Represents(Drop(r), accepted, taken + 1)
  {
    TestsAreExact(r, accepted, taken);
    WrapIsHarmless(taken);
  }

  // ----- Readers and writers

  /** i is how many bytes are through; dirty: some were written since the lock was acquired; ret is what the last
      call returned. */
  datatype Thread =
    | Idle(ret: int)
    | WriteLock(src: seq<int>, i: nat)             // before acquire(&pi->lock), or woken in sleep
    | Write(src: seq<int>, i: nat, dirty: bool)    // at the head of pipewrite's loop
    | WriteAsleep(src: seq<int>, i: nat)
    | ReadLock(n: nat)
    | ReadTest(n: nat)                             // at piperead's first loop
    | ReadAsleep(n: nat)
    | Read(n: nat, i: nat)                         // at piperead's copy loop

  datatype State = State(ring: Ring, readopen: bool, writeopen: bool, lock: Option<nat>, threads: seq<Thread>,
                         accepted: seq<int>, consumed: seq<int>)

  /** killed: the process has been killed; copied: copyin or copyout of the next byte works. */
  datatype Event =
    | BeginWrite(i: nat, src: seq<int>)
    | BeginRead(i: nat, n: nat)
    | Close(i: nat, writable: bool)
    | Kill(i: nat)
    | Go(i: nat, killed: bool, copied: bool)

  predicate HasLock(t: Thread) {
    t.Write? || t.ReadTest? || t.Read?
  }

  predicate Enabled(s: State, e: Event) {
    |s.ring.data| == PIPESIZE && e.i < |s.threads| &&
    match e
    case Go(i, _, _) => HasLock(s.threads[i]) || ((s.threads[i].WriteLock? || s.threads[i].ReadLock?) && s.lock == None)
    case Close(i, _) => s.threads[i].Idle? && s.lock == None
    case Kill(i) => true
    case _ => s.threads[e.i].Idle?
  }

  /** wakeup(&pi->nread) and wakeup(&pi->nwrite) */
  function WakeReaders(ts: seq<Thread>): (r: seq<Thread>)
    ensures |r| == |ts|
    ensures forall i :: 0 <= i < |ts| ==> r[i] == if ts[i].ReadAsleep? then ReadLock(ts[i].n) else ts[i]
  {
    seq(|ts|, i requires 0 <= i < |ts| => if ts[i].ReadAsleep? then ReadLock(ts[i].n) else ts[i])
  }

  function WakeWriters(ts: seq<Thread>): (r: seq<Thread>)
    ensures |r| == |ts|
    ensures forall i :: 0 <= i < |ts| ==> r[i] == if ts[i].WriteAsleep? then WriteLock(ts[i].src, ts[i].i) else ts[i]
  {
    seq(|ts|, i requires 0 <= i < |ts| => if ts[i].WriteAsleep? then WriteLock(ts[i].src, ts[i].i) else ts[i])
  }

  /** What kill does to a sleeping process; that it has been killed shows when it next looks. */
  function Woken(t: Thread): Thread {
    if t.ReadAsleep? then ReadLock(t.n) else if t.WriteAsleep? then WriteLock(t.src, t.i) else t
  }

  function At(s: State, i: nat, t: Thread): State
    requires i < |s.threads|
  {
    s.(threads := s.threads[i := t])
  }

  function Step(s: State, e: Event): State
    requires Enabled(s, e)
  {
    match e
    case BeginWrite(i, src) => At(s, i, WriteLock(src, 0))
    case BeginRead(i, n) => At(s, i, ReadLock(n))
    case Close(_, writable) =>
      if writable then s.(writeopen := false, threads := WakeReaders(s.threads))
      else s.(readopen := false, threads := WakeWriters(s.threads))
    case Kill(i) => At(s, i, Woken(s.threads[i]))
    case Go(i, killed, copied) =>
      match s.threads[i]
      case WriteLock(src, k) => At(s, i, Write(src, k, false)).(lock := Some(i))
      case ReadLock(n) => At(s, i, ReadTest(n)).(lock := Some(i))
      case Write(_, _, _) => WriteTurn(s, i, killed, copied)
      case ReadTest(n) =>
        if IsEmpty(s.ring) && s.writeopen then At(s, i, if killed then Idle(-1) else ReadAsleep(n)).(lock := None)
        else At(s, i, Read(n, 0))
      case Read(_, _) => ReadTurn(s, i, copied)
  }

  /** One turn of pipewrite's loop, or its end. */
  function WriteTurn(s: State, i: nat, killed: bool, copied: bool): State
    requires i < |s.threads| && s.threads[i].Write? && |s.ring.data| == PIPESIZE
  {
    var src, k := s.threads[i].src, s.threads[i].i;
    if k < |src| && (!s.readopen || killed) then At(s, i, Idle(-1)).(lock := None)
    else if k < |src| && IsFull(s.ring) then
      s.(threads := WakeReaders(s.threads)[i := WriteAsleep(src, k)], lock := None)
    else if k < |src| && copied then
      At(s, i, Write(src, k + 1, true)).(ring := Put(s.ring, src[k]), accepted := s.accepted + [src[k]])
    else s.(threads := WakeReaders(s.threads)[i := Idle(k)], lock := None)
  }

  /** One turn of piperead's copy loop, or its end; a failed copyout has already taken the byte. */
  function ReadTurn(s: State, i: nat, copied: bool): State
    requires i < |s.threads| && s.threads[i].Read? && |s.ring.data| == PIPESIZE
  {
    var n, k := s.threads[i].n, s.threads[i].i;
    if k >= n || IsEmpty(s.ring) then s.(threads := WakeWriters(s.threads)[i := Idle(k)], lock := None)
    else
      var t := s.(ring := Drop(s.ring), consumed := s.consumed + [Next(s.ring)]);
      if copied then At(t, i, Read(n, k + 1)) else t.(threads := WakeWriters(s.threads)[i := Idle(k)], lock := None)
  }

  // ----- First in, first out

  ghost predicate Fifo(s: State) {
    Represents(s.ring, s.accepted, |s.consumed|) && s.consumed == s.accepted[..|s.consumed|]
  }

  lemma StepKeepsFifo(s: State, e: Event)
    requires Fifo(s) && Enabled(s, e)
    ensures Fifo(Step(s, e))
  {
    if e.Go? && s.threads[e.i].Write? && s.threads[e.i].i < |s.threads[e.i].src| && !IsFull(s.ring) {
      PutAppends(s.ring, s.accepted, |s.consumed|, s.threads[e.i].src[s.threads[e.i].i]);
    } else if e.Go? && s.threads[e.i].Read? && !IsEmpty(s.ring) {
      DropTakes(s.ring, s.accepted, |s.consumed|);
    }
  }

  // ----- No lost wakeup

  ghost predicate ThreadOk(s: State, i: nat) {
    i < |s.threads| ==>
      && (HasLock(s.threads[i]) <==> s.lock == Some(i))
      && (s.threads[i].Write? && s.threads[i].dirty ==> s.readopen && !IsEmpty(s.ring))
      && (s.threads[i].ReadAsleep? ==> (IsEmpty(s.ring) && s.writeopen) || Dirty(s))
      && (s.threads[i].WriteAsleep? ==> (IsFull(s.ring) && s.readopen) || Reading(s))
  }

  /** The writer that holds the lock has bytes to announce. */
  predicate Dirty(s: State) {
    s.lock.Some? && s.lock.value < |s.threads| && s.threads[s.lock.value].Write? && s.threads[s.lock.value].dirty
  }

  /** A reader holds the lock and will wake the writers when it is done. */
  predicate Reading(s: State) {
    s.lock.Some? && s.lock.value < |s.threads| && s.threads[s.lock.value].Read?
  }

  ghost predicate Inv(s: State) {
    && (s.lock.Some? ==> s.lock.value < |s.threads|)
    && forall i: nat {:trigger ThreadOk(s, i)} :: ThreadOk(s, i)
  }

  /** The early return of a killed writer that has bytes to announce while a reader sleeps. */
  ghost predicate Strands(s: State, e: Event) {
    && e.Go? && e.killed && e.i < |s.threads| && s.threads[e.i].Write? && s.threads[e.i].i < |s.threads[e.i].src| &&
      s.threads[e.i].dirty
    && exists j :: 0 <= j < |s.threads| && s.threads[j].ReadAsleep?
  }

  lemma WriteTurnKeepsInv(s: State, i: nat, killed: bool, copied: bool)
    requires Inv(s) && Fifo(s) && i < |s.threads| && s.threads[i].Write? && !Strands(s, Go(i, killed, copied))
    ensures Inv(WriteTurn(s, i, killed, copied))
  {
    var t := WriteTurn(s, i, killed, copied);
    assert ThreadOk(s, i);
    if s.threads[i].i < |s.threads[i].src| && !IsFull(s.ring) {
      var ch := s.threads[i].src[s.threads[i].i];
      PutAppends(s.ring, s.accepted, |s.consumed|, ch);
      TestsAreExact(Put(s.ring, ch), s.accepted + [ch], |s.consumed|);
    }
    forall j: nat ensures ThreadOk(t, j) {
      assert ThreadOk(s, j);
    }
  }

  lemma ReadTurnKeepsInv(s: State, i: nat, copied: bool)
    requires Inv(s) && Fifo(s) && i < |s.threads| && s.threads[i].Read?
    ensures Inv(ReadTurn(s, i, copied))
  {
    var t := ReadTurn(s, i, copied);
    assert ThreadOk(s, i);
    forall j: nat ensures ThreadOk(t, j) {
      assert ThreadOk(s, j);
    }
  }

  lemma OtherStepsKeepInv(s: State, e: Event)
    requires Inv(s) && Fifo(s) && Enabled(s, e) && !(e.Go? && (s.threads[e.i].Write? || s.threads[e.i].Read?))
    ensures Inv(Step(s, e))
  {
    var t := Step(s, e);
    assert ThreadOk(s, e.i);
    forall j: nat ensures ThreadOk(t, j) {
      assert ThreadOk(s, j);
    }
  }

  /** A step keeps every sleeper accounted for if and only if it is not that early return. */
  lemma StepKeepsInvExactlyWhen(s: State, e: Event)
    requires Inv(s) && Fifo(s) && Enabled(s, e)
    ensures Inv(Step(s, e)) <==> !Strands(s, e)
  {
    if Strands(s, e) {
      var j :| 0 <= j < |s.threads| && s.threads[j].ReadAsleep?;
      assert ThreadOk(s, e.i) && !ThreadOk(Step(s, e), j);
    } else if e.Go? && s.threads[e.i].Write? {
      WriteTurnKeepsInv(s, e.i, e.killed, e.copied);
    } else if e.Go? && s.threads[e.i].Read? {
      ReadTurnKeepsInv(s, e.i, e.copied);
    } else {
      OtherStepsKeepInv(s, e);
    }
  }

  // ----- Whole runs

  ghost predicate Init(s: State) {
    && s.ring == Ring(s.ring.data, 0, 0) && |s.ring.data| == PIPESIZE && s.readopen && s.writeopen && s.lock == None
    && s.accepted == [] && s.consumed == [] && forall i :: 0 <= i < |s.threads| ==> s.threads[i].Idle?
  }

  ghost predicate IsRun(ss: seq<State>, es: seq<Event>) {
    && |ss| == |es| + 1 && Init(ss[0])
    && forall n :: 0 <= n < |es| ==> Enabled(ss[n], es[n]) && ss[n + 1] == Step(ss[n], es[n])
  }

  /** In every run, kills included, the bytes taken out are a prefix of the bytes put in, and at most
      PIPESIZE are waiting. */
  lemma {:induction false} RunIsFifo(ss: seq<State>, es: seq<Event>, n: nat)
    requires IsRun(ss, es) && n < |ss|
    ensures ss[n].consumed <= ss[n].accepted && |ss[n].accepted| - |ss[n].consumed| <= PIPESIZE
    ensures Fifo(ss[n])
  {
    if n > 0 {
      RunIsFifo(ss, es, n - 1);
      StepKeepsFifo(ss[n - 1], es[n - 1]);
    }
  }

  lemma {:induction false} RunKeepsInv(ss: seq<State>, es: seq<Event>, n: nat)
    requires IsRun(ss, es) && n < |ss| && forall m :: 0 <= m < n ==> !Strands(ss[m], es[m])
    ensures Inv(ss[n])
  {
    if n > 0 {
      RunKeepsInv(ss, es, n - 1);
      RunIsFifo(ss, es, n - 1);
      StepKeepsInvExactlyWhen(ss[n - 1], es[n - 1]);
    }
  }

  /** Without such an early return, whenever the lock is free a sleeping reader has nothing to read and may yet get
      something, and a sleeping writer has no room and may yet get some. */
  lemma SleepersHaveReason(ss: seq<State>, es: seq<Event>, n: nat, i: nat)
    requires IsRun(ss, es) && n < |ss| && forall m :: 0 <= m < n ==> !Strands(ss[m], es[m])
    requires ss[n].lock == None && i < |ss[n].threads|
    ensures ss[n].threads[i].ReadAsleep? ==> ss[n].accepted == ss[n].consumed && ss[n].writeopen
    ensures ss[n].threads[i].WriteAsleep? ==> |ss[n].accepted| == |ss[n].consumed| + PIPESIZE && ss[n].readopen
  {
    RunKeepsInv(ss, es, n);
    RunIsFifo(ss, es, n);
    TestsAreExact(ss[n].ring, ss[n].accepted, |ss[n].consumed|);
    assert ThreadOk(ss[n], i);
  }

  // ----- What each call has done

  /** Thread i is in a call from event m on, up to state n or just before it. */
  ghost predicate InCall(ss: seq<State>, es: seq<Event>, m: nat, n: nat, i: nat) {
    && m < n < |ss| && m < |es| && es[m].i == i
    && forall k :: m < k < n ==> i < |ss[k].threads| && !ss[k].threads[i].Idle?
  }

  /** The bytes thread i has put into the pipe from state m to state n. */
  ghost function Sent(ss: seq<State>, es: seq<Event>, m: nat, n: nat, i: nat): seq<int>
    requires n < |ss| && n <= |es|
    decreases n
  {
    if n <= m then []
    else
      var before, after := ss[n - 1].accepted, ss[n].accepted;
      Sent(ss, es, m, n - 1, i) + if es[n - 1].i == i && |before| <= |after| then after[|before|..] else []
  }

  /** The bytes thread i has taken out of the pipe from state m to state n. */
  ghost function Taken(ss: seq<State>, es: seq<Event>, m: nat, n: nat, i: nat): seq<int>
    requires n < |ss| && n <= |es|
    decreases n
  {
    if n <= m then []
    else
      var before, after := ss[n - 1].consumed, ss[n].consumed;
      Taken(ss, es, m, n - 1, i) + if es[n - 1].i == i && |before| <= |after| then after[|before|..] else []
  }

  /** How far thread i is with a write of src of which sent has gone into the pipe. */
  predicate Writing(t: Thread, src: seq<int>, sent: seq<int>) {
    (t.WriteLock? || t.Write? || t.WriteAsleep?) && t.src == src && t.i <= |src| && sent == src[..t.i]
  }

  /** A turn by which pipewrite returns: why, and with what. */
  ghost predicate WriteEnds(s: State, e: Event, t: State, src: seq<int>, sent: seq<int>) {
    && e.Go? && e.i < |s.threads| && e.i < |t.threads| && t.threads[e.i].Idle? && sent <= src
    && if |sent| < |src| && (!s.readopen || e.killed) then t.threads[e.i].ret == -1
       else t.threads[e.i].ret == |sent| && (|sent| < |src| ==> !e.copied)
  }

  lemma OthersLeaveThread(s: State, e: Event, i: nat)
    requires Enabled(s, e) && i < |s.threads| && e.i != i
    ensures |Step(s, e).threads| == |s.threads|
    ensures Step(s, e).threads[i] == s.threads[i] || Step(s, e).threads[i] == Woken(s.threads[i])
  {
    hide IsEmpty, IsFull, Put, Drop, Next;
  }

  lemma WriterStep(s: State, e: Event, i: nat, src: seq<int>, sent: seq<int>)
    requires Enabled(s, e) && i < |s.threads| && Writing(s.threads[i], src, sent)
    ensures |Step(s, e).threads| == |s.threads|
    ensures e.i == i ==> s.accepted <= Step(s, e).accepted
    ensures var t := Step(s, e);
      var more := if e.i == i then t.accepted[|s.accepted|..] else [];
      Writing(t.threads[i], src, sent + more) || (e.i == i && WriteEnds(s, e, t, src, sent + more))
  {
    if e.i != i {
      OthersLeaveThread(s, e, i);
      assert sent + [] == sent;
    } else if e.Go? && s.threads[i].Write? && s.threads[i].i < |src| {
      assert src[..s.threads[i].i] + [src[s.threads[i].i]] == src[..s.threads[i].i + 1];
      assert sent + [] == sent;
    } else {
      assert sent + [] == sent;
    }
  }

  lemma RunStep(ss: seq<State>, es: seq<Event>, n: nat)
    requires IsRun(ss, es) && n + 1 < |ss|
    ensures n < |es| && Enabled(ss[n], es[n]) && ss[n + 1] == Step(ss[n], es[n])
  {
  }

  /**
   pipewrite, over every run: while it is under way the bytes it has put into
   the pipe are the first i of src; when it returns they are a prefix of src,
   all of it unless a copyin failed, the process was killed or the read end
   was closed, and the count it returns is theirs or, in the last two cases, -1.
   */
  lemma {:induction false} WriteSendsPrefix(ss: seq<State>, es: seq<Event>, m: nat, n: nat, i: nat, src: seq<int>)
    requires IsRun(ss, es) && InCall(ss, es, m, n, i) && es[m] == BeginWrite(i, src)
    ensures n <= |es| && i < |ss[n].threads|
    ensures var sent := Sent(ss, es, m, n, i);
      || Writing(ss[n].threads[i], src, sent)
      || (es[n - 1].i == i && WriteEnds(ss[n - 1], es[n - 1], ss[n], src, sent))
    decreases n
  {
    hide Step, Enabled, Writing, WriteEnds, IsRun;
    RunStep(ss, es, n - 1);
    if n - 1 == m {
      WriteStarts(ss, es, m, i, src);
    } else {
      WriteSendsPrefix(ss, es, m, n - 1, i, src);
      StillWriting(ss[n - 2], es[n - 2], ss[n - 1], i, src, Sent(ss, es, m, n - 1, i));
      WriterStep(ss[n - 1], es[n - 1], i, src, Sent(ss, es, m, n - 1, i));
    }
  }

  lemma StillWriting(s: State, e: Event, t: State, i: nat, src: seq<int>, sent: seq<int>)
    requires i < |t.threads| && !t.threads[i].Idle?
    ensures !(e.i == i && WriteEnds(s, e, t, src, sent))
  {
  }

  lemma WriteStarts(ss: seq<State>, es: seq<Event>, m: nat, i: nat, src: seq<int>)
    requires IsRun(ss, es) && m < |es| && es[m] == BeginWrite(i, src)
    ensures i < |ss[m + 1].threads| && Writing(ss[m + 1].threads[i], src, Sent(ss, es, m, m + 1, i))
  {
    assert Sent(ss, es, m, m, i) == [];
  }

  /** How far thread i is with a read of n bytes of which it has got some. */
  predicate ReadingNow(t: Thread, n: nat, got: seq<int>) {
    if t.Read? then t.n == n && t.i == |got| <= n
    else (t.ReadLock? || t.ReadTest? || t.ReadAsleep?) && t.n == n && got == []
  }

  /** A turn by which piperead returns: why, and with what.  A byte whose copyout fails is taken and not counted. */
  ghost predicate ReadEnds(s: State, e: Event, t: State, n: nat, got: seq<int>) {
    && e.Go? && e.i < |s.threads| && e.i < |t.threads| && t.threads[e.i].Idle?
    && var ret := t.threads[e.i].ret;
    || (ret == -1 && e.killed && got == [] && IsEmpty(s.ring) && s.writeopen)
    || (ret == |got| && (ret == n || IsEmpty(t.ring)))
    || (ret == |got| - 1 < n && !e.copied)
  }

  lemma ReaderStep(s: State, e: Event, i: nat, n: nat, got: seq<int>)
    requires Enabled(s, e) && i < |s.threads| && ReadingNow(s.threads[i], n, got)
    ensures |Step(s, e).threads| == |s.threads|
    ensures e.i == i ==> s.consumed <= Step(s, e).consumed
    ensures var t := Step(s, e);
      var more := if e.i == i then t.consumed[|s.consumed|..] else [];
      ReadingNow(t.threads[i], n, got + more) || (e.i == i && ReadEnds(s, e, t, n, got + more))
  {
    if e.i != i {
      OthersLeaveThread(s, e, i);
    }
    assert got + [] == got;
  }

  /**
   piperead, over every run: when it returns, it has got as many bytes as it
   says, all that were asked for or all there were, unless a copyout failed
   or it was killed while it waited.
   */
  lemma {:induction false} ReadTakesAll(ss: seq<State>, es: seq<Event>, m: nat, n: nat, i: nat, want: nat)
    requires IsRun(ss, es) && InCall(ss, es, m, n, i) && es[m] == BeginRead(i, want)
    ensures n <= |es| && i < |ss[n].threads|
    ensures var got := Taken(ss, es, m, n, i);
      || ReadingNow(ss[n].threads[i], want, got)
      || (es[n - 1].i == i && ReadEnds(ss[n - 1], es[n - 1], ss[n], want, got))
    decreases n
  {
    hide Step, Enabled, ReadingNow, ReadEnds, IsRun;
    RunStep(ss, es, n - 1);
    if n - 1 == m {
      ReadStarts(ss, es, m, i, want);
    } else {
      ReadTakesAll(ss, es, m, n - 1, i, want);
      StillReading(ss[n - 2], es[n - 2], ss[n - 1], i, want, Taken(ss, es, m, n - 1, i));
      ReaderStep(ss[n - 1], es[n - 1], i, want, Taken(ss, es, m, n - 1, i));
    }
  }

  lemma StillReading(s: State, e: Event, t: State, i: nat, n: nat, got: seq<int>)
    requires i < |t.threads| && !t.threads[i].Idle?
    ensures !(e.i == i && ReadEnds(s, e, t, n, got))
  {
  }

  lemma ReadStarts(ss: seq<State>, es: seq<Event>, m: nat, i: nat, want: nat)
    requires IsRun(ss, es) && m < |es| && es[m] == BeginRead(i, want)
    ensures i < |ss[m + 1].threads| && ReadingNow(ss[m + 1].threads[i], want, Taken(ss, es, m, m + 1, i))
  {
    assert Taken(ss, es, m, m, i) == [];
  }

  // ----- End of file

  /** One thread at a time has the lock, and a reader that has just begun to copy finds bytes or no writer. */
  ghost predicate TurnOk(s: State, i: nat) {
    i < |s.threads| ==>
      && (HasLock(s.threads[i]) <==> s.lock == Some(i))
      && (s.threads[i].Read? && s.threads[i].i == 0 ==> !IsEmpty(s.ring) || !s.writeopen)
  }

  lemma StepKeepsTurn(s: State, e: Event, i: nat)
    requires Enabled(s, e) && TurnOk(s, i) && TurnOk(s, e.i)
    ensures TurnOk(Step(s, e), i)
  {
  }

  lemma {:induction false} RunKeepsTurn(ss: seq<State>, es: seq<Event>, n: nat, i: nat)
    requires IsRun(ss, es) && n < |ss|
    ensures TurnOk(ss[n], i)
    decreases n
  {
    if n > 0 {
      hide Step, Enabled, TurnOk, IsRun;
      RunStep(ss, es, n - 1);
      RunKeepsTurn(ss, es, n - 1, i);
      RunKeepsTurn(ss, es, n - 1, es[n - 1].i);
      StepKeepsTurn(ss[n - 1], es[n - 1], i);
    }
  }

  /** A read that returns 0, of some bytes and without a failed copyout, has found the pipe empty and no writer. */
  lemma ZeroMeansEnd(ss: seq<State>, es: seq<Event>, n: nat, i: nat)
    requires IsRun(ss, es) && n < |es| && es[n].i == i && i < |ss[n].threads| && i < |ss[n + 1].threads|
    requires ss[n].threads[i].Read? && ss[n].threads[i].n > 0 && ss[n + 1].threads[i] == Idle(0) && es[n].Go?
    requires es[n].copied
    ensures ss[n].accepted == ss[n].consumed && !ss[n].writeopen
  {
    RunKeepsTurn(ss, es, n, i);
    RunIsFifo(ss, es, n);
    TestsAreExact(ss[n].ring, ss[n].accepted, |ss[n].consumed|);
  }

  /** A closed end stays closed, and nothing is accepted once the read end is. */
  lemma {:induction false} ClosedStays(ss: seq<State>, es: seq<Event>, m: nat, n: nat)
    requires IsRun(ss, es) && m < n < |ss| && m < |es| && es[m].Close?
    ensures if es[m].writable then !ss[n].writeopen else !ss[n].readopen && ss[n].accepted == ss[m].accepted
    decreases n
  {
    if n - 1 > m {
      ClosedStays(ss, es, m, n - 1);
    }
  }

  /** A run in which a reader goes to sleep, and a writer is killed after its first byte. */
  function StrandingState(data: seq<int>, n: nat): State
    requires |data| == PIPESIZE
  {
    var s := State(Ring(data, 0, 0), true, true, None, [Idle(0), Idle(0)], [], []);
    match n
    case 0 => s
    case 1 => s.(threads := [ReadLock(1), Idle(0)])
    case 2 => s.(threads := [ReadTest(1), Idle(0)], lock := Some(0))
    case 3 => s.(threads := [ReadAsleep(1), Idle(0)])
    case 4 => s.(threads := [ReadAsleep(1), WriteLock([7, 8], 0)])
    case 5 => s.(threads := [ReadAsleep(1), Write([7, 8], 0, false)], lock := Some(1))
    case 6 => State(Put(s.ring, 7), true, true, Some(1), [ReadAsleep(1), Write([7, 8], 1, true)], [7], [])
    case _ => State(Put(s.ring, 7), true, true, None, [ReadAsleep(1), Idle(-1)], [7], [])
  }

  function StrandingEvent(n: nat): Event {
    match n
    case 0 => BeginRead(0, 1)
    case 1 => Go(0, false, true)
    case 2 => Go(0, false, true)
    case 3 => BeginWrite(1, [7, 8])
    case 4 => Go(1, false, true)
    case 5 => Go(1, false, true)
    case _ => Go(1, true, true)
  }

  lemma StrandingStep(data: seq<int>, n: nat)
    requires |data| == PIPESIZE && n < 7
    ensures Enabled(StrandingState(data, n), StrandingEvent(n))
    ensures StrandingState(data, n + 1) == Step(StrandingState(data, n), StrandingEvent(n))
  {
    assert [] + [7] == [7];
  }

  /** The early return does happen: a killed writer leaves a reader asleep beside a byte. */
  lemma KilledWriterStrandsReader(data: seq<int>) returns (ss: seq<State>, es: seq<Event>)
    requires |data| == PIPESIZE
    ensures IsRun(ss, es)
    ensures var t := ss[|es|];
      t.lock == None && t.writeopen && |t.threads| == 2 && t.threads[0].ReadAsleep? && |t.accepted| > |t.consumed|
  {
    ss := seq(8, n requires 0 <= n => StrandingState(data, n));
    es := seq(7, n requires 0 <= n => StrandingEvent(n));
    forall n | 0 <= n < |es| ensures Enabled(ss[n], es[n]) && ss[n + 1] == Step(ss[n], es[n]) {
      StrandingStep(data, n);
    }
  }
}
