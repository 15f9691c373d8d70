/**
 Sleep locks (kernel/sleeplock.c) over sleep, wakeup, yield, kill and the
 scheduler (kernel/proc.c), as interleaved steps of CPUs.  A spinlock records
 the CPU that holds it, so p->lock needs no hand-over when swtch moves a CPU
 between a process and its scheduler.  Each step is at most one spinlock
 operation together with the accesses it protects.
 */
module SleepLock {
  import opened Common

  datatype RunState = Runnable | Running | Sleeping

  /** Where a process is.  Free, Acquire, Release and Kill hold no spinlock. */
  datatype Pc =
    | Free
    | Acquire(l: nat)                  // acquiresleep, or sleep's end: before acquire(&lk->lk)
    | Test(l: nat)                     // at the loop test, inner lock held
    | Commit(l: nat)                   // in sleep, before acquire(&p->lock)
    | LetGo(l: nat)                    // both locks held, before release(lk)
    | Mark(l: nat)                     // p->lock held, before chan and state are set
    | Switch(next: Pc)                 // p->lock held, in sched before swtch
    | Off(next: Pc)                    // not on a CPU
    | Back(next: Pc)                   // back from swtch, p->lock held
    | Drop(l: nat)                     // before release(&lk->lk)
    | Release(l: nat)                  // releasesleep, before acquire(&lk->lk)
    | Clear(l: nat)                    // before locked and pid are cleared
    | Wake(l: nat, j: nat)             // in wakeup, about to look at process j
    | Check(l: nat, j: nat)            // in wakeup, holding process j's lock
    | Kill(j: nat)                     // kill, before acquire(&p->lock)
    | KillCheck(j: nat)                // in kill, holding process j's lock

  /** cpu is the CPU the process runs on, or last ran on; held the sleep locks acquiresleep gave it. */
  datatype Proc = Proc(st: RunState, chan: Option<nat>, pc: Pc, cpu: nat, held: set<nat>)

  datatype Cpu =
    | Scan                             // scheduler, holding nothing
    | Got(j: nat)                      // scheduler, holding process j's lock
    | Run(i: nat)                      // running process i
    | Done(j: nat)                     // scheduler, back from process j

  datatype Lock = Lock(inner: Option<nat>, locked: bool, pid: nat)

  datatype State = State(procs: seq<Proc>, plock: seq<Option<nat>>, cpus: seq<Cpu>, locks: seq<Lock>)

  datatype Event =
    | Pick(c: nat, j: nat)             // scheduler acquires process j's lock
    | Sched(c: nat)                    // scheduler goes on from Got or Done
    | BeginAcquire(c: nat, l: nat)
    | BeginRelease(c: nat, l: nat)
    | BeginKill(c: nat, j: nat)
    | Interrupt(c: nat)                // timer interrupt: yield
    | Go(c: nat)                       // the process on c takes its next step

  predicate Resting(pc: Pc) {
    pc.Free? || pc.Acquire? || pc.Release? || pc.Kill?
  }

  predicate HasInner(pc: Pc, l: nat) {
    match pc
    case Test(k) => k == l
    case Commit(k) => k == l
    case LetGo(k) => k == l
    case Drop(k) => k == l
    case Clear(k) => k == l
    case Wake(k, _) => k == l
    case Check(k, _) => k == l
    case _ => false
  }

  predicate HasOwn(pc: Pc) {
    pc.LetGo? || pc.Mark? || pc.Switch? || pc.Back?
  }

  predicate HasOther(pc: Pc, j: nat) {
    (pc.Check? && pc.j == j) || (pc.KillCheck? && pc.j == j)
  }

  predicate Shape(s: State) {
    |s.plock| == |s.procs|
  }

  /** The process on c, when one runs there, is at such a place. */
  predicate OnCpu(s: State, c: nat) {
    Shape(s) && c < |s.cpus| && s.cpus[c].Run? && s.cpus[c].i < |s.procs|
  }

  function PcOn(s: State, c: nat): Pc
    requires OnCpu(s, c)
  {
    s.procs[s.cpus[c].i].pc
  }

  /** At a step of acquiresleep or releasesleep that takes, tests, sets or drops the lock. */
  predicate Locking(s: State, c: nat) {
    OnCpu(s, c) &&
    match PcOn(s, c)
    case Acquire(l) => l < |s.locks| && s.locks[l].inner == None
    case Release(l) => l < |s.locks| && s.locks[l].inner == None
    case Test(l) => l < |s.locks|
    case Clear(l) => l < |s.locks|
    case Drop(l) => l < |s.locks|
    case _ => false
  }

  /** At a step of sleep, sched or yield. */
  predicate Napping(s: State, c: nat) {
    OnCpu(s, c) &&
    match PcOn(s, c)
    case Commit(_) => s.plock[s.cpus[c].i] == None
    case LetGo(l) => l < |s.locks|
    case Mark(_) => true
    case Switch(_) => true
    case Back(_) => true
    case _ => false
  }

  /** At a step of wakeup. */
  predicate Waking(s: State, c: nat) {
    OnCpu(s, c) &&
    match PcOn(s, c)
    case Wake(_, j) => j < |s.procs| && j != s.cpus[c].i ==> s.plock[j] == None
    case Check(_, j) => j < |s.procs|
    case _ => false
  }

  predicate Killing(s: State, c: nat) {
    OnCpu(s, c) &&
    match PcOn(s, c)
    case Kill(j) => j < |s.procs| && s.plock[j] == None
    case KillCheck(j) => j < |s.procs|
    case _ => false
  }

  predicate Enabled(s: State, e: Event) {
    && Shape(s) && e.c < |s.cpus|
    && match e
       case Pick(c, j) => s.cpus[c] == Scan && j < |s.procs| && s.plock[j] == None
       case Sched(c) => (s.cpus[c].Got? || s.cpus[c].Done?) && s.cpus[c].j < |s.procs|
       case BeginAcquire(c, l) => CanStart(s, c, Acquire(l))
       case BeginRelease(c, l) => CanStart(s, c, Release(l))
       case BeginKill(c, j) => CanStart(s, c, Kill(j))
       case Interrupt(c) => OnCpu(s, c) && Resting(PcOn(s, c)) && s.plock[s.cpus[c].i] == None
       case Go(c) => Locking(s, c) || Napping(s, c) || Waking(s, c) || Killing(s, c)
  }

  /** What a process outside any lock may start. */
  predicate Starts(s: State, p: Proc, pc: Pc) {
    match pc
    case Acquire(l) => l < |s.locks|
    case Release(l) => l in p.held
    case Kill(j) => j < |s.procs|
    case _ => false
  }

  predicate CanStart(s: State, c: nat, pc: Pc) {
    OnCpu(s, c) && PcOn(s, c).Free? && Starts(s, s.procs[s.cpus[c].i], pc)
  }

  function At(s: State, i: nat, pc: Pc): State
    requires i < |s.procs|
  {
    s.(procs := s.procs[i := s.procs[i].(pc := pc)])
  }

  function SetLock(s: State, l: nat, lock: Lock): State
    requires l < |s.locks|
  {
    s.(locks := s.locks[l := lock])
  }

  function SetPlock(s: State, j: nat, o: Option<nat>): State
    requires j < |s.plock|
  {
    s.(plock := s.plock[j := o])
  }

  function Woken(p: Proc, wake: bool): Proc {
    if wake && p.st == Sleeping then p.(st := Runnable) else p
  }

  function Step(s: State, e: Event): State
    requires Enabled(s, e)
  {
    var c := e.c;
    match e
    case Pick(_, j) => SetPlock(s, j, Some(c)).(cpus := s.cpus[c := Got(j)])
    case Sched(_) => SchedStep(s, c)
    case BeginAcquire(_, l) => At(s, s.cpus[c].i, Acquire(l))
    case BeginRelease(_, l) => At(s, s.cpus[c].i, Release(l))
    case BeginKill(_, j) => At(s, s.cpus[c].i, Kill(j))
    case Interrupt(_) =>
      var i := s.cpus[c].i;
      SetPlock(s, i, Some(c)).(procs := s.procs[i := s.procs[i].(st := Runnable, pc := Switch(s.procs[i].pc))])
    case Go(_) => if Locking(s, c) then LockStep(s, c) else if Napping(s, c) then NapStep(s, c)
      else if Waking(s, c) then WakeStep(s, c) else KillStep(s, c)
  }

  /** scheduler: switch to a runnable process, or let its lock go. */
  function SchedStep(s: State, c: nat): State
    requires Enabled(s, Sched(c))
  {
    var j := s.cpus[c].j;
    if s.cpus[c].Got? && s.procs[j].st == Runnable then
      var next := if s.procs[j].pc.Off? then s.procs[j].pc.next else Free;
      s.(procs := s.procs[j := s.procs[j].(st := Running, cpu := c, pc := Back(next))], cpus := s.cpus[c := Run(j)])
    else SetPlock(s, j, None).(cpus := s.cpus[c := Scan])
  }

  function LockStep(s: State, c: nat): State
    requires Locking(s, c)
  {
    var i := s.cpus[c].i;
    var p := s.procs[i];
    match p.pc
    case Acquire(l) => At(SetLock(s, l, s.locks[l].(inner := Some(c))), i, Test(l))
    case Test(l) =>
      if s.locks[l].locked then At(s, i, Commit(l))
      else SetLock(s, l, s.locks[l].(locked := true, pid := i))
        .(procs := s.procs[i := p.(pc := Drop(l), held := p.held + {l})])
    case Drop(l) => At(SetLock(s, l, s.locks[l].(inner := None)), i, Free)
    case Release(l) => At(SetLock(s, l, s.locks[l].(inner := Some(c))), i, Clear(l))
    case Clear(l) =>
      SetLock(s, l, s.locks[l].(locked := false, pid := 0))
        .(procs := s.procs[i := p.(pc := Wake(l, 0), held := p.held - {l})])
  }

  function NapStep(s: State, c: nat): State
    requires Napping(s, c)
  {
    var i := s.cpus[c].i;
    var p := s.procs[i];
    match p.pc
    case Commit(l) => At(SetPlock(s, i, Some(c)), i, LetGo(l))
    case LetGo(l) => At(SetLock(s, l, s.locks[l].(inner := None)), i, Mark(l))
    case Mark(l) => s.(procs := s.procs[i := p.(chan := Some(l), st := Sleeping, pc := Switch(Acquire(l)))])
    case Switch(next) => At(s, i, Off(next)).(cpus := s.cpus[c := Done(i)])
    case Back(next) => SetPlock(s, i, None).(procs := s.procs[i := p.(chan := None, pc := next)])
  }

  function WakeStep(s: State, c: nat): State
    requires Waking(s, c)
  {
    var i := s.cpus[c].i;
    match s.procs[i].pc
    case Wake(l, j) =>
      if j >= |s.procs| then At(s, i, Drop(l))
      else if j == i then At(s, i, Wake(l, j + 1))
      else At(SetPlock(s, j, Some(c)), i, Check(l, j))
    case Check(l, j) =>
      At(SetPlock(s, j, None).(procs := s.procs[j := Woken(s.procs[j], s.procs[j].chan == Some(l))]), i, Wake(l, j + 1))
  }

  function KillStep(s: State, c: nat): State
    requires Killing(s, c)
  {
    var i := s.cpus[c].i;
    match s.procs[i].pc
    case Kill(j) => At(SetPlock(s, j, Some(c)), i, KillCheck(j))
    case KillCheck(j) => At(SetPlock(s, j, None).(procs := s.procs[j := Woken(s.procs[j], true)]), i, Free)
  }

  // ----- The invariant

  ghost predicate ProcOk(s: State, i: nat)
    requires Shape(s)
  {
    i < |s.procs| ==>
      var p := s.procs[i];
      && (!p.pc.Off? ==> p.cpu < |s.cpus| && s.cpus[p.cpu] == Run(i))
      && (if p.pc.Off? || p.pc.Switch? then p.st != Running else p.st == Running)
      && (p.pc.Off? || p.pc.Switch? || p.pc.Back? ==> Resting(p.pc.next))
      && (p.st == Sleeping ==> p.pc.next.Acquire? && p.chan == Some(p.pc.next.l))
      && (HasOwn(p.pc) ==> s.plock[i] == Some(p.cpu))
      && (p.pc.Check? || p.pc.KillCheck? ==> p.pc.j < |s.plock| && s.plock[p.pc.j] == Some(p.cpu))
  }

  ghost predicate CpuOk(s: State, c: nat)
    requires Shape(s)
  {
    c < |s.cpus| ==>
      && (s.cpus[c].Run? ==> s.cpus[c].i < |s.procs| && !s.procs[s.cpus[c].i].pc.Off? && s.procs[s.cpus[c].i].cpu == c)
      && (s.cpus[c].Got? || s.cpus[c].Done? ==> s.cpus[c].j < |s.procs| && s.plock[s.cpus[c].j] == Some(c))
  }

  ghost predicate PlockOk(s: State, j: nat)
    requires Shape(s)
  {
    j < |s.plock| && s.plock[j].Some? ==>
      var c := s.plock[j].value;
      && c < |s.cpus|
      && (s.cpus[c] == Got(j) || s.cpus[c] == Done(j)
          || (s.cpus[c].Run? && s.cpus[c].i < |s.procs|
              && ((s.cpus[c].i == j && HasOwn(s.procs[j].pc)) || HasOther(s.procs[s.cpus[c].i].pc, j))))
  }

  /** Process i is asleep on l, or has let go of l's inner lock to go to sleep. */
  predicate Bound(p: Proc, l: nat) {
    p.pc == LetGo(l) || p.pc == Mark(l) || (p.st == Sleeping && p.chan == Some(l))
  }

  /** A releaser of l is in wakeup and has yet to look at process i. */
  predicate WakerBefore(s: State, l: nat, i: nat)
    requires l < |s.locks|
  {
    s.locks[l].inner.Some? &&
    var c := s.locks[l].inner.value;
    c < |s.cpus| && s.cpus[c].Run? && s.cpus[c].i < |s.procs| &&
    var pc := s.procs[s.cpus[c].i].pc;
    (pc.Wake? || pc.Check?) && pc.l == l && pc.j <= i
  }

  predicate Releasing(pc: Pc, l: nat) {
    pc == Release(l) || pc == Clear(l)
  }

  /** What process i has of lock l, or is about to ask for. */
  ghost predicate ClaimOk(s: State, i: nat, l: nat) {
    i < |s.procs| ==>
      var p := s.procs[i];
      var rest := if p.pc.Off? || p.pc.Switch? || p.pc.Back? then p.pc.next else p.pc;
      && (l in p.held ==> l < |s.locks| && s.locks[l].locked && s.locks[l].pid == i)
      && (rest == Acquire(l) || p.pc == Mark(l) ==> l < |s.locks|)
      && (Releasing(rest, l) ==> l in p.held)
  }

  /** What process i knows of lock l while it holds l's inner lock. */
  ghost predicate InnerOk(s: State, i: nat, l: nat) {
    i < |s.procs| ==>
      var p := s.procs[i];
      && (HasInner(p.pc, l) ==> l < |s.locks| && s.locks[l].inner == Some(p.cpu))
      && (p.pc == Commit(l) || p.pc == LetGo(l) ==> s.locks[l].locked)
      && ((p.pc.Wake? || p.pc.Check?) && p.pc.l == l ==> !s.locks[l].locked)
  }

  ghost predicate PairOk(s: State, i: nat, l: nat) {
    ClaimOk(s, i, l) && InnerOk(s, i, l)
  }

  /** Whoever sleeps on l, or is about to, finds l locked or has a waker coming. */
  ghost predicate BoundOk(s: State, i: nat, l: nat) {
    i < |s.procs| && Bound(s.procs[i], l) ==> l < |s.locks| && (s.locks[l].locked || WakerBefore(s, l, i))
  }

  ghost predicate LockOk(s: State, l: nat) {
    l < |s.locks| ==>
      && (s.locks[l].inner.Some? ==>
        var c := s.locks[l].inner.value;
        c < |s.cpus| && s.cpus[c].Run? && s.cpus[c].i < |s.procs| && HasInner(s.procs[s.cpus[c].i].pc, l))
      && (s.locks[l].locked ==> s.locks[l].pid < |s.procs| && l in s.procs[s.locks[l].pid].held)
  }

  ghost predicate Inv(s: State) {
    && Shape(s)
    && (forall i: nat {:trigger ProcOk(s, i)} :: ProcOk(s, i))
    && (forall c: nat {:trigger CpuOk(s, c)} :: CpuOk(s, c))
    && (forall j: nat {:trigger PlockOk(s, j)} :: PlockOk(s, j))
    && (forall l: nat {:trigger LockOk(s, l)} :: LockOk(s, l))
    && (forall i: nat, l: nat {:trigger PairOk(s, i, l)} :: PairOk(s, i, l))
    && (forall i: nat, l: nat {:trigger BoundOk(s, i, l)} :: BoundOk(s, i, l))
  }

  // ----- Every step keeps the invariant, clause by clause

  /** The process a step of CPU c is about. */
  function Subject(s: State, e: Event): nat
    requires Enabled(s, e)
  {
    match s.cpus[e.c]
    case Run(i) => i
    case Got(j) => j
    case Done(j) => j
    case Scan => if e.Pick? then e.j else 0
  }

  lemma LockKeepsProc(s: State, c: nat, i: nat)
    requires Inv(s) && Locking(s, c)
    ensures var t := LockStep(s, c); Shape(t) && ProcOk(t, i)
  {
    var m := s.cpus[c].i;
    assert ProcOk(s, i) && ProcOk(s, m) && CpuOk(s, c);
  }

  lemma LockKeepsCpu(s: State, c: nat, i: nat)
    requires Inv(s) && Locking(s, c)
    ensures var t := LockStep(s, c); Shape(t) && CpuOk(t, i) && PlockOk(t, i)
  {
    var m := s.cpus[c].i;
    assert CpuOk(s, i) && PlockOk(s, i) && ProcOk(s, m) && CpuOk(s, c);
  }

  lemma LockKeepsLock(s: State, c: nat, l: nat)
    requires Inv(s) && Locking(s, c)
    ensures var t := LockStep(s, c); Shape(t) && LockOk(t, l)
  {
    var m := s.cpus[c].i;
    assert LockOk(s, l) && PairOk(s, m, l) && ProcOk(s, m) && CpuOk(s, c);
  }

  lemma LockKeepsClaim(s: State, c: nat, i: nat, l: nat)
    requires Inv(s) && Locking(s, c)
    ensures var t := LockStep(s, c); Shape(t) && ClaimOk(t, i, l)
  {
    var m := s.cpus[c].i;
    assert PairOk(s, i, l) && PairOk(s, m, l) && LockOk(s, l) && ProcOk(s, i) && ProcOk(s, m) && CpuOk(s, c);
  }

  lemma LockKeepsInner(s: State, c: nat, i: nat, l: nat)
    requires Inv(s) && Locking(s, c)
    ensures var t := LockStep(s, c); Shape(t) && InnerOk(t, i, l)
  {
    var m := s.cpus[c].i;
    assert PairOk(s, i, l) && PairOk(s, m, l) && LockOk(s, l) && ProcOk(s, i) && ProcOk(s, m) && CpuOk(s, c);
  }

  lemma LockKeepsBound(s: State, c: nat, i: nat, l: nat)
    requires Inv(s) && Locking(s, c)
    ensures var t := LockStep(s, c); Shape(t) && BoundOk(t, i, l)
  {
    var m := s.cpus[c].i;
    assert BoundOk(s, i, l) && PairOk(s, i, l) && PairOk(s, m, l) && LockOk(s, l) && ProcOk(s, i) &&
      ProcOk(s, m) && CpuOk(s, c);
  }

  lemma NapKeepsProc(s: State, c: nat, i: nat)
    requires Inv(s) && Napping(s, c)
    ensures var t := NapStep(s, c); Shape(t) && ProcOk(t, i)
  {
    var m := s.cpus[c].i;
    assert ProcOk(s, i) && ProcOk(s, m) && CpuOk(s, c);
  }

  lemma NapKeepsCpu(s: State, c: nat, i: nat)
    requires Inv(s) && Napping(s, c)
    ensures var t := NapStep(s, c); Shape(t) && CpuOk(t, i) && PlockOk(t, i)
  {
    var m := s.cpus[c].i;
    assert CpuOk(s, i) && PlockOk(s, i) && ProcOk(s, m) && CpuOk(s, c);
  }

  lemma NapKeepsLock(s: State, c: nat, l: nat)
    requires Inv(s) && Napping(s, c)
    ensures var t := NapStep(s, c); Shape(t) && LockOk(t, l)
  {
    var m := s.cpus[c].i;
    assert LockOk(s, l) && PairOk(s, m, l) && ProcOk(s, m) && CpuOk(s, c);
  }

  lemma NapKeepsClaim(s: State, c: nat, i: nat, l: nat)
    requires Inv(s) && Napping(s, c)
    ensures var t := NapStep(s, c); Shape(t) && ClaimOk(t, i, l)
  {
    var m := s.cpus[c].i;
    assert PairOk(s, i, l) && PairOk(s, m, l) && LockOk(s, l) && ProcOk(s, i) && ProcOk(s, m) && CpuOk(s, c);
  }

  lemma NapKeepsInner(s: State, c: nat, i: nat, l: nat)
    requires Inv(s) && Napping(s, c)
    ensures var t := NapStep(s, c); Shape(t) && InnerOk(t, i, l)
  {
    var m := s.cpus[c].i;
    assert PairOk(s, i, l) && PairOk(s, m, l) && LockOk(s, l) && ProcOk(s, i) && ProcOk(s, m) && CpuOk(s, c);
  }

  lemma NapKeepsBound(s: State, c: nat, i: nat, l: nat)
    requires Inv(s) && Napping(s, c)
    ensures var t := NapStep(s, c); Shape(t) && BoundOk(t, i, l)
  {
    var m := s.cpus[c].i;
    assert BoundOk(s, i, l) && PairOk(s, i, l) && PairOk(s, m, l) && LockOk(s, l) && ProcOk(s, i) &&
      ProcOk(s, m) && CpuOk(s, c);
  }

  lemma WakeKeepsProc(s: State, c: nat, i: nat)
    requires Inv(s) && Waking(s, c)
    ensures var t := WakeStep(s, c); Shape(t) && ProcOk(t, i)
  {
    var m := s.cpus[c].i;
    assert ProcOk(s, i) && ProcOk(s, m) && CpuOk(s, c);
  }

  lemma WakeKeepsCpu(s: State, c: nat, i: nat)
    requires Inv(s) && Waking(s, c)
    ensures var t := WakeStep(s, c); Shape(t) && CpuOk(t, i) && PlockOk(t, i)
  {
    var m := s.cpus[c].i;
    assert CpuOk(s, i) && PlockOk(s, i) && ProcOk(s, m) && CpuOk(s, c);
  }

  lemma WakeKeepsLock(s: State, c: nat, l: nat)
    requires Inv(s) && Waking(s, c)
    ensures var t := WakeStep(s, c); Shape(t) && LockOk(t, l)
  {
    var m := s.cpus[c].i;
    assert LockOk(s, l) && PairOk(s, m, l) && ProcOk(s, m) && CpuOk(s, c);
  }

  lemma WakeKeepsPair(s: State, c: nat, i: nat, l: nat)
    requires Inv(s) && Waking(s, c)
    ensures var t := WakeStep(s, c); Shape(t) && PairOk(t, i, l)
  {
    var m := s.cpus[c].i;
    assert PairOk(s, i, l) && PairOk(s, m, l) && LockOk(s, l) && ProcOk(s, i) && ProcOk(s, m) && CpuOk(s, c);
  }

  lemma WakeKeepsBound(s: State, c: nat, i: nat, l: nat)
    requires Inv(s) && Waking(s, c)
    ensures var t := WakeStep(s, c); Shape(t) && BoundOk(t, i, l)
  {
    var m := s.cpus[c].i;
    assert BoundOk(s, i, l) && PairOk(s, i, l) && PairOk(s, m, l) && LockOk(s, l) && ProcOk(s, i) &&
      ProcOk(s, m) && CpuOk(s, c);
  }

  lemma KillKeepsProc(s: State, c: nat, i: nat)
    requires Inv(s) && Killing(s, c)
    ensures var t := KillStep(s, c); Shape(t) && ProcOk(t, i)
  {
    var m := s.cpus[c].i;
    assert ProcOk(s, i) && ProcOk(s, m) && CpuOk(s, c);
  }

  lemma KillKeepsCpu(s: State, c: nat, i: nat)
    requires Inv(s) && Killing(s, c)
    ensures var t := KillStep(s, c); Shape(t) && CpuOk(t, i) && PlockOk(t, i)
  {
    var m := s.cpus[c].i;
    assert CpuOk(s, i) && PlockOk(s, i) && ProcOk(s, m) && CpuOk(s, c);
  }

  lemma KillKeepsLock(s: State, c: nat, l: nat)
    requires Inv(s) && Killing(s, c)
    ensures var t := KillStep(s, c); Shape(t) && LockOk(t, l)
  {
    var m := s.cpus[c].i;
    assert LockOk(s, l) && PairOk(s, m, l) && ProcOk(s, m) && CpuOk(s, c);
  }

  lemma KillKeepsPair(s: State, c: nat, i: nat, l: nat)
    requires Inv(s) && Killing(s, c)
    ensures var t := KillStep(s, c); Shape(t) && PairOk(t, i, l)
  {
    var m := s.cpus[c].i;
    assert PairOk(s, i, l) && PairOk(s, m, l) && LockOk(s, l) && ProcOk(s, i) && ProcOk(s, m) && CpuOk(s, c);
  }

  lemma KillKeepsBound(s: State, c: nat, i: nat, l: nat)
    requires Inv(s) && Killing(s, c)
    ensures var t := KillStep(s, c); Shape(t) && BoundOk(t, i, l)
  {
    var m := s.cpus[c].i;
    assert BoundOk(s, i, l) && PairOk(s, i, l) && PairOk(s, m, l) && LockOk(s, l) && ProcOk(s, i) &&
      ProcOk(s, m) && CpuOk(s, c);
  }

  lemma SchedKeepsProc(s: State, c: nat, i: nat)
    requires Inv(s) && Enabled(s, Sched(c))
    ensures var t := SchedStep(s, c); Shape(t) && ProcOk(t, i)
  {
    var m := s.cpus[c].j;
    assert ProcOk(s, i) && ProcOk(s, m) && CpuOk(s, c);
  }

  lemma SchedKeepsCpu(s: State, c: nat, i: nat)
    requires Inv(s) && Enabled(s, Sched(c))
    ensures var t := SchedStep(s, c); Shape(t) && CpuOk(t, i) && PlockOk(t, i)
  {
    var m := s.cpus[c].j;
    assert CpuOk(s, i) && PlockOk(s, i) && ProcOk(s, m) && CpuOk(s, c);
  }

  lemma SchedKeepsLock(s: State, c: nat, l: nat)
    requires Inv(s) && Enabled(s, Sched(c))
    ensures var t := SchedStep(s, c); Shape(t) && LockOk(t, l)
  {
    var m := s.cpus[c].j;
    assert LockOk(s, l) && PairOk(s, m, l) && ProcOk(s, m) && CpuOk(s, c);
  }

  lemma SchedKeepsPair(s: State, c: nat, i: nat, l: nat)
    requires Inv(s) && Enabled(s, Sched(c))
    ensures var t := SchedStep(s, c); Shape(t) && PairOk(t, i, l)
  {
    var m := s.cpus[c].j;
    assert PairOk(s, i, l) && PairOk(s, m, l) && LockOk(s, l) && ProcOk(s, i) && ProcOk(s, m) && CpuOk(s, c);
  }

  lemma SchedKeepsBound(s: State, c: nat, i: nat, l: nat)
    requires Inv(s) && Enabled(s, Sched(c))
    ensures var t := SchedStep(s, c); Shape(t) && BoundOk(t, i, l)
  {
    var m := s.cpus[c].j;
    assert BoundOk(s, i, l) && PairOk(s, i, l) && PairOk(s, m, l) && LockOk(s, l) && ProcOk(s, i) &&
      ProcOk(s, m) && CpuOk(s, c);
  }

  lemma StartKeepsProc(s: State, e: Event, i: nat)
    requires Inv(s) && Enabled(s, e) && !e.Go? && !e.Sched?
    ensures var t := Step(s, e); Shape(t) && ProcOk(t, i)
  {
    var c, m := e.c, Subject(s, e);
    assert ProcOk(s, i) && ProcOk(s, m) && CpuOk(s, c);
  }

  lemma StartKeepsCpu(s: State, e: Event, i: nat)
    requires Inv(s) && Enabled(s, e) && !e.Go? && !e.Sched?
    ensures var t := Step(s, e); Shape(t) && CpuOk(t, i) && PlockOk(t, i)
  {
    var c, m := e.c, Subject(s, e);
    assert CpuOk(s, i) && PlockOk(s, i) && ProcOk(s, m) && CpuOk(s, c);
  }

  lemma StartKeepsLock(s: State, e: Event, l: nat)
    requires Inv(s) && Enabled(s, e) && !e.Go? && !e.Sched?
    ensures var t := Step(s, e); Shape(t) && LockOk(t, l)
  {
    var c, m := e.c, Subject(s, e);
    assert LockOk(s, l) && PairOk(s, m, l) && ProcOk(s, m) && CpuOk(s, c);
  }

  lemma StartKeepsPair(s: State, e: Event, i: nat, l: nat)
    requires Inv(s) && Enabled(s, e) && !e.Go? && !e.Sched?
    ensures var t := Step(s, e); Shape(t) && PairOk(t, i, l)
  {
    var c, m := e.c, Subject(s, e);
    assert PairOk(s, i, l) && PairOk(s, m, l) && LockOk(s, l) && ProcOk(s, i) && ProcOk(s, m) && CpuOk(s, c);
  }

  lemma StartKeepsBound(s: State, e: Event, i: nat, l: nat)
    requires Inv(s) && Enabled(s, e) && !e.Go? && !e.Sched?
    ensures var t := Step(s, e); Shape(t) && BoundOk(t, i, l)
  {
    var c, m := e.c, Subject(s, e);
    assert BoundOk(s, i, l) && PairOk(s, i, l) && PairOk(s, m, l) && LockOk(s, l) && ProcOk(s, i) &&
      ProcOk(s, m) && CpuOk(s, c);
  }

  lemma StepKeepsOne(s: State, e: Event, i: nat)
    requires Inv(s) && Enabled(s, e)
    ensures var t := Step(s, e); Shape(t) && ProcOk(t, i) && CpuOk(t, i) && PlockOk(t, i) && LockOk(t, i)
  {
    hide ProcOk, CpuOk, PlockOk, LockOk, Inv;
    if !e.Go? && !e.Sched? {
      StartKeepsProc(s, e, i);
      StartKeepsCpu(s, e, i);
      StartKeepsLock(s, e, i);
    } else if e.Sched? {
      SchedKeepsProc(s, e.c, i);
      SchedKeepsCpu(s, e.c, i);
      SchedKeepsLock(s, e.c, i);
    } else if Locking(s, e.c) {
      LockKeepsProc(s, e.c, i);
      LockKeepsCpu(s, e.c, i);
      LockKeepsLock(s, e.c, i);
    } else if Napping(s, e.c) {
      NapKeepsProc(s, e.c, i);
      NapKeepsCpu(s, e.c, i);
      NapKeepsLock(s, e.c, i);
    } else if Waking(s, e.c) {
      WakeKeepsProc(s, e.c, i);
      WakeKeepsCpu(s, e.c, i);
      WakeKeepsLock(s, e.c, i);
    } else {
      KillKeepsProc(s, e.c, i);
      KillKeepsCpu(s, e.c, i);
      KillKeepsLock(s, e.c, i);
    }
  }

  lemma StepKeepsTwo(s: State, e: Event, i: nat, l: nat)
    requires Inv(s) && Enabled(s, e)
    ensures var t := Step(s, e); PairOk(t, i, l) && BoundOk(t, i, l)
  {
    hide ClaimOk, InnerOk, BoundOk, Inv;
    if !e.Go? && !e.Sched? {
      StartKeepsPair(s, e, i, l);
      StartKeepsBound(s, e, i, l);
    } else if e.Sched? {
      SchedKeepsPair(s, e.c, i, l);
      SchedKeepsBound(s, e.c, i, l);
    } else if Locking(s, e.c) {
      LockKeepsClaim(s, e.c, i, l);
      LockKeepsInner(s, e.c, i, l);
      LockKeepsBound(s, e.c, i, l);
    } else if Napping(s, e.c) {
      NapKeepsClaim(s, e.c, i, l);
      NapKeepsInner(s, e.c, i, l);
      NapKeepsBound(s, e.c, i, l);
    } else if Waking(s, e.c) {
      WakeKeepsPair(s, e.c, i, l);
      WakeKeepsBound(s, e.c, i, l);
    } else {
      KillKeepsPair(s, e.c, i, l);
      KillKeepsBound(s, e.c, i, l);
    }
  }

  lemma StepKeepsInv(s: State, e: Event)
    requires Inv(s) && Enabled(s, e)
    ensures Inv(Step(s, e))
  {
    hide Step, Enabled, ProcOk, CpuOk, PlockOk, LockOk, PairOk, BoundOk, Shape;
    StepKeepsOne(s, e, 0);
    forall i: nat ensures ProcOk(Step(s, e), i) && CpuOk(Step(s, e), i) && PlockOk(Step(s, e), i) &&
      LockOk(Step(s, e), i)
    {
      StepKeepsOne(s, e, i);
    }
    forall i: nat, l: nat ensures PairOk(Step(s, e), i, l) && BoundOk(Step(s, e), i, l) {
      StepKeepsTwo(s, e, i, l);
    }
  }

  // ----- Whole runs

  /** Every process ready to run, every lock free. */
  ghost predicate Init(s: State) {
    && Shape(s)
    && (forall i :: 0 <= i < |s.procs| ==>
      s.procs[i].st == Runnable && s.procs[i].pc == Off(Free) && s.procs[i].held == {})
    && (forall i :: 0 <= i < |s.plock| ==> s.plock[i] == None)
    && (forall c :: 0 <= c < |s.cpus| ==> s.cpus[c] == Scan)
    && (forall l :: 0 <= l < |s.locks| ==> s.locks[l].inner == None && !s.locks[l].locked)
  }

  ghost predicate IsRun(ss: seq<State>, es: seq<Event>) {
    && |ss| == |es| + 1 && Init(ss[0])
    && forall n :: 0 <= n < |es| ==> Enabled(ss[n], es[n]) && ss[n + 1] == Step(ss[n], es[n])
  }

  lemma InitIsInv(s: State)
    requires Init(s)
    ensures Inv(s)
  {
  }

  lemma {:induction false} RunsKeepInv(ss: seq<State>, es: seq<Event>, n: nat)
    requires IsRun(ss, es) && n < |ss|
    ensures Inv(ss[n])
  {
    if n == 0 {
      InitIsInv(ss[0]);
    } else {
      RunsKeepInv(ss, es, n - 1);
      StepKeepsInv(ss[n - 1], es[n - 1]);
    }
  }

  /** When a lock is unlocked and its inner spinlock free, nobody sleeps on it or is on the way to. */
  lemma NoLostWakeup(ss: seq<State>, es: seq<Event>, n: nat, i: nat, l: nat)
    requires IsRun(ss, es) && n < |ss|
    requires i < |ss[n].procs| && l < |ss[n].locks| && ss[n].locks[l].inner == None && !ss[n].locks[l].locked
    ensures !(ss[n].procs[i].st == Sleeping && ss[n].procs[i].chan == Some(l))
    ensures ss[n].procs[i].pc != Mark(l)
  {
    RunsKeepInv(ss, es, n);
    assert BoundOk(ss[n], i, l);
  }

  /** At most one process is between acquiresleep and releasesleep of a lock, and the lock says which. */
  lemma MutualExclusion(ss: seq<State>, es: seq<Event>, n: nat, l: nat, i: nat, j: nat)
    requires IsRun(ss, es) && n < |ss| && i < |ss[n].procs| && j < |ss[n].procs|
    requires l in ss[n].procs[i].held
    ensures l < |ss[n].locks| && ss[n].locks[l].locked && ss[n].locks[l].pid == i
    ensures l in ss[n].procs[j].held ==> i == j
  {
    RunsKeepInv(ss, es, n);
    assert PairOk(ss[n], i, l) && PairOk(ss[n], j, l);
  }

  /** No process runs on two CPUs, and one that runs is neither asleep off the CPU nor waiting to be picked. */
  lemma OneCpuPerProcess(ss: seq<State>, es: seq<Event>, n: nat, c: nat, d: nat)
    requires IsRun(ss, es) && n < |ss| && c < |ss[n].cpus| && d < |ss[n].cpus|
    requires ss[n].cpus[c].Run? && ss[n].cpus[d] == ss[n].cpus[c]
    ensures c == d
    ensures ss[n].cpus[c].i < |ss[n].procs| && !ss[n].procs[ss[n].cpus[c].i].pc.Off?
  {
    RunsKeepInv(ss, es, n);
    assert CpuOk(ss[n], c) && CpuOk(ss[n], d);
  }

  /** sched's own checks never fail: at swtch the process holds its lock, its state has changed,
      and its CPU holds no other spinlock. */
  lemma SchedNeverPanics(ss: seq<State>, es: seq<Event>, n: nat, i: nat, j: nat, l: nat)
    requires IsRun(ss, es) && n < |ss| && i < |ss[n].procs| && ss[n].procs[i].pc.Switch?
    ensures Shape(ss[n]) && ss[n].plock[i] == Some(ss[n].procs[i].cpu) && ss[n].procs[i].st != Running
    ensures j < |ss[n].procs| && j != i ==> ss[n].plock[j] != Some(ss[n].procs[i].cpu)
    ensures l < |ss[n].locks| ==> ss[n].locks[l].inner != Some(ss[n].procs[i].cpu)
  {
    RunsKeepInv(ss, es, n);
    assert ProcOk(ss[n], i) && PlockOk(ss[n], j) && LockOk(ss[n], l);
  }

  // ----- What a call has done when it returns

  /** Where the process goes on when it next runs outside sched. */
  function Rest(pc: Pc): Pc {
    if pc.Off? || pc.Switch? || pc.Back? then pc.next else pc
  }

  /** Process i is in some call. */
  predicate Busy(s: State, i: nat) {
    i < |s.procs| && Rest(s.procs[i].pc) != Free
  }

  /** At n, for the first time since event m, process i is outside any call. */
  ghost predicate Returns(ss: seq<State>, m: nat, n: nat, i: nat) {
    && m < n < |ss| && i < |ss[n].procs| && Rest(ss[n].procs[i].pc) == Free
    && forall k :: m < k < n ==> Busy(ss[k], i)
  }

  /** Event m is process i's, and starts such a call. */
  ghost predicate Calls(ss: seq<State>, es: seq<Event>, m: nat, i: nat, call: Pc) {
    && m < |es| && m < |ss| && es[m].c < |ss[m].cpus| && ss[m].cpus[es[m].c] == Run(i)
    && match call
       case Acquire(l) => es[m] == BeginAcquire(es[m].c, l)
       case Release(l) => es[m] == BeginRelease(es[m].c, l)
       case Kill(j) => es[m] == BeginKill(es[m].c, j)
       case _ => false
  }

  /** In acquiresleep of l; at its last release l is the process's own. */
  predicate Acquiring(p: Proc, l: nat) {
    || Rest(p.pc) == Acquire(l) || p.pc == Test(l) || p.pc == Commit(l) || p.pc == LetGo(l) || p.pc == Mark(l)
    || (p.pc == Drop(l) && l in p.held)
  }

  /** In releasesleep of l; from wakeup on l is no longer the process's own. */
  predicate GivingUp(p: Proc, l: nat) {
    || Rest(p.pc) == Release(l) || p.pc == Clear(l)
    || (((p.pc.Wake? || p.pc.Check? || p.pc.Drop?) && p.pc.l == l) && l !in p.held)
  }

  /** How far process i is with a call: in it, or through with it. */
  predicate Within(s: State, i: nat, call: Pc) {
    i < |s.procs| &&
    var p := s.procs[i];
    match call
    case Acquire(l) => Acquiring(p, l) || (Rest(p.pc) == Free && l in p.held)
    case Release(l) => GivingUp(p, l) || (Rest(p.pc) == Free && l !in p.held)
    case _ => false
  }

  /** The steps of other processes leave place and locks of process i alone. */
  lemma OthersLeave(s: State, e: Event, i: nat)
    requires Inv(s) && Enabled(s, e) && i < |s.procs| && !(e.c < |s.cpus| && s.cpus[e.c] == Run(i))
    ensures var t := Step(s, e); |t.procs| == |s.procs| && t.procs[i].held == s.procs[i].held
    ensures Rest(Step(s, e).procs[i].pc) == Rest(s.procs[i].pc)
    ensures !s.procs[i].pc.Off? ==> Step(s, e).procs[i].pc == s.procs[i].pc
  {
    assert CpuOk(s, e.c) && ProcOk(s, i);
  }

  lemma OwnStepWithin(s: State, e: Event, i: nat, call: Pc)
    requires Inv(s) && Enabled(s, e) && i < |s.procs| && s.cpus[e.c] == Run(i)
    requires Within(s, i, call) && Busy(s, i)
    ensures Within(Step(s, e), i, call)
  {
    assert CpuOk(s, e.c) && ProcOk(s, i);
    if call.Acquire? {
      assert PairOk(s, i, call.l);
    } else if call.Release? {
      assert PairOk(s, i, call.l);
    }
  }

  lemma StepWithin(s: State, e: Event, i: nat, call: Pc)
    requires Inv(s) && Enabled(s, e) && Within(s, i, call) && Busy(s, i)
    ensures Within(Step(s, e), i, call)
  {
    if s.cpus[e.c] == Run(i) {
      OwnStepWithin(s, e, i, call);
    } else {
      OthersLeave(s, e, i);
      assert ProcOk(s, i);
    }
  }

  lemma RunStep(ss: seq<State>, es: seq<Event>, n: nat)
    requires IsRun(ss, es) && n + 1 < |ss|
    ensures n < |es| && Inv(ss[n]) && Enabled(ss[n], es[n]) && ss[n + 1] == Step(ss[n], es[n])
  {
    RunsKeepInv(ss, es, n);
  }

  lemma StartsWithin(ss: seq<State>, es: seq<Event>, m: nat, i: nat, call: Pc)
    requires IsRun(ss, es) && m + 1 < |ss| && Calls(ss, es, m, i, call)
    ensures i < |ss[m + 1].procs| && ss[m + 1].procs[i].pc == call
    ensures call.Acquire? || call.Release? ==> Within(ss[m + 1], i, call)
  {
    hide Inv;
    RunStep(ss, es, m);
  }

  lemma {:induction false} CallWithin(ss: seq<State>, es: seq<Event>, m: nat, n: nat, i: nat, call: Pc)
    requires IsRun(ss, es) && m < n < |ss| && Calls(ss, es, m, i, call) && (call.Acquire? || call.Release?)
    requires forall k :: m < k < n ==> Busy(ss[k], i)
    ensures Within(ss[n], i, call)
    decreases n
  {
    hide IsRun, Inv, Within, Calls, Busy;
    RunStep(ss, es, n - 1);
    if n - 1 > m {
      CallWithin(ss, es, m, n - 1, i, call);
      assert Busy(ss[n - 1], i);
      StepWithin(ss[n - 1], es[n - 1], i, call);
    } else {
      StartsWithin(ss, es, m, i, call);
    }
  }

  /** acquiresleep returns only to a process that has the lock, and the lock says so. */
  lemma AcquireReturnsOwner(ss: seq<State>, es: seq<Event>, m: nat, n: nat, i: nat, l: nat)
    requires IsRun(ss, es) && Calls(ss, es, m, i, Acquire(l)) && Returns(ss, m, n, i)
    ensures l in ss[n].procs[i].held
    ensures l < |ss[n].locks| && ss[n].locks[l].locked && ss[n].locks[l].pid == i
  {
    CallWithin(ss, es, m, n, i, Acquire(l));
    MutualExclusion(ss, es, n, l, i, i);
  }

  /** releasesleep returns only to a process that no longer has it. */
  lemma ReleaseReturnsFree(ss: seq<State>, es: seq<Event>, m: nat, n: nat, i: nat, l: nat)
    requires IsRun(ss, es) && Calls(ss, es, m, i, Release(l)) && Returns(ss, m, n, i)
    ensures l !in ss[n].procs[i].held
    ensures l < |ss[n].locks| && ss[n].locks[l].locked ==> ss[n].locks[l].pid != i
  {
    CallWithin(ss, es, m, n, i, Release(l));
    RunsKeepInv(ss, es, n);
    assert LockOk(ss[n], l);
  }

  // ----- Critical sections, by calls and returns alone

  /** Process i has come back from acquiresleep of l by n, and not called releasesleep of it since. */
  ghost predicate InSection(ss: seq<State>, es: seq<Event>, n: nat, i: nat, l: nat) {
    exists m: nat, r: nat ::
      && Calls(ss, es, m, i, Acquire(l)) && Returns(ss, m, r, i) && r <= n < |ss|
      && forall k: nat :: r <= k < n ==> !Calls(ss, es, k, i, Release(l))
  }

  /** The lock stays the process's own, and it is not on the way to giving it up. */
  ghost predicate Keeps(s: State, i: nat, l: nat) {
    i < |s.procs| && l in s.procs[i].held && Rest(s.procs[i].pc) != Release(l) && s.procs[i].pc != Clear(l)
  }

  lemma StepKeeps(ss: seq<State>, es: seq<Event>, n: nat, i: nat, l: nat)
    requires IsRun(ss, es) && n < |es| && Keeps(ss[n], i, l) && !Calls(ss, es, n, i, Release(l))
    ensures Keeps(ss[n + 1], i, l)
  {
    RunsKeepInv(ss, es, n);
    var s, e := ss[n], es[n];
    if s.cpus[e.c] == Run(i) {
      assert CpuOk(s, e.c) && ProcOk(s, i);
    } else {
      OthersLeave(s, e, i);
      assert ProcOk(s, i);
    }
  }

  lemma {:induction false} KeptSince(ss: seq<State>, es: seq<Event>, r: nat, n: nat, i: nat, l: nat)
    requires IsRun(ss, es) && r <= n < |ss| && Keeps(ss[r], i, l)
    requires forall k: nat :: r <= k < n ==> !Calls(ss, es, k, i, Release(l))
    ensures Keeps(ss[n], i, l)
    decreases n
  {
    if r < n {
      KeptSince(ss, es, r, n - 1, i, l);
      StepKeeps(ss, es, n - 1, i, l);
    }
  }

  lemma SectionHolds(ss: seq<State>, es: seq<Event>, n: nat, i: nat, l: nat)
    requires IsRun(ss, es) && InSection(ss, es, n, i, l)
    ensures n < |ss| && i < |ss[n].procs| && l in ss[n].procs[i].held
  {
    var m: nat, r: nat :|
      && Calls(ss, es, m, i, Acquire(l)) && Returns(ss, m, r, i) && r <= n < |ss|
      && forall k: nat :: r <= k < n ==> !Calls(ss, es, k, i, Release(l));
    AcquireReturnsOwner(ss, es, m, r, i, l);
    KeptSince(ss, es, r, n, i, l);
  }

  /** No two processes are between the return of acquiresleep and the call of releasesleep of one lock. */
  lemma SectionsExclude(ss: seq<State>, es: seq<Event>, n: nat, i: nat, j: nat, l: nat)
    requires IsRun(ss, es) && InSection(ss, es, n, i, l) && InSection(ss, es, n, j, l)
    ensures i == j && l < |ss[n].locks| && ss[n].locks[l].locked && ss[n].locks[l].pid == i
  {
    SectionHolds(ss, es, n, i, l);
    SectionHolds(ss, es, n, j, l);
    MutualExclusion(ss, es, n, l, i, j);
  }

  // ----- Why a sleeper goes on

  /** A sleeping process is made runnable by the wakeup of its channel or by kill, and by nothing else. */
  lemma SleepEndsByWakeup(s: State, e: Event, i: nat)
    requires Inv(s) && Enabled(s, e) && i < |s.procs| && s.procs[i].st == Sleeping
    ensures i < |Step(s, e).procs|
    ensures Step(s, e).procs[i].st != Sleeping ==>
      && e.Go? && OnCpu(s, e.c)
      && ((PcOn(s, e.c).Check? && PcOn(s, e.c).j == i && s.procs[i].chan == Some(PcOn(s, e.c).l))
        || PcOn(s, e.c) == KillCheck(i))
  {
    assert ProcOk(s, i) && CpuOk(s, e.c);
  }

  ghost predicate AwakeSince(ss: seq<State>, m: nat, n: nat, j: nat) {
    exists k: nat :: m < k <= n && k < |ss| && j < |ss[k].procs| && ss[k].procs[j].st != Sleeping
  }

  predicate Killer(s: State, i: nat, j: nat) {
    i < |s.procs| && (Rest(s.procs[i].pc) == Kill(j) || s.procs[i].pc == KillCheck(j))
  }

  lemma StepOfKiller(s: State, e: Event, i: nat, j: nat)
    requires Inv(s) && Enabled(s, e) && Killer(s, i, j)
    ensures var t := Step(s, e);
      || Killer(t, i, j)
      || (i < |t.procs| && Rest(t.procs[i].pc) == Free && j < |t.procs| && t.procs[j].st != Sleeping)
  {
    assert CpuOk(s, e.c) && ProcOk(s, i);
    if s.cpus[e.c] != Run(i) {
      OthersLeave(s, e, i);
    }
  }

  lemma {:induction false} InKill(ss: seq<State>, es: seq<Event>, m: nat, n: nat, i: nat, j: nat)
    requires IsRun(ss, es) && m < n < |ss| && Calls(ss, es, m, i, Kill(j))
    requires forall k :: m < k < n ==> Busy(ss[k], i)
    ensures Killer(ss[n], i, j) || (AwakeSince(ss, m, n, j) && !Busy(ss[n], i))
    decreases n
  {
    hide IsRun, Inv, Calls, Step, Enabled;
    RunStep(ss, es, n - 1);
    if n - 1 > m {
      InKill(ss, es, m, n - 1, i, j);
      assert Busy(ss[n - 1], i);
      StepOfKiller(ss[n - 1], es[n - 1], i, j);
    } else {
      StartsWithin(ss, es, m, i, Kill(j));
    }
  }

  /** When kill returns, its target has been awake at some point since the call. */
  lemma KillWakes(ss: seq<State>, es: seq<Event>, m: nat, n: nat, i: nat, j: nat)
    requires IsRun(ss, es) && Calls(ss, es, m, i, Kill(j)) && Returns(ss, m, n, i)
    ensures AwakeSince(ss, m, n, j)
  {
    InKill(ss, es, m, n, i, j);
  }
}
