/**
 exit, wait, reparent, fork and kill of kernel/proc.c as interleaved steps of
 processes under wait_lock.  A section under one lock that takes no other lock
 is one step, possible when that lock is free.  p->lock held by its own process
 across several steps (in sleep and in exit, up to the scheduler's release) is
 the flag busy.  exits and reaps record, for the specification, what was exited
 with and what wait handed out.
 */
module ExitWait {
  import opened Common

  datatype ProcState = Unused | Used | Ready | Sleeping | Zombie

  datatype Pc =
    | User
    | WaitLock                         // wait, before acquire(&wait_lock)
    | Scan(j: nat, kids: bool)         // wait's table scan, at slot j
    | Decide(kids: bool)               // the scan found no zombie child
    | LetGo                            // in sleep: p->lock held, before release(&wait_lock)
    | Mark                             // before chan and state are set
    | Asleep                           // in sched
    | ExitLock                         // exit, before acquire(&wait_lock)
    | Reparent(j: nat)
    | WakeInit(j: nat, k: nat)         // reparent gave child j to init; wakeup is at slot k
    | WakeParent(k: nat)               // exit's own wakeup is at slot k
    | Die                              // before acquire(&p->lock)
    | Unwait                           // a zombie, before release(&wait_lock)
    | Dead                             // in sched for the last time
    | ForkLink(j: nat)                 // fork, before the section under wait_lock
    | ForkReady(j: nat)                // before the section under the child's lock

  /** A process sleeping in wait has its own slot as p->chan. */
  datatype Proc = Proc(st: ProcState, parent: Option<nat>, busy: bool, pc: Pc)

  const EMPTY := Proc(Unused, None, false, User)

  /** maker is the process that allocated the slot, for the specification. */
  datatype Info = Info(pid: nat, xstate: int, maker: Option<nat>)

  /** args are the arguments of the exit calls under way. */
  datatype State = State(procs: seq<Proc>, info: seq<Info>, init: nat, lock: Option<nat>, nextpid: nat,
                         exits: map<nat, int>, reaps: seq<(nat, int)>, args: seq<int>)

  /** Where a step asks: flag is whether copyout works, or whether the process has been killed. */
  datatype Event =
    | Go(i: nat, flag: bool)
    | BeginWait(i: nat)
    | BeginExit(i: nat, code: int)
    | BeginFork(i: nat, j: nat, ok: bool)
    | Kill(i: nat, j: nat)
    | Unlock(i: nat)                   // the scheduler releases p->lock after swtch

  predicate HasWait(pc: Pc) {
    pc.Scan? || pc.Decide? || pc.LetGo? || Exiting(pc)
  }

  /** In exit with wait_lock held. */
  predicate Exiting(pc: Pc) {
    pc.Reparent? || pc.WakeInit? || pc.WakeParent? || pc.Die? || pc.Unwait?
  }

  predicate HasOwn(pc: Pc) {
    pc.LetGo? || pc.Mark? || pc.Unwait?
  }

  predicate Shape(s: State) {
    |s.info| == |s.procs| == |s.args| && s.init < |s.procs|
  }

  predicate IsChild(s: State, i: nat, j: nat)
    requires j < |s.procs|
  {
    s.procs[j].parent == Some(i)
  }

  /** wakeup is about to look at process k, which is another one. */
  predicate Looking(s: State, i: nat, k: nat) {
    k < |s.procs| && k != i
  }

  predicate CanWait(s: State, i: nat) {
    Shape(s) && i < |s.procs| && s.procs[i].st == Ready &&
    match s.procs[i].pc
    case WaitLock => s.lock == None
    case Scan(j, _) => j < |s.procs| && IsChild(s, i, j) ==> !s.procs[j].busy
    case Decide(kids) => !s.procs[i].busy
    case _ => false
  }

  predicate CanSleep(s: State, i: nat) {
    Shape(s) && i < |s.procs| && s.procs[i].st == Ready &&
    match s.procs[i].pc
    case LetGo => true
    case Mark => true
    case Asleep => !s.procs[i].busy
    case _ => false
  }

  predicate CanReparent(s: State, i: nat) {
    Shape(s) && i < |s.procs| && s.procs[i].st == Ready &&
    match s.procs[i].pc
    case ExitLock => s.lock == None
    case Reparent(_) => true
    case WakeInit(_, k) => Looking(s, i, k) ==> !s.procs[k].busy
    case _ => false
  }

  predicate CanExit(s: State, i: nat) {
    Shape(s) && i < |s.procs| && (s.procs[i].st == Ready || s.procs[i].pc == Unwait) &&
    match s.procs[i].pc
    case WakeParent(k) => Looking(s, i, k) ==> !s.procs[k].busy
    case Die => !s.procs[i].busy
    case Unwait => true
    case _ => false
  }

  predicate CanFork(s: State, i: nat) {
    Shape(s) && i < |s.procs| && s.procs[i].st == Ready &&
    match s.procs[i].pc
    case ForkLink(j) => s.lock == None && j < |s.procs|
    case ForkReady(j) => j < |s.procs| && !s.procs[j].busy
    case _ => false
  }

  predicate AtUser(s: State, i: nat)
    requires i < |s.procs|
  {
    s.procs[i].st == Ready && s.procs[i].pc == User
  }

  predicate Enabled(s: State, e: Event) {
    Shape(s) && e.i < |s.procs| &&
    match e
    case Go(i, _) => CanWait(s, i) || CanSleep(s, i) || CanReparent(s, i) || CanExit(s, i) || CanFork(s, i)
    case BeginWait(i) => AtUser(s, i)
    case BeginExit(i, _) => AtUser(s, i) && i != s.init
    case BeginFork(i, j, _) => AtUser(s, i) && j < |s.procs| && j != i && s.procs[j].st == Unused && !s.procs[j].busy
    case Kill(i, j) => AtUser(s, i) && j < |s.procs| && !s.procs[j].busy
    case Unlock(i) => s.procs[i].busy && (s.procs[i].pc == Asleep || s.procs[i].pc == Dead)
  }

  function Set(s: State, i: nat, p: Proc): State
    requires i < |s.procs|
  {
    s.(procs := s.procs[i := p])
  }

  function At(s: State, i: nat, pc: Pc): State
    requires i < |s.procs|
  {
    Set(s, i, s.procs[i].(pc := pc))
  }

  /** What wakeup(chan) does when it looks at process k; kill(k) does the same with k's own channel. */
  function Wake(s: State, k: nat, chan: Option<nat>): State
    requires k < |s.procs|
  {
    if s.procs[k].st == Sleeping && chan == Some(k) then Set(s, k, s.procs[k].(st := Ready)) else s
  }

  function Step(s: State, e: Event): (t: State)
    requires Enabled(s, e)
    ensures |t.procs| == |s.procs| && |t.info| == |s.info| && |t.args| == |s.args| && t.init == s.init
  {
    match e
    case Go(i, flag) =>
      if CanWait(s, i) then WaitStep(s, i, flag)
      else if CanSleep(s, i) then SleepStep(s, i)
      else if CanReparent(s, i) then ReparentStep(s, i)
      else if CanExit(s, i) then ExitStep(s, i)
      else ForkStep(s, i)
    case BeginWait(i) => At(s, i, WaitLock)
    case BeginExit(i, code) => At(s, i, ExitLock).(args := s.args[i := code])
    case BeginFork(i, j, ok) =>
      if !ok then s.(nextpid := s.nextpid + 1)
      else At(Set(s, j, EMPTY.(st := Used)), i, ForkLink(j)).(nextpid := s.nextpid + 1,
        info := s.info[j := Info(s.nextpid, 0, Some(i))])
    case Kill(_, j) => Wake(s, j, Some(j))
    case Unlock(i) => Set(s, i, s.procs[i].(busy := false))
  }

  function WaitStep(s: State, i: nat, flag: bool): (t: State)
    requires CanWait(s, i)
    ensures |t.procs| == |s.procs| && |t.info| == |s.info| && |t.args| == |s.args| && t.init == s.init
  {
    match s.procs[i].pc
    case WaitLock => At(s, i, Scan(0, false)).(lock := Some(i))
    case Scan(j, kids) =>
      if j >= |s.procs| then At(s, i, Decide(kids))
      else if !IsChild(s, i, j) then At(s, i, Scan(j + 1, kids))
      else if s.procs[j].st != Zombie then At(s, i, Scan(j + 1, true))
      else if !flag then At(s, i, User).(lock := None)
      else At(Set(s, j, EMPTY), i, User).(lock := None, reaps := s.reaps + [(s.info[j].pid, s.info[j].xstate)])
    case Decide(kids) =>
      if !kids || flag then At(s, i, User).(lock := None) else Set(s, i, s.procs[i].(busy := true, pc := LetGo))
  }

  function SleepStep(s: State, i: nat): (t: State)
    requires CanSleep(s, i)
    ensures |t.procs| == |s.procs| && |t.info| == |s.info| && |t.args| == |s.args| && t.init == s.init
  {
    match s.procs[i].pc
    case LetGo => At(s, i, Mark).(lock := None)
    case Mark => Set(s, i, s.procs[i].(st := Sleeping, pc := Asleep))
    case Asleep => At(s, i, WaitLock)
  }

  function ReparentStep(s: State, i: nat): (t: State)
    requires CanReparent(s, i)
    ensures |t.procs| == |s.procs| && |t.info| == |s.info| && |t.args| == |s.args| && t.init == s.init
  {
    match s.procs[i].pc
    case ExitLock => At(s, i, Reparent(0)).(lock := Some(i))
    case Reparent(j) =>
      if j >= |s.procs| then At(s, i, WakeParent(0))
      else if IsChild(s, i, j) then At(Set(s, j, s.procs[j].(parent := Some(s.init))), i, WakeInit(j, 0))
      else At(s, i, Reparent(j + 1))
    case WakeInit(j, k) =>
      if k >= |s.procs| then At(s, i, Reparent(j + 1))
      else At(if k == i then s else Wake(s, k, Some(s.init)), i, WakeInit(j, k + 1))
  }

  function ExitStep(s: State, i: nat): (t: State)
    requires CanExit(s, i)
    ensures |t.procs| == |s.procs| && |t.info| == |s.info| && |t.args| == |s.args| && t.init == s.init
  {
    var p := s.procs[i];
    match p.pc
    case WakeParent(k) =>
      if k >= |s.procs| then At(s, i, Die)
      else At(if k == i then s else Wake(s, k, p.parent), i, WakeParent(k + 1))
    case Die =>
      Set(s, i, p.(busy := true, st := Zombie, pc := Unwait)).(
        info := s.info[i := s.info[i].(xstate := s.args[i])], exits := s.exits[s.info[i].pid := s.args[i]])
    case Unwait => At(s, i, Dead).(lock := None)
  }

  function ForkStep(s: State, i: nat): (t: State)
    requires CanFork(s, i)
    ensures |t.procs| == |s.procs| && |t.info| == |s.info| && |t.args| == |s.args| && t.init == s.init
  {
    match s.procs[i].pc
    case ForkLink(j) => At(Set(s, j, s.procs[j].(parent := Some(i))), i, ForkReady(j))
    case ForkReady(j) => At(Set(s, j, s.procs[j].(st := Ready)), i, User)
  }

  // ----- The invariant

  predicate Making(pc: Pc, j: nat) {
    (pc.ForkLink? || pc.ForkReady?) && pc.j == j
  }

  /** Asleep in wait, or past the point of letting wait_lock go. */
  predicate Bound(p: Proc) {
    p.pc == Mark || p.st == Sleeping
  }

  ghost predicate ProcOk(s: State, i: nat) {
    i < |s.procs| ==>
      var p := s.procs[i];
      && (HasWait(p.pc) ==> s.lock == Some(i))
      && (HasOwn(p.pc) ==> p.busy)
      && (p.busy ==> HasOwn(p.pc) || p.pc == Asleep || p.pc == Dead)
      && (p.st == Sleeping ==> p.pc == Asleep)
      && (p.st == Zombie <==> p.pc == Unwait || p.pc == Dead)
      && (p.st == Unused || p.st == Used ==> p.pc == User)
      && (p.st == Unused ==> p.parent == None)
      && (i == s.init ==> (p.st == Ready || p.st == Sleeping) && !Exiting(p.pc) && p.pc != ExitLock)
  }

  ghost predicate LockOk(s: State) {
    Shape(s) && (s.lock.Some? ==> s.lock.value < |s.procs| && HasWait(s.procs[s.lock.value].pc))
  }

  /** An exiting process is in wakeup(initproc) and has yet to look at process i, which is init. */
  predicate InitWakerBefore(s: State, i: nat) {
    && i == s.init && s.lock.Some? && s.lock.value < |s.procs|
    && s.procs[s.lock.value].pc.WakeInit? && s.procs[s.lock.value].pc.k <= i
  }

  /** How far reparent has got: it has not passed child j. */
  predicate ChildrenLeft(pc: Pc, j: nat) {
    if pc.Reparent? then pc.j <= j else if pc.WakeInit? then pc.j < j else !Exiting(pc)
  }

  /** How far wait's scan has got: it has not passed zombie j. */
  predicate NotScanned(pc: Pc, j: nat) {
    if pc.Scan? then pc.j <= j else !(pc.Decide? || pc.LetGo?)
  }

  /** What holds of a child j and its parent i. */
  ghost predicate FamilyOk(s: State, i: nat, j: nat) {
    j < |s.procs| && IsChild(s, i, j) ==>
      && i < |s.procs|
      && (s.procs[i].st == Ready || s.procs[i].st == Sleeping)
      && ChildrenLeft(s.procs[i].pc, j)
      && (s.procs[j].st == Zombie ==> NotScanned(s.procs[i].pc, j) && (Bound(s.procs[i]) ==> InitWakerBefore(s, i)))
  }

  /** Once exit's wakeup has passed the parent's slot, the parent is not asleep in wait. */
  ghost predicate ExitOk(s: State, k: nat) {
    k < |s.procs| && s.procs[k].parent.Some? && s.procs[k].parent.value < |s.procs| ==>
      var i := s.procs[k].parent.value;
      (s.procs[k].pc.WakeParent? && i < s.procs[k].pc.k) || s.procs[k].pc.Die? ==> !Bound(s.procs[i])
  }

  ghost predicate ForkOk(s: State, i: nat, j: nat) {
    i < |s.procs| && Making(s.procs[i].pc, j) ==>
      && j < |s.procs| && j < |s.info| && s.procs[j].st == Used && s.info[j].maker == Some(i)
      && (s.procs[i].pc.ForkLink? ==> s.procs[j].parent == None)
  }

  ghost predicate Inv(s: State) {
    && LockOk(s)
    && (forall i: nat {:trigger ProcOk(s, i)} :: ProcOk(s, i))
    && (forall i: nat, j: nat {:trigger FamilyOk(s, i, j)} :: FamilyOk(s, i, j))
    && (forall k: nat {:trigger ExitOk(s, k)} :: ExitOk(s, k))
    && (forall i: nat, j: nat {:trigger ForkOk(s, i, j)} :: ForkOk(s, i, j))
  }

  /** wait finds a zombie child at the slot it looks at, and copyout works. */
  predicate Reaping(s: State, i: nat, flag: bool) {
    && CanWait(s, i) && flag && s.procs[i].pc.Scan? && s.procs[i].pc.j < |s.procs|
    && IsChild(s, i, s.procs[i].pc.j) && s.procs[s.procs[i].pc.j].st == Zombie
  }

  /** reparent finds a child at the slot it looks at. */
  predicate Giving(s: State, i: nat) {
    CanReparent(s, i) && s.procs[i].pc.Reparent? && s.procs[i].pc.j < |s.procs| && IsChild(s, i, s.procs[i].pc.j)
  }

  /** What the invariant says of processes i and j. */
  ghost predicate OkAt(s: State, i: nat, j: nat) {
    LockOk(s) && ProcOk(s, i) && ExitOk(s, i) && FamilyOk(s, i, j) && ForkOk(s, i, j)
  }

  lemma Ok(s: State, i: nat, j: nat)
    requires Inv(s)
    ensures OkAt(s, i, j) && ProcOk(s, j)
  {
  }

  lemma OkEverywhere(s: State)
    requires forall i: nat, j: nat :: OkAt(s, i, j)
    ensures Inv(s)
  {
    assert OkAt(s, 0, 0);
    forall i: nat ensures ProcOk(s, i) && ExitOk(s, i) {
      assert OkAt(s, i, 0);
    }
    forall i: nat, j: nat ensures FamilyOk(s, i, j) && ForkOk(s, i, j) {
      assert OkAt(s, i, j);
    }
  }

  lemma BeginKeeps(s: State, m: nat, pc: Pc, args: seq<int>, i: nat, j: nat)
    requires Inv(s) && m < |s.procs| && AtUser(s, m) && (pc == WaitLock || (pc == ExitLock && m != s.init))
    requires |args| == |s.args|
    ensures OkAt(At(s, m, pc).(args := args), i, j)
  {
    hide Inv;
    Ok(s, i, j);
    Ok(s, m, j);
  }

  lemma NextPidKeeps(s: State, n: nat, i: nat, j: nat)
    requires Inv(s)
    ensures OkAt(s.(nextpid := n), i, j)
  {
    hide Inv;
    Ok(s, i, j);
  }

  lemma BeginForkKeeps(s: State, e: Event, i: nat, j: nat)
    requires Inv(s) && Enabled(s, e) && e.BeginFork? && e.ok
    ensures OkAt(Step(s, e), i, j)
  {
    hide Inv;
    Ok(s, i, j);
    Ok(s, e.i, j);
    Ok(s, e.j, j);
  }

  lemma UnlockKeeps(s: State, e: Event, i: nat, j: nat)
    requires Inv(s) && Enabled(s, e) && e.Unlock?
    ensures OkAt(Step(s, e), i, j)
  {
    hide Inv;
    Ok(s, i, j);
    Ok(s, e.i, j);
  }

  /** Waking a process, rightly or not, breaks nothing. */
  lemma WakeKeeps(s: State, k: nat, chan: Option<nat>, i: nat, j: nat)
    requires Inv(s) && k < |s.procs| && !s.procs[k].busy
    ensures OkAt(Wake(s, k, chan), i, j)
  {
    hide Inv;
    Ok(s, i, j);
    Ok(s, k, j);
  }

  lemma WakeKeepsInv(s: State, k: nat, chan: Option<nat>)
    requires Inv(s) && k < |s.procs| && !s.procs[k].busy
    ensures Inv(Wake(s, k, chan))
  {
    hide Inv, OkAt, Wake;
    forall i: nat, j: nat ensures OkAt(Wake(s, k, chan), i, j) {
      WakeKeeps(s, k, chan, i, j);
    }
    OkEverywhere(Wake(s, k, chan));
  }

  lemma PassScanKeeps(s: State, m: nat, kids: bool, i: nat, j: nat)
    requires Inv(s) && m < |s.procs| && s.procs[m].pc.Scan? &&
      (s.procs[m].pc.j < |s.procs| && IsChild(s, m, s.procs[m].pc.j) ==> s.procs[s.procs[m].pc.j].st != Zombie)
    ensures OkAt(At(s, m, Scan(s.procs[m].pc.j + 1, kids)), i, j)
  {
    hide Inv;
    Ok(s, i, j);
    Ok(s, m, j);
  }

  lemma LeaveWaitKeeps(s: State, m: nat, i: nat, j: nat)
    requires Inv(s) && m < |s.procs| && (s.procs[m].pc.Scan? || s.procs[m].pc.Decide?)
    ensures OkAt(At(s, m, User).(lock := None), i, j)
  {
    hide Inv;
    Ok(s, i, j);
    Ok(s, m, j);
  }

  lemma EnterKeeps(s: State, m: nat, i: nat, j: nat)
    requires Inv(s) && m < |s.procs| && s.lock == None && (s.procs[m].pc == WaitLock || s.procs[m].pc == ExitLock)
    ensures OkAt(At(s, m, if s.procs[m].pc == WaitLock then Scan(0, false) else Reparent(0)).(lock := Some(m)), i, j)
  {
    hide Inv;
    Ok(s, i, j);
    Ok(s, m, j);
  }

  lemma WaitKeeps(s: State, m: nat, i: nat, j: nat)
    requires Inv(s) && CanWait(s, m) && (if s.procs[m].pc.Scan? then s.procs[m].pc.j >= |s.procs|
      else s.procs[m].pc.Decide? && s.procs[m].pc.kids)
    ensures OkAt(WaitStep(s, m, false), i, j)
  {
    hide Inv;
    Ok(s, i, j);
    Ok(s, m, j);
  }

  lemma ReapKeeps(s: State, m: nat, i: nat, j: nat)
    requires Inv(s) && Reaping(s, m, true)
    ensures OkAt(WaitStep(s, m, true), i, j)
  {
    hide Inv;
    Ok(s, i, j);
    Ok(s, m, j);
    Ok(s, s.procs[m].pc.j, j);
  }

  lemma LetGoKeeps(s: State, m: nat, i: nat, j: nat)
    requires Inv(s) && m < |s.procs| && s.procs[m].pc == LetGo
    ensures OkAt(At(s, m, Mark).(lock := None), i, j)
  {
    hide Inv;
    Ok(s, i, j);
    Ok(s, m, j);
  }

  lemma MarkKeeps(s: State, m: nat, i: nat, j: nat)
    requires Inv(s) && m < |s.procs| && s.procs[m].pc == Mark
    ensures OkAt(Set(s, m, s.procs[m].(st := Sleeping, pc := Asleep)), i, j)
  {
    hide Inv;
    Ok(s, i, j);
    Ok(s, m, j);
  }

  lemma ResumeKeeps(s: State, m: nat, i: nat, j: nat)
    requires Inv(s) && m < |s.procs| && s.procs[m].st == Ready && s.procs[m].pc == Asleep && !s.procs[m].busy
    ensures OkAt(At(s, m, WaitLock), i, j)
  {
    hide Inv;
    Ok(s, i, j);
    Ok(s, m, j);
  }

  lemma SleepKeeps(s: State, m: nat, i: nat, j: nat)
    requires Inv(s) && CanSleep(s, m)
    ensures OkAt(SleepStep(s, m), i, j)
  {
    hide Inv, OkAt;
    match s.procs[m].pc
    case LetGo => LetGoKeeps(s, m, i, j);
    case Mark => MarkKeeps(s, m, i, j);
    case Asleep => ResumeKeeps(s, m, i, j);
  }

  lemma GiveKeeps(s: State, m: nat, i: nat, j: nat)
    requires Inv(s) && Giving(s, m)
    ensures OkAt(ReparentStep(s, m), i, j)
  {
    hide Inv;
    Ok(s, i, j);
    Ok(s, m, j);
    Ok(s, s.init, j);
  }

  lemma ReparentKeeps(s: State, m: nat, i: nat, j: nat)
    requires Inv(s) && CanReparent(s, m) && !Giving(s, m) && s.procs[m].pc.Reparent?
    ensures OkAt(ReparentStep(s, m), i, j)
  {
    hide Inv;
    Ok(s, i, j);
    Ok(s, m, j);
  }

  lemma PassInitKeeps(s: State, m: nat, c: nat, k: nat, i: nat, j: nat)
    requires Inv(s) && m < |s.procs| && s.procs[m].pc == WakeInit(c, k) && (k == s.init ==> !Bound(s.procs[k]))
    ensures OkAt(At(s, m, WakeInit(c, k + 1)), i, j)
  {
    hide Inv;
    Ok(s, i, j);
    Ok(s, m, j);
  }

  lemma EndWakeInitKeeps(s: State, m: nat, i: nat, j: nat)
    requires Inv(s) && CanReparent(s, m) && s.procs[m].pc.WakeInit? && s.procs[m].pc.k >= |s.procs|
    ensures OkAt(ReparentStep(s, m), i, j)
  {
    hide Inv;
    Ok(s, i, j);
    Ok(s, m, j);
    Ok(s, s.init, j);
  }

  lemma PassParentKeeps(s: State, m: nat, k: nat, i: nat, j: nat)
    requires Inv(s) && m < |s.procs| && s.procs[m].pc == WakeParent(k) &&
      (s.procs[m].parent == Some(k) && k < |s.procs| ==> !Bound(s.procs[k]))
    ensures OkAt(At(s, m, WakeParent(k + 1)), i, j)
  {
    hide Inv;
    Ok(s, i, j);
    Ok(s, m, j);
  }

  lemma WokenIsNotBound(s: State, k: nat)
    requires Inv(s) && k < |s.procs| && !s.procs[k].busy
    ensures !Bound(Wake(s, k, Some(k)).procs[k])
  {
    assert ProcOk(s, k);
  }

  lemma NotBound(s: State, m: nat)
    requires Inv(s) && m < |s.procs| && Exiting(s.procs[m].pc)
    ensures !Bound(s.procs[m])
  {
    assert ProcOk(s, m);
  }

  lemma WakeInitKeeps(s: State, m: nat, c: nat, k: nat, i: nat, j: nat)
    requires Inv(s) && CanReparent(s, m) && s.procs[m].pc == WakeInit(c, k) && k < |s.procs|
    ensures OkAt(ReparentStep(s, m), i, j)
  {
    hide Inv, OkAt;
    NotBound(s, m);
    if k == m {
      PassInitKeeps(s, m, c, k, i, j);
    } else {
      WakeKeepsInv(s, k, Some(s.init));
      WokenIsNotBound(s, k);
      PassInitKeeps(Wake(s, k, Some(s.init)), m, c, k, i, j);
    }
  }

  lemma ReparentStepKeeps(s: State, m: nat, i: nat, j: nat)
    requires Inv(s) && CanReparent(s, m)
    ensures OkAt(ReparentStep(s, m), i, j)
  {
    hide Inv, OkAt;
    var pc := s.procs[m].pc;
    if Giving(s, m) {
      GiveKeeps(s, m, i, j);
    } else if pc.ExitLock? {
      EnterKeeps(s, m, i, j);
    } else if pc.Reparent? {
      ReparentKeeps(s, m, i, j);
    } else if pc.k >= |s.procs| {
      EndWakeInitKeeps(s, m, i, j);
    } else {
      WakeInitKeeps(s, m, pc.j, pc.k, i, j);
    }
  }

  lemma WakeParentKeeps(s: State, m: nat, i: nat, j: nat)
    requires Inv(s) && CanExit(s, m) && s.procs[m].pc.WakeParent? && s.procs[m].pc.k < |s.procs|
    ensures OkAt(ExitStep(s, m), i, j)
  {
    hide Inv, OkAt;
    NotBound(s, m);
    var p := s.procs[m];
    if p.pc.k == m {
      PassParentKeeps(s, m, m, i, j);
    } else {
      WakeKeepsInv(s, p.pc.k, p.parent);
      WokenIsNotBound(s, p.pc.k);
      PassParentKeeps(Wake(s, p.pc.k, p.parent), m, p.pc.k, i, j);
    }
  }

  lemma DieKeeps(s: State, m: nat, i: nat, j: nat)
    requires Inv(s) && CanExit(s, m) && (s.procs[m].pc.WakeParent? ==> s.procs[m].pc.k >= |s.procs|)
    ensures OkAt(ExitStep(s, m), i, j)
  {
    hide Inv;
    Ok(s, i, j);
    Ok(s, m, j);
  }

  lemma ForkLinkKeeps(s: State, m: nat, i: nat, j: nat)
    requires Inv(s) && CanFork(s, m) && s.procs[m].pc.ForkLink?
    ensures OkAt(ForkStep(s, m), i, j)
  {
    hide Inv;
    Ok(s, i, j);
    Ok(s, m, j);
    Ok(s, m, s.procs[m].pc.j);
    Ok(s, s.procs[m].pc.j, j);
  }

  lemma ForkReadyKeeps(s: State, m: nat, i: nat, j: nat)
    requires Inv(s) && CanFork(s, m) && s.procs[m].pc.ForkReady?
    ensures OkAt(ForkStep(s, m), i, j)
  {
    hide Inv;
    Ok(s, i, j);
    Ok(s, m, j);
    Ok(s, m, s.procs[m].pc.j);
    Ok(s, s.procs[m].pc.j, j);
  }

  lemma WaitStepKeeps(s: State, m: nat, flag: bool, i: nat, j: nat)
    requires Inv(s) && CanWait(s, m)
    ensures OkAt(WaitStep(s, m, flag), i, j)
  {
    hide Inv, OkAt;
    var pc := s.procs[m].pc;
    if Reaping(s, m, flag) {
      ReapKeeps(s, m, i, j);
    } else if pc.Scan? && pc.j < |s.procs| && IsChild(s, m, pc.j) {
      if s.procs[pc.j].st == Zombie {
        LeaveWaitKeeps(s, m, i, j);
      } else {
        PassScanKeeps(s, m, true, i, j);
      }
    } else if pc.Scan? && pc.j < |s.procs| {
      PassScanKeeps(s, m, pc.kids, i, j);
    } else if pc.Decide? && (!pc.kids || flag) {
      LeaveWaitKeeps(s, m, i, j);
    } else if pc.WaitLock? {
      EnterKeeps(s, m, i, j);
    } else {
      WaitKeeps(s, m, i, j);
    }
  }

  lemma GoKeeps(s: State, m: nat, flag: bool, i: nat, j: nat)
    requires Inv(s) && Enabled(s, Go(m, flag))
    ensures OkAt(Step(s, Go(m, flag)), i, j)
  {
    hide Inv, OkAt, WaitStep, SleepStep, ReparentStep;
    if CanWait(s, m) {
      WaitStepKeeps(s, m, flag, i, j);
    } else if CanSleep(s, m) {
      SleepKeeps(s, m, i, j);
    } else if CanReparent(s, m) {
      ReparentStepKeeps(s, m, i, j);
    } else if CanExit(s, m) && s.procs[m].pc.WakeParent? && s.procs[m].pc.k < |s.procs| {
      WakeParentKeeps(s, m, i, j);
    } else if CanExit(s, m) {
      DieKeeps(s, m, i, j);
    } else if s.procs[m].pc.ForkLink? {
      ForkLinkKeeps(s, m, i, j);
    } else {
      ForkReadyKeeps(s, m, i, j);
    }
  }

  lemma StepKeeps(s: State, e: Event, i: nat, j: nat)
    requires Inv(s) && Enabled(s, e)
    ensures OkAt(Step(s, e), i, j)
  {
    hide Inv, OkAt;
    match e
    case BeginFork(_, _, ok) =>
      if ok {
        BeginForkKeeps(s, e, i, j);
      } else {
        NextPidKeeps(s, s.nextpid + 1, i, j);
      }
    case BeginWait(m) => BeginKeeps(s, m, WaitLock, s.args, i, j);
    case BeginExit(m, code) => BeginKeeps(s, m, ExitLock, s.args[m := code], i, j);
    case Kill(_, k) => WakeKeeps(s, k, Some(k), i, j);
    case Unlock(_) => UnlockKeeps(s, e, i, j);
    case Go(m, flag) => GoKeeps(s, m, flag, i, j);
  }

  lemma StepKeepsInv(s: State, e: Event)
    requires Inv(s) && Enabled(s, e)
    ensures Inv(Step(s, e))
  {
    hide Inv, OkAt, Step, Enabled;
    forall i: nat, j: nat ensures OkAt(Step(s, e), i, j) {
      StepKeeps(s, e, i, j);
    }
    OkEverywhere(Step(s, e));
  }

  // ----- Exit statuses

  ghost predicate PidOk(s: State, i: nat) {
    i < |s.procs| && i < |s.info| && s.procs[i].st != Unused ==>
      var p := s.info[i];
      && p.pid < s.nextpid
      && (if s.procs[i].st == Zombie then p.pid in s.exits && s.exits[p.pid] == p.xstate else p.pid !in s.exits)
      && (forall n :: 0 <= n < |s.reaps| ==> s.reaps[n].0 != p.pid)
  }

  ghost predicate PidsApart(s: State, i: nat, j: nat) {
    i < j < |s.procs| == |s.info| && s.procs[i].st != Unused && s.procs[j].st != Unused ==>
      s.info[i].pid != s.info[j].pid
  }

  ghost predicate ReapOk(s: State, n: nat) {
    n < |s.reaps| ==>
      && s.reaps[n].0 in s.exits && s.exits[s.reaps[n].0] == s.reaps[n].1
      && forall m :: 0 <= m < n ==> s.reaps[m].0 != s.reaps[n].0
  }

  ghost predicate History(s: State) {
    && (forall i: nat {:trigger PidOk(s, i)} :: PidOk(s, i))
    && (forall i: nat, j: nat {:trigger PidsApart(s, i, j)} :: PidsApart(s, i, j))
    && (forall n: nat {:trigger ReapOk(s, n)} :: ReapOk(s, n))
    && (forall pid :: pid in s.exits ==> pid < s.nextpid)
  }

  /** Nothing was allocated, exited or reaped. */
  ghost predicate Quiet(s: State, t: State) {
    && t.info == s.info && t.nextpid >= s.nextpid && t.exits == s.exits && t.reaps == s.reaps && |t.procs| == |s.procs|
    && (forall i :: 0 <= i < |s.procs| ==>
      (t.procs[i].st == Unused <==> s.procs[i].st == Unused) && (t.procs[i].st == Zombie <==> s.procs[i].st == Zombie))
  }

  lemma QuietKeepsHistory(s: State, t: State)
    requires History(s) && Quiet(s, t)
    ensures History(t)
  {
    forall i: nat ensures PidOk(t, i) {
      assert PidOk(s, i);
    }
    forall i: nat, j: nat ensures PidsApart(t, i, j) {
      assert PidsApart(s, i, j);
    }
    forall n: nat ensures ReapOk(t, n) {
      assert ReapOk(s, n);
    }
  }

  predicate Loud(s: State, e: Event)
    requires Enabled(s, e)
  {
    || (e.BeginFork? && e.ok)
    || (e.Go? && (Reaping(s, e.i, e.flag) || s.procs[e.i].pc.Die?))
  }

  lemma OrphanIsQuiet(s: State, i: nat)
    requires CanReparent(s, i)
    ensures Quiet(s, ReparentStep(s, i))
  {
  }

  lemma DieIsQuiet(s: State, i: nat)
    requires CanExit(s, i) && !s.procs[i].pc.Die?
    ensures Quiet(s, ExitStep(s, i))
  {
  }

  lemma ScanIsQuiet(s: State, i: nat, flag: bool)
    requires CanWait(s, i) && !Reaping(s, i, flag)
    ensures Quiet(s, WaitStep(s, i, flag))
  {
  }

  lemma OtherStepsAreQuiet(s: State, e: Event)
    requires Inv(s) && Enabled(s, e) && !Loud(s, e)
    ensures Quiet(s, Step(s, e))
  {
    assert ProcOk(s, e.i);
    if e.Go? && CanWait(s, e.i) {
      ScanIsQuiet(s, e.i, e.flag);
    } else if e.Go? && CanReparent(s, e.i) {
      OrphanIsQuiet(s, e.i);
    } else if e.Go? && CanExit(s, e.i) {
      DieIsQuiet(s, e.i);
    } else if e.Go? && CanFork(s, e.i) {
      assert ForkOk(s, e.i, s.procs[e.i].pc.j);
    }
  }

  lemma ForkKeepsHistory(s: State, e: Event)
    requires Inv(s) && History(s) && Enabled(s, e) && e.BeginFork? && e.ok
    ensures History(Step(s, e))
  {
    var t := Step(s, e);
    forall n: nat ensures ReapOk(t, n) {
      assert ReapOk(s, n);
    }
    forall i: nat ensures PidOk(t, i) {
      assert PidOk(s, i);
      forall n | 0 <= n < |t.reaps| ensures t.reaps[n].0 < s.nextpid {
        assert ReapOk(s, n);
      }
    }
    forall i: nat, j: nat ensures PidsApart(t, i, j) {
      assert PidsApart(s, i, j) && PidOk(s, i) && PidOk(s, j);
    }
  }

  lemma DieKeepsHistory(s: State, i: nat)
    requires Inv(s) && History(s) && CanExit(s, i) && s.procs[i].pc.Die?
    ensures History(ExitStep(s, i))
  {
    var t := ExitStep(s, i);
    assert ProcOk(s, i) && PidOk(s, i);
    forall n: nat ensures ReapOk(t, n) {
      assert ReapOk(s, n);
    }
    forall k: nat ensures PidOk(t, k) {
      assert PidOk(s, k) && PidsApart(s, i, k) && PidsApart(s, k, i);
    }
    forall k: nat, j: nat ensures PidsApart(t, k, j) {
      assert PidsApart(s, k, j);
    }
  }

  lemma ReapKeepsHistory(s: State, i: nat)
    requires Inv(s) && History(s) && Reaping(s, i, true)
    ensures History(WaitStep(s, i, true))
  {
    var t, j := WaitStep(s, i, true), s.procs[i].pc.j;
    assert ProcOk(s, i) && PidOk(s, j);
    forall n: nat ensures ReapOk(t, n) {
      assert ReapOk(s, n);
    }
    forall k: nat ensures PidOk(t, k) {
      assert PidOk(s, k) && PidsApart(s, j, k) && PidsApart(s, k, j);
    }
    forall k: nat, l: nat ensures PidsApart(t, k, l) {
      assert PidsApart(s, k, l);
    }
  }

  lemma StepKeepsHistory(s: State, e: Event)
    requires Inv(s) && History(s) && Enabled(s, e)
    ensures History(Step(s, e))
  {
    if !Loud(s, e) {
      OtherStepsAreQuiet(s, e);
      QuietKeepsHistory(s, Step(s, e));
    } else if e.BeginFork? {
      ForkKeepsHistory(s, e);
    } else if Reaping(s, e.i, e.flag) {
      ReapKeepsHistory(s, e.i);
    } else {
      DieKeepsHistory(s, e.i);
    }
  }

  // ----- Whole runs

  /** Only init exists, and it runs. */
  ghost predicate Init(s: State) {
    && s.init < |s.procs| == |s.info| == |s.args| && s.lock == None && s.exits == map[] && s.reaps == [] &&
      s.info[s.init].pid < s.nextpid
    && s.procs[s.init] == EMPTY.(st := Ready)
    && forall i :: 0 <= i < |s.procs| && i != s.init ==> s.procs[i] == EMPTY
  }

  ghost predicate IsRun(ss: seq<State>, es: seq<Event>) {
    && |ss| == |es| + 1 && Init(ss[0])
    && forall n :: 0 <= n < |es| ==> Enabled(ss[n], es[n]) && ss[n + 1] == Step(ss[n], es[n])
  }

  lemma {:induction false} RunKeepsInv(ss: seq<State>, es: seq<Event>, n: nat)
    requires IsRun(ss, es) && n < |ss|
    ensures Inv(ss[n]) && History(ss[n])
  {
    hide Step;
    if n == 0 {
      InitIsInv(ss[0]);
    } else {
      RunKeepsInv(ss, es, n - 1);
      StepKeepsInv(ss[n - 1], es[n - 1]);
      StepKeepsHistory(ss[n - 1], es[n - 1]);
    }
  }

  lemma InitIsInv(s: State)
    requires Init(s)
    ensures Inv(s) && History(s)
  {
  }

  /** Whenever wait_lock is free, nobody sleeps in wait beside a zombie child, whoever's child it was before. */
  lemma NoSleepBesideZombie(ss: seq<State>, es: seq<Event>, n: nat, i: nat, j: nat)
    requires IsRun(ss, es) && n < |ss| && ss[n].lock == None && i < |ss[n].procs| && j < |ss[n].procs|
    requires ss[n].procs[i].st == Sleeping && IsChild(ss[n], i, j)
    ensures ss[n].procs[j].st != Zombie
  {
    RunKeepsInv(ss, es, n);
    assert FamilyOk(ss[n], i, j);
  }

  /** No process has a parent that is dead or whose slot is free. */
  lemma NoOrphans(ss: seq<State>, es: seq<Event>, n: nat, i: nat, j: nat)
    requires IsRun(ss, es) && n < |ss| && j < |ss[n].procs| && IsChild(ss[n], i, j)
    ensures i < |ss[n].procs| && (ss[n].procs[i].st == Ready || ss[n].procs[i].st == Sleeping)
  {
    RunKeepsInv(ss, es, n);
    assert FamilyOk(ss[n], i, j);
  }

  /** Each pid is handed out by wait at most once, with the status it exited with. */
  lemma ReapedOnce(ss: seq<State>, es: seq<Event>, n: nat, a: nat, b: nat)
    requires IsRun(ss, es) && n < |ss| && a < |ss[n].reaps| && b < |ss[n].reaps|
    ensures ss[n].reaps[a].0 in ss[n].exits && ss[n].exits[ss[n].reaps[a].0] == ss[n].reaps[a].1
    ensures ss[n].reaps[a].0 == ss[n].reaps[b].0 ==> a == b
  {
    RunKeepsInv(ss, es, n);
    assert ReapOk(ss[n], a) && ReapOk(ss[n], b);
  }

  /** A slot is freed only when its process is off the CPU for good. */
  lemma ReapedIsOffCpu(ss: seq<State>, es: seq<Event>, n: nat, i: nat)
    requires IsRun(ss, es) && n < |ss| && Reaping(ss[n], i, true)
    ensures ss[n].procs[ss[n].procs[i].pc.j].pc == Dead && !ss[n].procs[ss[n].procs[i].pc.j].busy
  {
    RunKeepsInv(ss, es, n);
    assert ProcOk(ss[n], ss[n].procs[i].pc.j);
  }

  // ----- Who is whose child

  /** How a parent can change: fork by the parent itself, reparent by the exiting parent, to init, and reaping by it. */
  lemma ParentChange(s: State, e: Event, x: nat)
    requires Inv(s) && Enabled(s, e) && x < |s.procs|
    ensures
      var was, now := s.procs[x].parent, Step(s, e).procs[x].parent;
      || now == was
      || (e.Go? && CanFork(s, e.i) && s.procs[e.i].pc == ForkLink(x) && was == None && now == Some(e.i))
      || (e.Go? && Giving(s, e.i) && s.procs[e.i].pc.j == x && was == Some(e.i) && now == Some(s.init))
      || (e.Go? && Reaping(s, e.i, e.flag) && s.procs[e.i].pc.j == x && was == Some(e.i) && now == None)
  {
    hide Inv;
    Ok(s, e.i, x);
    if e.Go? {
      GoParent(s, e.i, e.flag, x);
    }
  }

  lemma WaitParent(s: State, m: nat, flag: bool, x: nat)
    requires CanWait(s, m) && x < |s.procs|
    ensures var was, now := s.procs[x].parent, WaitStep(s, m, flag).procs[x].parent;
      now == was || (Reaping(s, m, flag) && s.procs[m].pc.j == x && was == Some(m) && now == None)
  {
  }

  lemma GivenParent(s: State, m: nat, x: nat)
    requires CanReparent(s, m) && x < |s.procs|
    ensures var was, now := s.procs[x].parent, ReparentStep(s, m).procs[x].parent;
      now == was || (Giving(s, m) && s.procs[m].pc.j == x && was == Some(m) && now == Some(s.init))
  {
  }

  lemma ForkParent(s: State, m: nat, x: nat)
    requires CanFork(s, m) && x < |s.procs|
    ensures var was, now := s.procs[x].parent, ForkStep(s, m).procs[x].parent;
      now == was || (s.procs[m].pc == ForkLink(x) && now == Some(m))
  {
  }

  lemma OtherParent(s: State, m: nat, x: nat)
    requires x < |s.procs|
    ensures CanSleep(s, m) ==> SleepStep(s, m).procs[x].parent == s.procs[x].parent
    ensures CanExit(s, m) ==> ExitStep(s, m).procs[x].parent == s.procs[x].parent
  {
  }

  lemma GoParent(s: State, m: nat, flag: bool, x: nat)
    requires Enabled(s, Go(m, flag)) && x < |s.procs| && (s.procs[m].pc == ForkLink(x) ==> s.procs[x].parent == None)
    ensures
      var was, now := s.procs[x].parent, Step(s, Go(m, flag)).procs[x].parent;
      || now == was
      || (CanFork(s, m) && s.procs[m].pc == ForkLink(x) && was == None && now == Some(m))
      || (Giving(s, m) && s.procs[m].pc.j == x && was == Some(m) && now == Some(s.init))
      || (Reaping(s, m, flag) && s.procs[m].pc.j == x && was == Some(m) && now == None)
  {
    hide WaitStep, SleepStep, ReparentStep, ExitStep, ForkStep;
    hide CanWait, CanSleep, CanReparent, CanExit, CanFork, Giving, Reaping;
    if CanWait(s, m) {
      WaitParent(s, m, flag, x);
    } else if CanReparent(s, m) {
      GivenParent(s, m, x);
    } else if CanFork(s, m) {
      ForkParent(s, m, x);
    }
    OtherParent(s, m, x);
  }

  /** A child among the first n slots. */
  ghost predicate HasKid(s: State, i: nat, n: nat) {
    exists x: nat :: x < n && x < |s.procs| && IsChild(s, i, x)
  }

  /** What a process in wait or fork knows of its children. */
  ghost predicate KidsOk(s: State, i: nat) {
    i < |s.procs| ==>
      match s.procs[i].pc
      case Scan(j, kids) => kids <==> HasKid(s, i, j)
      case Decide(kids) => kids <==> HasKid(s, i, |s.procs|)
      case LetGo => HasKid(s, i, |s.procs|)
      case Mark => HasKid(s, i, |s.procs|)
      case Asleep => HasKid(s, i, |s.procs|)
      case ForkReady(j) => j < |s.procs| && IsChild(s, i, j)
      case _ => true
  }

  /** Everybody but init, once forked, has a parent. */
  ghost predicate ParentOk(s: State, j: nat) {
    j < |s.procs| && j != s.init && s.procs[j].st != Unused && s.procs[j].st != Used ==> s.procs[j].parent.Some?
  }

  ghost predicate Families(s: State) {
    && (forall i: nat {:trigger KidsOk(s, i)} :: KidsOk(s, i))
    && (forall j: nat {:trigger ParentOk(s, j)} :: ParentOk(s, j))
  }

  /** While i holds wait_lock, or for i's own children at any time, the steps of others take no child away. */
  lemma KidStays(s: State, e: Event, i: nat, x: nat)
    requires Inv(s) && Enabled(s, e) && x < |s.procs| && e.i != i
    ensures |Step(s, e).procs| == |s.procs|
    ensures IsChild(s, i, x) ==> IsChild(Step(s, e), i, x)
    ensures s.lock == Some(i) ==> (IsChild(Step(s, e), i, x) <==> IsChild(s, i, x))
  {
    hide Inv;
    ParentChange(s, e, x);
    Ok(s, e.i, x);
  }

  lemma KidsStay(s: State, e: Event, i: nat, n: nat)
    requires Inv(s) && Enabled(s, e) && e.i != i
    ensures |Step(s, e).procs| == |s.procs|
    ensures HasKid(s, i, n) ==> HasKid(Step(s, e), i, n)
    ensures s.lock == Some(i) ==> (HasKid(Step(s, e), i, n) <==> HasKid(s, i, n))
  {
    hide Inv, Enabled, Step;
    forall x: nat | x < |s.procs|
      ensures IsChild(s, i, x) ==> IsChild(Step(s, e), i, x)
      ensures s.lock == Some(i) ==> (IsChild(Step(s, e), i, x) <==> IsChild(s, i, x))
    {
      KidStays(s, e, i, x);
    }
  }

  /** Nobody else moves process i, except that fork may fill a free slot and a parent clear a dead one. */
  lemma OthersLeavePc(s: State, e: Event, i: nat)
    requires Inv(s) && Enabled(s, e) && i < |s.procs| && e.i != i
    ensures var p := Step(s, e).procs[i]; p.pc == s.procs[i].pc || p.pc == User
    ensures s.procs[i].st == Ready || s.procs[i].st == Sleeping ==> Step(s, e).procs[i].pc == s.procs[i].pc
    ensures s.procs[i].st == Ready ==> Step(s, e).procs[i].st == Ready
  {
    hide Inv, WaitStep, SleepStep, ReparentStep, ExitStep, ForkStep;
    if e.Go? && CanFork(s, e.i) {
      Ok(s, e.i, s.procs[e.i].pc.j);
    }
    if e.Go? {
      GoLeavesPc(s, e.i, e.flag, i);
    }
  }

  lemma GoLeavesPc(s: State, m: nat, flag: bool, i: nat)
    requires i < |s.procs| && m != i
    ensures CanWait(s, m) ==>
      var p := WaitStep(s, m, flag).procs[i]; p == s.procs[i] || (s.procs[i].st == Zombie && p == EMPTY)
    ensures CanSleep(s, m) ==> SleepStep(s, m).procs[i] == s.procs[i]
    ensures CanReparent(s, m) ==>
      var p := ReparentStep(s, m).procs[i]; p.pc == s.procs[i].pc && (p.st == s.procs[i].st || p.st == Ready)
    ensures CanExit(s, m) ==>
      var p := ExitStep(s, m).procs[i]; p.pc == s.procs[i].pc && (p.st == s.procs[i].st || p.st == Ready)
    ensures CanFork(s, m) ==>
      var p := ForkStep(s, m).procs[i]; p.pc == s.procs[i].pc && (p.st == s.procs[i].st || p.st == Ready)
  {
  }

  lemma OthersKeepKids(s: State, e: Event, i: nat)
    requires Inv(s) && Enabled(s, e) && KidsOk(s, i) && e.i != i
    ensures KidsOk(Step(s, e), i)
  {
    assert ProcOk(s, i);
    hide Inv, Enabled, Step, HasKid, CanWait;
    if i < |s.procs| {
      OthersLeavePc(s, e, i);
      match s.procs[i].pc
      case Scan(j, _) => KidsStay(s, e, i, j);
      case Decide(_) => KidsStay(s, e, i, |s.procs|);
      case LetGo => KidsStay(s, e, i, |s.procs|);
      case Mark => KidsStay(s, e, i, |s.procs|);
      case Asleep => KidsStay(s, e, i, |s.procs|);
      case ForkReady(j) => if j < |s.procs| { KidStays(s, e, i, j); }
      case _ =>
    }
  }

  lemma KidNext(s: State, i: nat, j: nat)
    requires j < |s.procs|
    ensures HasKid(s, i, j + 1) <==> HasKid(s, i, j) || IsChild(s, i, j)
  {
  }

  lemma SameKids(s: State, t: State, i: nat, n: nat)
    requires |t.procs| == |s.procs| && forall x :: 0 <= x < |s.procs| ==> t.procs[x].parent == s.procs[x].parent
    ensures HasKid(t, i, n) <==> HasKid(s, i, n)
  {
    assert forall x: nat :: x < |s.procs| ==> (IsChild(t, i, x) <==> IsChild(s, i, x));
  }

  lemma OwnWaitKeepsKids(s: State, i: nat, flag: bool)
    requires Inv(s) && CanWait(s, i) && KidsOk(s, i)
    ensures KidsOk(WaitStep(s, i, flag), i)
  {
    var t := WaitStep(s, i, flag);
    if !Reaping(s, i, flag) {
      match s.procs[i].pc
      case WaitLock => SameKids(s, t, i, 0);
      case Scan(j, _) =>
        if j < |s.procs| {
          KidNext(s, i, j);
          SameKids(s, t, i, j + 1);
        } else {
          assert HasKid(s, i, j) <==> HasKid(s, i, |s.procs|);
          SameKids(s, t, i, |s.procs|);
          assert t.procs[i].pc.Decide?;
        }
      case Decide(_) => SameKids(s, t, i, |s.procs|);
    }
  }

  lemma OwnKeepsKids(s: State, e: Event)
    requires Inv(s) && Enabled(s, e) && KidsOk(s, e.i)
    ensures KidsOk(Step(s, e), e.i)
  {
    hide Inv, WaitStep, ReparentStep;
    if e.Go? && CanWait(s, e.i) {
      OwnWaitKeepsKids(s, e.i, e.flag);
    } else if e.Go? && CanSleep(s, e.i) {
      SameKids(s, Step(s, e), e.i, |s.procs|);
    } else if e.Go? && CanReparent(s, e.i) {
      ExitHasNoKids(s, e.i);
    } else if e.Go? && CanFork(s, e.i) {
      Ok(s, e.i, s.procs[e.i].pc.j);
    } else if e.Unlock? {
      SameKids(s, Step(s, e), e.i, |s.procs|);
    }
  }

  lemma ExitHasNoKids(s: State, i: nat)
    requires CanReparent(s, i)
    ensures KidsOk(ReparentStep(s, i), i) && InExit(ReparentStep(s, i).procs[i].pc)
  {
  }

  lemma StepKeepsParent(s: State, e: Event, j: nat)
    requires Inv(s) && Enabled(s, e) && ParentOk(s, j) && KidsOk(s, e.i)
    ensures ParentOk(Step(s, e), j)
  {
    hide Inv, Step;
    if j < |s.procs| {
      Grown(s, e, j);
      ParentChange(s, e, j);
      if e.Go? && Reaping(s, e.i, e.flag) && s.procs[e.i].pc.j == j {
        Freed(s, e, j);
      }
    }
  }

  /** Only fork turns a new process into one that runs. */
  lemma Grown(s: State, e: Event, j: nat)
    requires Inv(s) && Enabled(s, e) && j < |s.procs|
    ensures var st := Step(s, e).procs[j].st;
      st == Unused || st == Used || (s.procs[j].st != Unused && s.procs[j].st != Used) ||
        s.procs[e.i].pc == ForkReady(j)
  {
    hide Inv;
    Ok(s, e.i, j);
  }

  /** A slot whose process is reaped is free. */
  lemma Freed(s: State, e: Event, j: nat)
    requires Inv(s) && Enabled(s, e) && e.Go? && Reaping(s, e.i, e.flag) && s.procs[e.i].pc.j == j
    ensures Step(s, e).procs[j].st == Unused
  {
    hide Inv;
    Ok(s, e.i, j);
  }

  lemma StepKeepsFamilies(s: State, e: Event)
    requires Inv(s) && Families(s) && Enabled(s, e)
    ensures Families(Step(s, e))
  {
    hide Inv, Enabled, Step, KidsOk, ParentOk;
    forall i: nat ensures KidsOk(Step(s, e), i) && ParentOk(Step(s, e), i) {
      assert KidsOk(s, i) && KidsOk(s, e.i) && ParentOk(s, i);
      StepKeepsParent(s, e, i);
      if i == e.i {
        OwnKeepsKids(s, e);
      } else {
        OthersKeepKids(s, e, i);
      }
    }
  }

  lemma RunStep(ss: seq<State>, es: seq<Event>, n: nat)
    requires IsRun(ss, es) && n + 1 < |ss|
    ensures n < |es| && Inv(ss[n]) && Enabled(ss[n], es[n]) && ss[n + 1] == Step(ss[n], es[n])
  {
    RunKeepsInv(ss, es, n);
  }

  lemma {:induction false} RunKeepsFamilies(ss: seq<State>, es: seq<Event>, n: nat)
    requires IsRun(ss, es) && n < |ss|
    ensures Families(ss[n])
    decreases n
  {
    if n > 0 {
      hide IsRun, Inv, Enabled, Step, Families;
      RunKeepsFamilies(ss, es, n - 1);
      RunStep(ss, es, n - 1);
      StepKeepsFamilies(ss[n - 1], es[n - 1]);
    }
  }

  /** Every process but init, from the end of its fork until it is reaped, has a living parent to reap it. */
  lemma EverybodyHasParent(ss: seq<State>, es: seq<Event>, n: nat, j: nat)
    requires IsRun(ss, es) && n < |ss| && j < |ss[n].procs| && j != ss[n].init
    requires ss[n].procs[j].st != Unused && ss[n].procs[j].st != Used
    ensures ss[n].procs[j].parent.Some?
    ensures var i := ss[n].procs[j].parent.value;
      i < |ss[n].procs| && (ss[n].procs[i].st == Ready || ss[n].procs[i].st == Sleeping)
  {
    RunKeepsFamilies(ss, es, n);
    assert ParentOk(ss[n], j);
    NoOrphans(ss, es, n, ss[n].procs[j].parent.value, j);
  }

  // ----- When wait returns and when it sleeps

  predicate InWait(pc: Pc) {
    pc.WaitLock? || pc.Scan? || pc.Decide? || pc.LetGo? || pc.Mark? || pc.Asleep?
  }

  /** wait handed out pid and status of a zombie child, whose slot is free again. */
  ghost predicate Reaped(s: State, t: State, i: nat) {
    exists j: nat ::
      && j < |s.procs| == |t.procs| && j < |s.info| && IsChild(s, i, j) && s.procs[j].st == Zombie
      && t.reaps == s.reaps + [(s.info[j].pid, s.info[j].xstate)] && t.procs[j] == EMPTY
  }

  ghost predicate ZombieKid(s: State, i: nat) {
    exists j: nat :: j < |s.procs| && IsChild(s, i, j) && s.procs[j].st == Zombie
  }

  /** wait comes back with a child it has reaped; or without one because copyout failed on a zombie child, because
      it has no children, or because it was killed. */
  lemma WaitReturnsWhen(ss: seq<State>, es: seq<Event>, n: nat, i: nat)
    requires IsRun(ss, es) && n + 1 < |ss| && i < |ss[n].procs| == |ss[n + 1].procs|
    requires InWait(ss[n].procs[i].pc) && !InWait(ss[n + 1].procs[i].pc)
    ensures n < |es| && es[n].Go? && es[n].i == i && ss[n + 1].procs[i].pc == User
    ensures Reaped(ss[n], ss[n + 1], i) ==> es[n].flag
    ensures !Reaped(ss[n], ss[n + 1], i) ==>
      && ss[n + 1].reaps == ss[n].reaps
      && ((ss[n].procs[i].pc.Scan? && ZombieKid(ss[n], i) && !es[n].flag)
        || (ss[n].procs[i].pc.Decide? && (es[n].flag || !HasKid(ss[n], i, |ss[n].procs|))))
  {
    hide IsRun;
    RunStep(ss, es, n);
    RunKeepsFamilies(ss, es, n);
    var s, e := ss[n], es[n];
    assert ProcOk(s, i) && KidsOk(s, i);
    hide Inv, Families;
    if e.i != i {
      OthersLeavePc(s, e, i);
    }
  }

  /** wait goes to sleep only with a child, no zombie among its children, and not killed. */
  lemma WaitSleepsWhen(ss: seq<State>, es: seq<Event>, n: nat, i: nat)
    requires IsRun(ss, es) && n + 1 < |ss| && i < |ss[n].procs| == |ss[n + 1].procs|
    requires ss[n].procs[i].pc != LetGo && ss[n + 1].procs[i].pc == LetGo
    ensures n < |es| && es[n] == Go(i, false) && HasKid(ss[n], i, |ss[n].procs|) && !ZombieKid(ss[n], i)
  {
    hide IsRun, Inv, Step, Enabled;
    RunStep(ss, es, n);
    RunKeepsFamilies(ss, es, n);
    assert KidsOk(ss[n], i);
    OnlyDecideSleeps(ss[n], es[n], i);
    DecidedMeansNone(ss[n], i);
  }

  lemma OnlyDecideSleeps(s: State, e: Event, i: nat)
    requires Inv(s) && Enabled(s, e) && i < |s.procs| && s.procs[i].pc != LetGo && Step(s, e).procs[i].pc == LetGo
    ensures e == Go(i, false) && s.procs[i].pc == Decide(true)
  {
    hide Inv;
    if e.i != i {
      OthersLeavePc(s, e, i);
    }
  }

  /** A scan that ran to its end has left no zombie child behind. */
  lemma DecidedMeansNone(s: State, i: nat)
    requires Inv(s) && i < |s.procs|
    ensures s.procs[i].pc.Decide? ==> !ZombieKid(s, i)
  {
    forall j: nat | j < |s.procs| && IsChild(s, i, j) && s.procs[i].pc.Decide? ensures s.procs[j].st != Zombie {
      assert FamilyOk(s, i, j);
    }
  }

  // ----- What exit was called with

  /** Some exit(code) was called, before n, by the process with this pid. */
  ghost predicate Asked(ss: seq<State>, es: seq<Event>, n: nat, pid: nat, code: int) {
    exists m: nat ::
      && m < n && m < |es| && m < |ss| && es[m].BeginExit? && es[m].code == code
      && es[m].i < |ss[m].info| && ss[m].info[es[m].i].pid == pid
  }

  predicate InExit(pc: Pc) {
    pc.ExitLock? || pc.Reparent? || pc.WakeInit? || pc.WakeParent? || pc.Die?
  }

  ghost predicate ArgOk(ss: seq<State>, es: seq<Event>, n: nat, i: nat)
    requires n < |ss|
  {
    var s := ss[n];
    i < |s.procs| && i < |s.info| && i < |s.args| && InExit(s.procs[i].pc) ==>
      Asked(ss, es, n, s.info[i].pid, s.args[i])
  }

  ghost predicate StatusOk(ss: seq<State>, es: seq<Event>, n: nat, pid: nat)
    requires n < |ss|
  {
    pid in ss[n].exits ==> Asked(ss, es, n, pid, ss[n].exits[pid])
  }

  /** A process in exit keeps pid and argument, and enters it only by calling it. */
  lemma ExitKeepsArg(s: State, e: Event, i: nat)
    requires Inv(s) && Enabled(s, e) && i < |s.procs|
    ensures var t := Step(s, e);
      InExit(t.procs[i].pc) ==>
        && t.info[i].pid == s.info[i].pid
        && if e.BeginExit? && e.i == i then t.args[i] == e.code else InExit(s.procs[i].pc) && t.args[i] == s.args[i]
  {
    hide Inv, Step;
    PidStays(s, e, i);
    if e.i != i {
      OthersLeavePc(s, e, i);
    } else if !e.BeginExit? {
      ExitIsEntered(s, e);
    }
    ArgStays(s, e, i);
  }

  lemma ExitIsEntered(s: State, e: Event)
    requires Enabled(s, e) && e.i < |s.procs| && !e.BeginExit?
    ensures InExit(Step(s, e).procs[e.i].pc) ==> InExit(s.procs[e.i].pc)
  {
    hide WaitStep, SleepStep, ReparentStep, ExitStep, ForkStep, CanWait, CanSleep, CanReparent, CanExit, CanFork;
    if e.Go? {
      GoInExit(s, e.i, e.flag);
    }
  }

  lemma GoInExit(s: State, i: nat, flag: bool)
    requires i < |s.procs|
    ensures CanWait(s, i) ==> !InExit(WaitStep(s, i, flag).procs[i].pc)
    ensures CanSleep(s, i) ==> !InExit(SleepStep(s, i).procs[i].pc)
    ensures CanReparent(s, i) ==> InExit(s.procs[i].pc)
    ensures CanExit(s, i) ==> InExit(s.procs[i].pc) || !InExit(ExitStep(s, i).procs[i].pc)
    ensures CanFork(s, i) ==> !InExit(ForkStep(s, i).procs[i].pc)
  {
  }

  lemma PidStays(s: State, e: Event, i: nat)
    requires Inv(s) && Enabled(s, e) && i < |s.procs|
    ensures Step(s, e).info[i].pid == s.info[i].pid || (Step(s, e).procs[i].pc == User)
  {
    hide Inv;
    Ok(s, e.i, i);
  }

  lemma ArgStays(s: State, e: Event, i: nat)
    requires Enabled(s, e) && i < |s.procs|
    ensures Step(s, e).args[i] == if e.BeginExit? && e.i == i then e.code else s.args[i]
  {
  }

  /** Exits are recorded by the processes that exit, with what they were called with. */
  lemma ExitRecords(s: State, e: Event, pid: nat)
    requires Inv(s) && Enabled(s, e) && pid in Step(s, e).exits
    ensures (pid in s.exits && Step(s, e).exits[pid] == s.exits[pid]) ||
      (s.procs[e.i].pc == Die && pid == s.info[e.i].pid && Step(s, e).exits[pid] == s.args[e.i])
  {
  }

  lemma AskedStays(ss: seq<State>, es: seq<Event>, n: nat, pid: nat, code: int)
    requires Asked(ss, es, n, pid, code)
    ensures Asked(ss, es, n + 1, pid, code)
  {
  }

  lemma {:induction false} ExitsAsAsked(ss: seq<State>, es: seq<Event>, n: nat, i: nat, pid: nat)
    requires IsRun(ss, es) && n < |ss|
    ensures ArgOk(ss, es, n, i) && StatusOk(ss, es, n, pid)
    decreases n
  {
    if n > 0 {
      hide IsRun, Inv, Enabled, Step, Asked;
      RunStep(ss, es, n - 1);
      ExitsAsAsked(ss, es, n - 1, i, pid);
      ExitsAsAsked(ss, es, n - 1, es[n - 1].i, pid);
      ArgStep(ss, es, n - 1, i);
      StatusStep(ss, es, n - 1, pid);
    }
  }

  lemma ArgStep(ss: seq<State>, es: seq<Event>, n: nat, i: nat)
    requires IsRun(ss, es) && n + 1 < |ss| && ArgOk(ss, es, n, i)
    ensures ArgOk(ss, es, n + 1, i)
  {
    hide IsRun, Inv, Step;
    RunStep(ss, es, n);
    var s, e := ss[n], es[n];
    if i < |s.procs| {
      ExitKeepsArg(s, e, i);
      if InExit(ss[n + 1].procs[i].pc) && !(e.BeginExit? && e.i == i) {
        AskedStays(ss, es, n, s.info[i].pid, s.args[i]);
      }
    }
  }

  lemma StatusStep(ss: seq<State>, es: seq<Event>, n: nat, pid: nat)
    requires IsRun(ss, es) && n + 1 < |ss| && StatusOk(ss, es, n, pid) && n < |es| && ArgOk(ss, es, n, es[n].i)
    ensures StatusOk(ss, es, n + 1, pid)
  {
    hide IsRun, Inv, Step, Asked;
    RunStep(ss, es, n);
    if pid in ss[n + 1].exits {
      ExitRecords(ss[n], es[n], pid);
      AskedStays(ss, es, n, pid, ss[n + 1].exits[pid]);
    }
  }

  /** What wait hands out for a pid is what the process with that pid called exit with. */
  lemma ReapedAsExited(ss: seq<State>, es: seq<Event>, n: nat, a: nat)
    requires IsRun(ss, es) && n < |ss| && a < |ss[n].reaps|
    ensures Asked(ss, es, n, ss[n].reaps[a].0, ss[n].reaps[a].1)
  {
    ReapedOnce(ss, es, n, a, a);
    ExitsAsAsked(ss, es, n, 0, ss[n].reaps[a].0);
  }

  // ----- What fork has made when it returns

  /** Process i is making child j, or has just made it. */
  predicate ForkedTo(s: State, i: nat, j: nat) {
    && i < |s.procs| && j < |s.procs| && j < |s.info| && s.procs[i].st == Ready
    && (Making(s.procs[i].pc, j) || (s.procs[i].pc == User && s.procs[j].st == Ready && IsChild(s, i, j)))
  }

  lemma OwnForkStep(s: State, i: nat, j: nat)
    requires Inv(s) && KidsOk(s, i) && CanFork(s, i) && Making(s.procs[i].pc, j)
    ensures j < |s.info| && ForkedTo(ForkStep(s, i), i, j) && ForkStep(s, i).info == s.info
  {
    assert ForkOk(s, i, j);
  }

  lemma OtherForkStep(s: State, e: Event, i: nat, j: nat)
    requires Inv(s) && Enabled(s, e) && i < |s.procs| && Making(s.procs[i].pc, j) && s.procs[i].st == Ready && e.i != i
    ensures j < |s.info| && ForkedTo(Step(s, e), i, j) && Step(s, e).info[j].pid == s.info[j].pid
  {
    hide Inv;
    Ok(s, i, j);
    Ok(s, e.i, j);
    OthersLeavePc(s, e, i);
  }

  lemma ForkStepOn(s: State, e: Event, i: nat, j: nat)
    requires Inv(s) && KidsOk(s, i) && Enabled(s, e) && ForkedTo(s, i, j) && s.procs[i].pc != User
    ensures ForkedTo(Step(s, e), i, j) && Step(s, e).info[j].pid == s.info[j].pid
  {
    if e.i == i {
      OwnForkStep(s, i, j);
    } else {
      OtherForkStep(s, e, i, j);
    }
  }

  lemma ForkStarts(ss: seq<State>, es: seq<Event>, m: nat, i: nat, j: nat)
    requires IsRun(ss, es) && m < |es| && es[m] == BeginFork(i, j, true)
    ensures ForkedTo(ss[m + 1], i, j) && ss[m + 1].info[j].pid == ss[m].nextpid
  {
  }

  lemma {:induction false} ForkUnderWay(ss: seq<State>, es: seq<Event>, m: nat, n: nat, i: nat, j: nat)
    requires IsRun(ss, es) && m < n < |ss| && m < |es| && es[m] == BeginFork(i, j, true)
    requires forall k :: m < k < n ==> i < |ss[k].procs| && ss[k].procs[i].pc != User
    ensures ForkedTo(ss[n], i, j) && ss[n].info[j].pid == ss[m].nextpid
    decreases n
  {
    hide IsRun, Inv, KidsOk, Step, Enabled;
    if n - 1 > m {
      RunStep(ss, es, n - 1);
      ForkUnderWay(ss, es, m, n - 1, i, j);
      RunKeepsFamilies(ss, es, n - 1);
      assert KidsOk(ss[n - 1], i);
      ForkStepOn(ss[n - 1], es[n - 1], i, j);
    } else {
      ForkStarts(ss, es, m, i, j);
    }
  }

  /** When fork returns, the child is the caller's, ready to run, and has the pid fork drew. */
  lemma ForkMakesChild(ss: seq<State>, es: seq<Event>, m: nat, n: nat, i: nat, j: nat)
    requires IsRun(ss, es) && m < n < |ss| && m < |es| && es[m] == BeginFork(i, j, true)
    requires forall k :: m < k < n ==> i < |ss[k].procs| && ss[k].procs[i].pc != User
    requires i < |ss[n].procs| && ss[n].procs[i].pc == User
    ensures j < |ss[n].procs| && j < |ss[n].info|
    ensures ss[n].procs[j].st == Ready && IsChild(ss[n], i, j) && ss[n].info[j].pid == ss[m].nextpid
  {
    ForkUnderWay(ss, es, m, n, i, j);
  }

  /** A process asleep in wait is woken by kill, by a child that exits or, if it is init, by a process that hands it
      children. */
  lemma WaitSleepEndsBy(s: State, e: Event, i: nat)
    requires Inv(s) && Enabled(s, e) && i < |s.procs| && s.procs[i].st == Sleeping
    ensures |Step(s, e).procs| == |s.procs|
    ensures e.Kill? && e.j == i ==> Step(s, e).procs[i].st == Ready
    ensures Step(s, e).procs[i].st != Sleeping ==>
      || (e.Kill? && e.j == i)
      || (e.Go? && s.procs[e.i].pc == WakeParent(i) && IsChild(s, i, e.i))
      || (e.Go? && s.procs[e.i].pc.WakeInit? && s.procs[e.i].pc.k == i == s.init)
  {
    hide Inv;
    Ok(s, e.i, i);
    if e.Go? && CanFork(s, e.i) {
      Ok(s, e.i, s.procs[e.i].pc.j);
    }
  }
}
