/**
 The in-memory side of kernel/log.c: the header being filled, the operations
 outstanding, the admission test of begin_op and the panic test of log_write,
 over every interleaving of begin_op, log_write and end_op.

 The question settled here is when log_write's "too big a transaction" panic
 is out of reach.  log_write tests for a full log before it looks for a block
 to absorb, and begin_op admits an operation only on top of MAXOPBLOCKS for
 each one outstanding; both show in the exact conditions below.
 */
module LogSpace {
  import opened RedoLog

  /** An operation between begin_op and end_op: the blocks it logged and its log_write calls. */
  datatype Op = Op(id: nat, blocks: set<int>, calls: nat)

  /** log.lh, the outstanding operations (log.outstanding is their number), log.committing. */
  datatype State = State(lh: seq<int>, ops: seq<Op>, committing: bool)

  const Init: State := State([], [], false)

  /** log_write's loop: overwrite the entry that already names b, or append. */
  function AddBlock(lh: seq<int>, b: int): seq<int> {
    if b in lh then lh else lh + [b]
  }

  /** The panic test of log_write. */
  predicate Full(size: int, lh: seq<int>) {
    |lh| >= LOGSIZE || |lh| >= size - 1
  }

  /** begin_op gets past its two sleeps. */
  predicate Admits(s: State) {
    !s.committing && |s.lh| + (|s.ops| + 1) * MAXOPBLOCKS <= LOGSIZE
  }

  function Begin(s: State, id: nat): State {
    s.(ops := s.ops + [Op(id, {}, 0)])
  }

  function Log(s: State, i: nat, b: int): State
    requires i < |s.ops|
  {
    var op := s.ops[i];
    State(AddBlock(s.lh, b), s.ops[i := Op(op.id, op.blocks + {b}, op.calls + 1)], s.committing)
  }

  /** end_op up to the release of log.lock: the last one out starts the commit. */
  function End(s: State, i: nat): State
    requires i < |s.ops|
  {
    var ops := s.ops[..i] + s.ops[i + 1..];
    State(s.lh, ops, ops == [])
  }

  /** commit() is over: lh.n is 0 and committing is cleared. */
  function CommitDone(s: State): State {
    Init.(ops := s.ops)
  }

  // ----- Runs of clients that keep to a budget

  datatype Event = BeginOp(id: nat) | LogWrite(op: nat, block: int) | EndOp(op: nat) | Committed

  /** What each operation is allowed: distinct blocks, or calls of log_write. */
  datatype Budget = Blocks(limit: nat) | Calls(limit: nat)
  {
    function Used(op: Op): nat {
      if Blocks? then |op.blocks| else op.calls
    }
  }

  datatype Outcome = Blocked | Panic | Ok(state: State)

  /** One atomic step; Blocked when the event cannot happen or breaks the budget. */
  function Step(size: int, bud: Budget, s: State, e: Event): Outcome {
    match e
    case BeginOp(id) => if Admits(s) then Ok(Begin(s, id)) else Blocked
    case LogWrite(i, b) =>
      if i >= |s.ops| || bud.Used(Log(s, i, b).ops[i]) > bud.limit then Blocked
      else if Full(size, s.lh) then Panic
      else Ok(Log(s, i, b))
    case EndOp(i) => if i < |s.ops| then Ok(End(s, i)) else Blocked
    case Committed => if s.committing then Ok(CommitDone(s)) else Blocked
  }

  function Run(size: int, bud: Budget, es: seq<Event>): Outcome {
    if es == [] then Ok(Init) else
      match Run(size, bud, es[..|es| - 1])
      case Ok(s) => Step(size, bud, s, es[|es| - 1])
      case o => o
  }

  ghost predicate NeverPanics(size: int, bud: Budget) {
    forall es: seq<Event> :: Run(size, bud, es) != Panic
  }

  // ----- Operations and commits exclude each other

  /** What every reachable state satisfies, whatever the budget. */
  ghost predicate Inv(s: State) {
    && (s.committing ==> s.ops == [])
    && (s.ops == [] && !s.committing ==> s.lh == [])
    && Distinct(s.lh)
    && |s.lh| <= LOGSIZE
  }

  lemma StepKeepsInv(size: int, bud: Budget, s: State, e: Event)
    requires Inv(s) && Step(size, bud, s, e).Ok?
    ensures Inv(Step(size, bud, s, e).state)
  {
    if e.EndOp? {
      var t := End(s, e.op);
      assert |t.ops| == |s.ops| - 1;
    } else if e.LogWrite? && e.block !in s.lh {
      DistinctAppend(s.lh, e.block);
    }
  }

  /** In every run, a commit has no operation outstanding, and none begins before it is over. */
  lemma {:induction false} CommitExcludesOps(size: int, bud: Budget, es: seq<Event>)
    requires Run(size, bud, es).Ok?
    ensures Inv(Run(size, bud, es).state)
    ensures Run(size, bud, es).state.committing ==>
      forall e: Event :: Step(size, bud, Run(size, bud, es).state, e).Ok? ==> e.Committed?
  {
    if es != [] {
      CommitExcludesOps(size, bud, es[..|es| - 1]);
      StepKeepsInv(size, bud, Run(size, bud, es[..|es| - 1]).state, es[|es| - 1]);
    }
  }

  // ----- The panic is out of reach: a potential argument

  /** What the outstanding operations may still use. */
  ghost function Slack(bud: Budget, ops: seq<Op>): int {
    if ops == [] then 0 else Slack(bud, ops[..|ops| - 1]) + bud.limit - bud.Used(ops[|ops| - 1])
  }

  lemma {:induction false} SlackUpdate(bud: Budget, ops: seq<Op>, i: nat, op: Op)
    requires i < |ops|
    ensures Slack(bud, ops[i := op]) == Slack(bud, ops) + bud.Used(ops[i]) - bud.Used(op)
  {
    var n := |ops| - 1;
    if i < n {
      assert ops[i := op][..n] == ops[..n][i := op];
      SlackUpdate(bud, ops[..n], i, op);
    } else {
      assert ops[i := op][..n] == ops[..n];
    }
  }

  lemma {:induction false} SlackRemove(bud: Budget, ops: seq<Op>, i: nat)
    requires i < |ops|
    ensures Slack(bud, ops[..i] + ops[i + 1..]) == Slack(bud, ops) - bud.limit + bud.Used(ops[i])
  {
    var n := |ops| - 1;
    var rest := ops[..i] + ops[i + 1..];
    if i < n {
      assert rest[..n - 1] == ops[..n][..i] + ops[..n][i + 1..];
      SlackRemove(bud, ops[..n], i);
    } else {
      assert rest == ops[..n];
    }
  }

  lemma {:induction false} SlackBounds(bud: Budget, ops: seq<Op>)
    requires forall i :: 0 <= i < |ops| ==> bud.Used(ops[i]) <= bud.limit
    ensures 0 <= Slack(bud, ops) <= |ops| * bud.limit
  {
    if ops != [] {
      SlackBounds(bud, ops[..|ops| - 1]);
    }
  }

  /** The most blocks a budget lets the log hold: only two operations can overlap a filled log. */
  ghost function Peak(bud: Budget): int {
    LOGSIZE - 2 * (MAXOPBLOCKS - bud.limit)
  }

  ghost predicate Bounded(bud: Budget, s: State) {
    && Inv(s)
    && (forall i :: 0 <= i < |s.ops| ==> bud.Used(s.ops[i]) <= bud.limit)
    && |s.lh| + Slack(bud, s.ops) <= Peak(bud)
  }

  lemma BeginKeepsBound(bud: Budget, s: State, id: nat)
    requires Bounded(bud, s) && bud.limit <= MAXOPBLOCKS && Admits(s)
    ensures Bounded(bud, Begin(s, id))
  {
    SlackBounds(bud, s.ops);
    assert Begin(s, id).ops[..|s.ops|] == s.ops;
    var n := |s.ops|;
    assert n <= 2;
    assert n == 0 || n == 1 || n == 2;
  }

  lemma LogKeepsBound(bud: Budget, s: State, i: nat, b: int)
    requires Bounded(bud, s) && i < |s.ops| && bud.Used(Log(s, i, b).ops[i]) <= bud.limit
    requires |s.lh| < LOGSIZE
    requires b in s.ops[i].blocks ==> b in s.lh
    ensures Bounded(bud, Log(s, i, b))
  {
    SlackUpdate(bud, s.ops, i, Log(s, i, b).ops[i]);
    if b !in s.lh {
      DistinctAppend(s.lh, b);
      assert |s.ops[i].blocks + {b}| == |s.ops[i].blocks| + 1;
    } else if b !in s.ops[i].blocks {
      assert |s.ops[i].blocks + {b}| == |s.ops[i].blocks| + 1;
    } else {
      assert s.ops[i].blocks + {b} == s.ops[i].blocks;
    }
  }

  lemma EndKeepsBound(bud: Budget, s: State, i: nat)
    requires Bounded(bud, s) && i < |s.ops|
    ensures Bounded(bud, End(s, i))
  {
    SlackRemove(bud, s.ops, i);
    StepKeepsInv(0, bud, s, EndOp(i));
  }

  /** Blocks an outstanding operation logged are in the header until the commit. */
  ghost predicate Recorded(s: State) {
    forall i, b :: 0 <= i < |s.ops| && b in s.ops[i].blocks ==> b in s.lh
  }

  lemma StepKeepsBound(size: int, bud: Budget, s: State, e: Event)
    requires bud.limit <= MAXOPBLOCKS && Bounded(bud, s) && Recorded(s) && Step(size, bud, s, e).Ok?
    ensures Bounded(bud, Step(size, bud, s, e).state) && Recorded(Step(size, bud, s, e).state)
  {
    match e
    case BeginOp(id) => BeginKeepsBound(bud, s, id);
    case LogWrite(i, b) => LogKeepsBound(bud, s, i, b);
    case EndOp(i) => EndKeepsBound(bud, s, i);
    case Committed =>
  }

  lemma {:induction false} RunStaysBounded(size: int, bud: Budget, es: seq<Event>)
    requires bud.limit <= MAXOPBLOCKS && Run(size, bud, es).Ok?
    ensures Bounded(bud, Run(size, bud, es).state) && Recorded(Run(size, bud, es).state)
  {
    if es != [] {
      RunStaysBounded(size, bud, es[..|es| - 1]);
      StepKeepsBound(size, bud, Run(size, bud, es[..|es| - 1]).state, es[|es| - 1]);
    }
  }

  /** The exact condition under which a budget keeps log_write from panicking. */
  ghost predicate Fits(size: int, bud: Budget) {
    if bud.Blocks? then bud.limit < MAXOPBLOCKS && Peak(bud) <= size - 2
    else bud.limit <= MAXOPBLOCKS && Peak(bud) <= size - 1
  }

  lemma {:induction false} FittingRunsAreSafe(size: int, bud: Budget, es: seq<Event>)
    requires Fits(size, bud)
    ensures Run(size, bud, es) != Panic
  {
    if es != [] {
      var prefix := es[..|es| - 1];
      FittingRunsAreSafe(size, bud, prefix);
      if Run(size, bud, prefix).Ok? && es[|es| - 1].LogWrite? {
        var s := Run(size, bud, prefix).state;
        var i := es[|es| - 1].op;
        RunStaysBounded(size, bud, prefix);
        if i < |s.ops| {
          SlackRemove(bud, s.ops, i);
          SlackBounds(bud, End(s, i).ops);
        }
      }
    }
  }

  // ----- The panic is in reach: the run that gets there

  ghost predicate Reachable(size: int, bud: Budget, s: State) {
    exists es: seq<Event> :: Run(size, bud, es) == Ok(s)
  }

  ghost predicate CanPanic(size: int, bud: Budget) {
    exists es: seq<Event> :: Run(size, bud, es) == Panic
  }

  lemma ReachStep(size: int, bud: Budget, s: State, e: Event)
    requires Reachable(size, bud, s)
    ensures Step(size, bud, s, e).Ok? ==> Reachable(size, bud, Step(size, bud, s, e).state)
    ensures Step(size, bud, s, e).Panic? ==> CanPanic(size, bud)
  {
    var es :| Run(size, bud, es) == Ok(s);
    assert (es + [e])[..|es|] == es;
    assert Run(size, bud, es + [e]) == Step(size, bud, s, e);
  }

  /** A header holding 0 .. n-1: the next fresh block is n. */
  ghost predicate Dense(s: State) {
    forall b :: b in s.lh ==> 0 <= b < |s.lh|
  }

  lemma OneFresh(t: State, i: nat)
    requires Dense(t) && i < |t.ops| && forall b :: b in t.ops[i].blocks ==> b < |t.lh|
    ensures var u := Log(t, i, |t.lh|);
      && Dense(u) && |u.lh| == |t.lh| + 1
      && |u.ops[i].blocks| == |t.ops[i].blocks| + 1 && |t.lh| in u.ops[i].blocks
      && (forall b :: b in u.ops[i].blocks ==> b < |u.lh|)
  {
  }

  /** Operation i logs k fresh blocks, unless something panics first. */
  lemma {:induction false} LogFresh(size: int, bud: Budget, s: State, i: nat, k: nat) returns (t: State)
    requires Reachable(size, bud, s) && Dense(s) && i < |s.ops|
    requires forall b :: b in s.ops[i].blocks ==> b < |s.lh|
    requires |s.ops[i].blocks| + k <= bud.limit && s.ops[i].calls + k <= bud.limit
    ensures CanPanic(size, bud) ||
      (&& Reachable(size, bud, t) && Dense(t) && |t.lh| == |s.lh| + k
       && t.committing == s.committing && |t.ops| == |s.ops|
       && (forall j :: 0 <= j < |s.ops| && j != i ==> t.ops[j] == s.ops[j])
       && |t.ops[i].blocks| == |s.ops[i].blocks| + k && t.ops[i].calls == s.ops[i].calls + k
       && (forall b :: b in t.ops[i].blocks ==> b < |t.lh|)
       && (k > 0 ==> |t.lh| - 1 in t.ops[i].blocks))
  {
    hide Run;
    if k == 0 {
      t := s;
    } else {
      t := LogFresh(size, bud, s, i, k - 1);
      if !CanPanic(size, bud) {
        OneFresh(t, i);
        ReachStep(size, bud, t, LogWrite(i, |t.lh|));
        t := Log(t, i, |t.lh|);
      }
    }
  }

  /** Beside one idle operation, short operations fill the header to n <= LOGSIZE - 2 * MAXOPBLOCKS. */
  lemma {:induction false} FillBeside(size: int, bud: Budget, n: nat) returns (t: State)
    requires 1 <= bud.limit && n <= LOGSIZE - 2 * MAXOPBLOCKS
    ensures CanPanic(size, bud) ||
      (&& Reachable(size, bud, t) && Dense(t) && |t.lh| == n
       && t.ops == [Op(0, {}, 0)] && !t.committing)
  {
    if n == 0 {
      assert Run(size, bud, []) == Ok(Init);
      ReachStep(size, bud, Init, BeginOp(0));
      t := Begin(Init, 0);
    } else {
      t := FillBeside(size, bud, n - 1);
      if !CanPanic(size, bud) {
        ReachStep(size, bud, t, BeginOp(1));
        var u := LogFresh(size, bud, Begin(t, 1), 1, 1);
        if !CanPanic(size, bud) {
          ReachStep(size, bud, u, EndOp(1));
          t := End(u, 1);
          assert t.ops == [Op(0, {}, 0)];
        }
      }
    }
  }

  /** Two operations logging u blocks each on top of that. */
  lemma ReachPeak(size: int, bud: Budget, u: nat) returns (t: State)
    requires 1 <= u <= bud.limit && u <= MAXOPBLOCKS
    ensures CanPanic(size, bud) ||
      (&& Reachable(size, bud, t) && |t.lh| == LOGSIZE - 2 * (MAXOPBLOCKS - u) && |t.ops| == 2
       && |t.ops[0].blocks| == t.ops[0].calls == u && |t.lh| - 1 in t.ops[0].blocks)
  {
    t := FillBeside(size, bud, LOGSIZE - 2 * MAXOPBLOCKS);
    if !CanPanic(size, bud) {
      ReachStep(size, bud, t, BeginOp(1));
      var v := LogFresh(size, bud, Begin(t, 1), 1, u);
      if !CanPanic(size, bud) {
        t := LogFresh(size, bud, v, 0, u);
      }
    }
  }

  lemma {:induction false} HeaderStaysBelowSize(size: int, bud: Budget, es: seq<Event>)
    requires Run(size, bud, es).Ok?
    ensures Run(size, bud, es).state.lh == [] || |Run(size, bud, es).state.lh| <= size - 1
  {
    if es != [] {
      HeaderStaysBelowSize(size, bud, es[..|es| - 1]);
    }
  }

  lemma OverrunPanics(size: int, bud: Budget)
    requires 1 <= bud.limit && !Fits(size, bud)
    ensures CanPanic(size, bud)
  {
    var u := if bud.limit <= MAXOPBLOCKS then bud.limit else MAXOPBLOCKS;
    var t := ReachPeak(size, bud, u);
    if !CanPanic(size, bud) {
      var es :| Run(size, bud, es) == Ok(t);
      HeaderStaysBelowSize(size, bud, es);
      // the last block again: absorbed, but the test for a full log comes first
      var b := |t.lh| - 1;
      assert t.ops[0].blocks + {b} == t.ops[0].blocks;
      ReachStep(size, bud, t, LogWrite(0, b));
    }
  }

  /**
   log_write never panics on clients that keep to a budget if and only if the
   budget fits: fewer than MAXOPBLOCKS distinct blocks per operation (one
   block logged twice is enough to fail at exactly MAXOPBLOCKS), or at most
   MAXOPBLOCKS calls, together with a log area large enough for the peak.
   */
  lemma PanicFreeExactlyWhenFits(size: int, bud: Budget)
    requires 1 <= bud.limit
    ensures NeverPanics(size, bud) <==> Fits(size, bud)
  {
    if Fits(size, bud) {
      forall es: seq<Event> ensures Run(size, bud, es) != Panic {
        FittingRunsAreSafe(size, bud, es);
      }
    } else {
      OverrunPanics(size, bud);
    }
  }

  /**
   The three readings that matter.  With the log area mkfs makes (LOGSIZE
   blocks, header included) ten log_write calls per operation can panic, one
   block more is exactly enough for them; ten distinct blocks can panic on any
   log area; nine distinct blocks never do, already on the area mkfs makes.
   */
  lemma PanicReadings(size: int)
    ensures NeverPanics(size, Calls(MAXOPBLOCKS)) <==> size >= LOGSIZE + 1
    ensures !NeverPanics(size, Blocks(MAXOPBLOCKS))
    ensures NeverPanics(size, Blocks(MAXOPBLOCKS - 1)) <==> size >= LOGSIZE
  {
    PanicFreeExactlyWhenFits(size, Calls(MAXOPBLOCKS));
    PanicFreeExactlyWhenFits(size, Blocks(MAXOPBLOCKS));
    PanicFreeExactlyWhenFits(size, Blocks(MAXOPBLOCKS - 1));
  }

  // ----- Operations that keep to a set of blocks

  /** The same step whatever the operation has logged so far. */
  function FreeStep(size: int, s: State, e: Event): Outcome {
    match e
    case LogWrite(i, b) => if i >= |s.ops| then Blocked else if Full(size, s.lh) then Panic else Ok(Log(s, i, b))
    case _ => Step(size, Blocks(0), s, e)
  }

  function FreeRun(size: int, es: seq<Event>): Outcome {
    if es == [] then Ok(Init) else
      match FreeRun(size, es[..|es| - 1])
      case Ok(s) => FreeStep(size, s, es[|es| - 1])
      case o => o
  }

  ghost predicate KeepsTo(scripts: seq<set<int>>, op: Op) {
    op.id < |scripts| && op.blocks <= scripts[op.id]
  }

  /** Operation number id logs blocks of scripts[id] only, in any order and as often as it likes. */
  ghost predicate Follows(scripts: seq<set<int>>, s: State, e: Event) {
    && (e.BeginOp? ==> e.id < |scripts|)
    && (e.LogWrite? && e.op < |s.ops| && s.ops[e.op].id < |scripts| ==> e.block in scripts[s.ops[e.op].id])
  }

  ghost predicate Scripted(size: int, scripts: seq<set<int>>, es: seq<Event>) {
    es != [] ==>
      var prefix := es[..|es| - 1];
      && Scripted(size, scripts, prefix)
      && (FreeRun(size, prefix).Ok? ==> Follows(scripts, FreeRun(size, prefix).state, es[|es| - 1]))
  }

  lemma SubsetSize(a: set<int>, b: set<int>)
    requires a <= b
    ensures |a| <= |b|
  {
    assert a * b == a && |b - a| == |b| - |b * a|;
  }

  /** Small scripts keep operations within a budget of blocks. */
  lemma {:induction false} ScriptsAreABudget(size: int, limit: nat, scripts: seq<set<int>>, es: seq<Event>)
    requires (forall k :: 0 <= k < |scripts| ==> |scripts[k]| <= limit) && Scripted(size, scripts, es)
    ensures Run(size, Blocks(limit), es) == FreeRun(size, es)
    ensures FreeRun(size, es).Ok? ==>
      forall i :: 0 <= i < |FreeRun(size, es).state.ops| ==> KeepsTo(scripts, FreeRun(size, es).state.ops[i])
  {
    if es != [] {
      var prefix, e := es[..|es| - 1], es[|es| - 1];
      ScriptsAreABudget(size, limit, scripts, prefix);
      if FreeRun(size, prefix).Ok? {
        var s := FreeRun(size, prefix).state;
        if e.LogWrite? && e.op < |s.ops| {
          assert KeepsTo(scripts, s.ops[e.op]);
          SubsetSize(s.ops[e.op].blocks + {e.block}, scripts[s.ops[e.op].id]);
        }
      }
    }
  }

  /** Operations that keep to small sets of blocks never panic on a log area that fits. */
  lemma ScriptedRunsAreSafe(size: int, limit: nat, scripts: seq<set<int>>, es: seq<Event>)
    requires (forall k :: 0 <= k < |scripts| ==> |scripts[k]| <= limit) && Scripted(size, scripts, es)
    requires Fits(size, Blocks(limit))
    ensures FreeRun(size, es) != Panic
  {
    ScriptsAreABudget(size, limit, scripts, es);
    FittingRunsAreSafe(size, Blocks(limit), es);
  }
}
