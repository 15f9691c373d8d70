/**
 The driver side of kernel/virtio_disk.c against any device that takes each
 posted chain once and completes it once, in any order (the split virtqueue of
 section 2.6 and the block requests of section 5.2 of the OASIS virtio 1.1
 specification).  Ring indices are 16-bit counters that wrap.
 */
module Virtio {
  import opened Common

  const NUM: nat := 8
  const WRAP: nat := 0x1_0000

  // ----- Descriptors

  /** A descriptor's link: next, and whether VRING_DESC_F_NEXT is set. */
  datatype Desc = Desc(more: bool, next: nat)

  /** What alloc_desc returns: the first free descriptor, or |free|. */
  function FirstFree(free: seq<bool>, from: nat): (i: nat)
    requires from <= |free|
    ensures from <= i <= |free| && (i < |free| ==> free[i])
    ensures forall j :: from <= j < i ==> !free[j]
    decreases |free| - from
  {
    if from == |free| || free[from] then from else FirstFree(free, from + 1)
  }

  /** The three descriptors of a request. */
  datatype Chain = Chain(a: nat, b: nat, c: nat)
  {
    predicate Has(i: nat) {
      i == a || i == b || i == c
    }

    predicate Valid() {
      a < NUM && b < NUM && c < NUM && a != b && b != c && a != c
    }
  }

  function Marked(free: seq<bool>, ch: Chain, value: bool): (r: seq<bool>)
    requires ch.Valid() && |free| == NUM
    ensures |r| == NUM && forall i: nat :: i < NUM ==> r[i] == if ch.Has(i) then value else free[i]
  {
    free[ch.a := value][ch.b := value][ch.c := value]
  }

  /** Three descriptors are free. */
  ghost predicate HasThree(free: seq<bool>) {
    exists i, j, k :: 0 <= i < j < k < |free| && free[i] && free[j] && free[k]
  }

  ghost predicate Linked(desc: seq<Desc>, ch: Chain) {
    ch.Valid() && |desc| == NUM && desc[ch.a] == Desc(true, ch.b) && desc[ch.b] == Desc(true, ch.c) && !desc[ch.c].more
  }

  class Descriptors {
    var free: seq<bool>
    var desc: seq<Desc>

    constructor ()
      ensures free == seq(NUM, _ => true) && |desc| == NUM
    {
      free, desc := seq(NUM, _ => true), seq(NUM, _ => Desc(false, 0));
    }

    /** alloc_desc: NUM stands for -1. */
    method AllocDesc() returns (i: nat)
      requires |free| == NUM
      modifies this`free
      ensures i == FirstFree(old(free), 0)
      ensures free == if i < NUM then old(free)[i := false] else old(free)
    {
      i := 0;
      while i < NUM
        invariant i <= NUM && free == old(free) && FirstFree(old(free), 0) == FirstFree(old(free), i)
      {
        if free[i] {
          free := free[i := false];
          return;
        }
        i := i + 1;
      }
    }

    /** free_desc: ok is false for its two panics. */
    method FreeDesc(i: nat) returns (ok: bool)
      requires |free| == |desc| == NUM
      modifies this
      ensures ok <==> i < NUM && !old(free)[i]
      ensures ok ==> free == old(free)[i := true] && desc == old(desc)[i := Desc(false, 0)]
      ensures !ok ==> free == old(free) && desc == old(desc)
    {
      if i >= NUM || free[i] {
        return false;
      }
      desc, free, ok := desc[i := Desc(false, 0)], free[i := true], true;
    }

    /** alloc3_desc: three descriptors, or everything as it was. */
    method Alloc3Desc() returns (ok: bool, ch: Chain)
      requires |free| == |desc| == NUM
      modifies this
      ensures ok ==> ch.Valid() && old(free)[ch.a] && old(free)[ch.b] && old(free)[ch.c]
      ensures ok ==> free == Marked(old(free), ch, false) && desc == old(desc)
      ensures !ok ==> free == old(free) && !HasThree(free)
      ensures |desc| == NUM
    {
      ch := Chain(0, 0, 0);
      var a := AllocDesc();
      if a == NUM {
        return false, ch;
      }
      var b := AllocDesc();
      if b == NUM {
        var _ := FreeDesc(a);
        return false, ch;
      }
      var c := AllocDesc();
      if c == NUM {
        var _ := FreeDesc(a);
        var _ := FreeDesc(b);
        assert free == old(free);
        return false, ch;
      }
      return true, Chain(a, b, c);
    }

    /** free_chain: gives back exactly the three descriptors of the chain, without a panic. */
    method FreeChain(i: nat, ghost ch: Chain) returns (ok: bool)
      requires Linked(desc, ch) && i == ch.a && |free| == NUM && !free[ch.a] && !free[ch.b] && !free[ch.c]
      modifies this
      ensures ok && free == Marked(old(free), ch, true)
      ensures |desc| == NUM && forall j :: 0 <= j < NUM && !ch.Has(j) ==> desc[j] == old(desc)[j]
    {
      var k := i;
      ghost var done := 0;
      while true
        invariant |free| == |desc| == NUM && done < 3 &&
          k == (if done == 0 then ch.a else if done == 1 then ch.b else ch.c)
        invariant free == if done == 0 then old(free) else if done == 1 then old(free)[ch.a := true]
          else old(free)[ch.a := true][ch.b := true]
        invariant forall j :: 0 <= j < NUM && !ch.Has(j) ==> desc[j] == old(desc)[j]
        invariant desc[ch.c] == old(desc)[ch.c] && (done < 2 ==> desc[ch.b] == old(desc)[ch.b]) &&
          (done < 1 ==> desc[ch.a] == old(desc)[ch.a])
        decreases 3 - done
      {
        var d := desc[k];
        ok := FreeDesc(k);
        if !ok || !d.more {
          return;
        }
        k, done := d.next, done + 1;
      }
    }
  }

  // ----- Driver and device

  /** How far a request has got.  b->disk is 1 until Handled; k is its place among the posts or completions. */
  datatype Stage = Filled | Posted(k: nat) | Fetched | Completed(k: nat) | Handled(k: nat)

  datatype Req = Req(ch: Chain, stage: Stage)

  /**
   buf and status are disk.info[]; seen is disk.used_idx, devSeen and pending
   the device's own.  The last five fields belong to the specification: which
   request owns a descriptor, the requests in the order posted and completed,
   and how many of each have been looked at.
   */
  datatype State = State(
    free: seq<bool>, desc: seq<Desc>, buf: seq<Option<nat>>, status: seq<nat>,
    avail: seq<nat>, availIdx: nat, used: seq<nat>, usedIdx: nat, seen: nat,
    devSeen: nat, pending: set<nat>,
    lock: Option<nat>, waiting: set<nat>, reqs: map<nat, Req>,
    owner: seq<Option<nat>>, posts: seq<nat>, fetched: nat, comps: seq<nat>, handled: nat)

  datatype Event =
    | Submit(q: nat, ch: Chain)          // virtio_disk_rw up to the avail ring entry
    | Wait(q: nat)                       // alloc3_desc failed: sleep on disk.free[0]
    | Publish(q: nat)                    // avail->idx += 1, and sleep until the request is done
    | Fetch                              // the device reads an avail entry
    | Complete(h: nat)                   // the device finishes a chain
    | Handle                             // one turn of virtio_disk_intr's loop
    | Finish(q: nat)                     // the rest of virtio_disk_rw

  predicate Shape(s: State) {
    |s.free| == |s.desc| == |s.buf| == |s.status| == |s.avail| == |s.used| == |s.owner| == NUM
  }

  predicate IsFree(s: State, ch: Chain)
    requires Shape(s)
  {
    ch.Valid() && s.free[ch.a] && s.free[ch.b] && s.free[ch.c]
  }

  ghost predicate Enabled(s: State, e: Event) {
    Shape(s) &&
    match e
    case Submit(q, ch) => s.lock == None && q !in s.reqs && q !in s.waiting && q !in s.posts && IsFree(s, ch)
    case Wait(q) => s.lock == None && q !in s.reqs && !HasThree(s.free)
    case Publish(q) => s.lock == Some(q) && q in s.reqs
    case Fetch => s.devSeen != s.availIdx
    case Complete(h) => h in s.pending && h < NUM
    case Handle => s.lock == None && s.seen != s.usedIdx
    case Finish(q) => s.lock == None && q in s.reqs && s.reqs[q].stage.Handled?
  }

  function SetStage(s: State, q: nat, stage: Stage): State {
    if q in s.reqs then s.(reqs := s.reqs[q := s.reqs[q].(stage := stage)]) else s
  }

  function SubmitStep(s: State, q: nat, ch: Chain): State
    requires Shape(s) && ch.Valid()
  {
    s.(free := Marked(s.free, ch, false),
       desc := s.desc[ch.a := Desc(true, ch.b)][ch.b := Desc(true, ch.c)][ch.c := Desc(false, 0)],
       buf := s.buf[ch.a := Some(q)], status := s.status[ch.a := 0xff],
       avail := s.avail[s.availIdx % NUM := ch.a],
       lock := Some(q), reqs := s.reqs[q := Req(ch, Filled)],
       owner := s.owner[ch.a := Some(q)][ch.b := Some(q)][ch.c := Some(q)])
  }

  function PublishStep(s: State, q: nat): State {
    SetStage(s, q, Posted(|s.posts|)).(availIdx := (s.availIdx + 1) % WRAP, lock := None, posts := s.posts + [q])
  }

  function FetchStep(s: State): State
    requires Shape(s)
  {
    var t := s.(devSeen := (s.devSeen + 1) % WRAP, pending := s.pending + {s.avail[s.devSeen % NUM]},
      fetched := s.fetched + 1);
    if s.fetched < |s.posts| then SetStage(t, s.posts[s.fetched], Fetched) else t
  }

  function CompleteStep(s: State, h: nat): State
    requires Shape(s) && h < NUM
  {
    var t := s.(status := s.status[h := 0], used := s.used[s.usedIdx % NUM := h], usedIdx := (s.usedIdx + 1) % WRAP,
                pending := s.pending - {h});
    if s.buf[h].Some? then
      SetStage(t, s.buf[h].value, Completed(|s.comps|)).(comps := s.comps + [s.buf[h].value]) else t
  }

  /** What the interrupt handler finds: the head of a completed chain. */
  function UsedId(s: State): nat
    requires Shape(s)
  {
    s.used[s.seen % NUM]
  }

  function HandleStep(s: State): State
    requires Shape(s)
  {
    var id := UsedId(s);
    var t := s.(seen := (s.seen + 1) % WRAP, handled := s.handled + 1);
    if id < NUM && s.buf[id].Some? then SetStage(t, s.buf[id].value, Handled(s.handled)) else t
  }

  /** free_chain gives back the chain (Descriptors.FreeChain); freeing wakes everybody who waits for descriptors. */
  function FinishStep(s: State, q: nat): State
    requires Shape(s) && q in s.reqs && s.reqs[q].ch.Valid()
  {
    var ch := s.reqs[q].ch;
    s.(free := Marked(s.free, ch, true), buf := s.buf[ch.a := None], waiting := {}, reqs := s.reqs - {q},
       owner := s.owner[ch.a := None][ch.b := None][ch.c := None])
  }

  // ----- The invariant

  ghost predicate DescOk(s: State, i: nat) {
    Shape(s) && i < NUM ==>
      && (s.free[i] <==> s.owner[i] == None)
      && (s.owner[i].Some? ==> s.owner[i].value in s.reqs && s.reqs[s.owner[i].value].ch.Has(i))
  }

  ghost predicate ReqOk(s: State, q: nat) {
    Shape(s) && q in s.reqs ==>
      var ch := s.reqs[q].ch;
      && ch.Valid() && s.owner[ch.a] == s.owner[ch.b] == s.owner[ch.c] == Some(q)
      && Linked(s.desc, ch) && s.buf[ch.a] == Some(q)
      && match s.reqs[q].stage
         case Filled => s.lock == Some(q) && s.avail[s.availIdx % NUM] == ch.a && q !in s.posts
         case Posted(k) => s.fetched <= k < |s.posts| && s.posts[k] == q
         case Fetched => ch.a in s.pending && q in s.posts
         case Completed(k) => s.handled <= k < |s.comps| && s.comps[k] == q && s.status[ch.a] == 0 && q in s.posts
         case Handled(k) => k < s.handled <= |s.comps| && s.comps[k] == q && q in s.posts
  }

  ghost predicate PostOk(s: State, k: nat) {
    Shape(s) && s.fetched <= k < |s.posts| ==>
      var q := s.posts[k];
      q in s.reqs && s.reqs[q].stage == Posted(k) && s.avail[k % NUM] == s.reqs[q].ch.a
  }

  /** The k-th completion is of a request posted before and completed at no other time. */
  ghost predicate CompOk(s: State, k: nat) {
    Shape(s) && k < |s.comps| ==>
      var q := s.comps[k];
      && q in s.posts && (forall j :: 0 <= j < k ==> s.comps[j] != q)
      && (k < s.handled && q in s.reqs ==> s.reqs[q].stage == Handled(k))
      && (k >= s.handled ==> q in s.reqs && s.reqs[q].stage == Completed(k) && s.used[k % NUM] == s.reqs[q].ch.a)
  }

  ghost predicate PendOk(s: State, h: nat) {
    Shape(s) && h in s.pending ==>
      h < NUM && s.buf[h].Some? && s.buf[h].value in s.reqs
      && s.reqs[s.buf[h].value].stage == Fetched && s.reqs[s.buf[h].value].ch.a == h
  }

  /** The wrapped indices stand for counts that are never more than NUM apart. */
  ghost predicate CountsOk(s: State) {
    && s.fetched <= |s.posts| <= s.fetched + NUM && s.handled <= |s.comps| <= s.handled + NUM
    && s.availIdx == |s.posts| % WRAP && s.devSeen == s.fetched % WRAP
    && s.usedIdx == |s.comps| % WRAP && s.seen == s.handled % WRAP
    && (s.lock.Some? ==> s.lock.value in s.reqs && s.reqs[s.lock.value].stage == Filled && |s.posts| < s.fetched + NUM)
    && (s.waiting != {} ==> !HasThree(s.free))
  }

  ghost predicate Inv(s: State) {
    && Shape(s) && CountsOk(s)
    && (forall i: nat {:trigger DescOk(s, i)} :: DescOk(s, i))
    && (forall q: nat {:trigger ReqOk(s, q)} :: ReqOk(s, q))
    && (forall k: nat {:trigger PostOk(s, k)} :: PostOk(s, k))
    && (forall k: nat {:trigger CompOk(s, k)} :: CompOk(s, k))
    && (forall h: nat {:trigger PendOk(s, h)} :: PendOk(s, h))
  }

  lemma WrapIsHarmless(n: nat)
    ensures (n % WRAP) % NUM == n % NUM
    ensures (n % WRAP + 1) % WRAP == (n + 1) % WRAP
  {
    assert n == WRAP * (n / WRAP) + n % WRAP;
  }

  lemma CloseCounts(a: nat, b: nat)
    requires a <= b <= a + NUM
    ensures a % WRAP == b % WRAP <==> a == b
    ensures b < a + NUM && a % NUM == b % NUM ==> a == b
  {
  }

  /** Distinct numbers below n are at most n. */
  lemma {:induction false} Pigeonhole(f: seq<nat>, n: nat)
    requires forall i :: 0 <= i < |f| ==> f[i] < n
    requires forall i, j :: 0 <= i < j < |f| ==> f[i] != f[j]
    ensures |f| <= n
    decreases n
  {
    if f != [] {
      assert f[0] < n;
      if exists i :: 0 <= i < |f| && f[i] == n - 1 {
        var i :| 0 <= i < |f| && f[i] == n - 1;
        Pigeonhole(f[..i] + f[i + 1..], n - 1);
      } else {
        Pigeonhole(f, n - 1);
      }
    }
  }

  function Head(s: State, q: nat): nat {
    if q in s.reqs then s.reqs[q].ch.a else 0
  }

  /** Requests at distinct places have distinct heads, so with a descriptor to spare fewer than NUM of them
      are around. */
  lemma RoomForOne(s: State, qs: seq<nat>, a: nat)
    requires Inv(s) && a < NUM
    requires forall i :: 0 <= i < |qs| ==> qs[i] in s.reqs && Head(s, qs[i]) != a
    requires forall i, j :: 0 <= i < j < |qs| ==> qs[i] != qs[j]
    ensures |qs| < NUM
  {
    var f := seq(|qs|, i requires 0 <= i < |qs| => Head(s, qs[i])) + [a];
    forall i | 0 <= i < |qs| ensures f[i] < NUM && s.owner[f[i]] == Some(qs[i]) {
      assert ReqOk(s, qs[i]);
    }
    Pigeonhole(f, NUM);
  }

  lemma SubmitReq(s: State, q: nat, ch: Chain, p: nat)
    requires Inv(s) && Enabled(s, Submit(q, ch)) && s.owner[ch.a] == s.owner[ch.b] == s.owner[ch.c] == None
    ensures ReqOk(SubmitStep(s, q, ch), p)
  {
    assert ReqOk(s, p);
  }

  lemma SubmitPost(s: State, q: nat, ch: Chain, k: nat)
    requires Inv(s) && Enabled(s, Submit(q, ch)) && |s.posts| < s.fetched + NUM
    ensures PostOk(SubmitStep(s, q, ch), k)
  {
    WrapIsHarmless(|s.posts|);
    assert PostOk(s, k);
    if s.fetched <= k < |s.posts| {
      CloseCounts(k, |s.posts|);
    }
  }

  lemma SubmitPend(s: State, q: nat, ch: Chain, h: nat)
    requires Inv(s) && Enabled(s, Submit(q, ch)) && s.owner[ch.a] == None
    ensures PendOk(SubmitStep(s, q, ch), h)
  {
    assert PendOk(s, h);
    if h in s.pending {
      assert ReqOk(s, s.buf[h].value);
    }
  }

  lemma SubmitKeepsInv(s: State, q: nat, ch: Chain)
    requires Inv(s) && Enabled(s, Submit(q, ch))
    ensures Inv(SubmitStep(s, q, ch))
  {
    var t := SubmitStep(s, q, ch);
    assert DescOk(s, ch.a) && DescOk(s, ch.b) && DescOk(s, ch.c);
    UnreadBelow(s, ch.a);
    FewerFree(s.free, t.free);
    forall i: nat ensures DescOk(t, i) && CompOk(t, i) {
      assert DescOk(s, i) && CompOk(s, i);
    }
    forall i: nat ensures ReqOk(t, i) && PostOk(t, i) && PendOk(t, i) {
      SubmitReq(s, q, ch, i);
      SubmitPost(s, q, ch, i);
      SubmitPend(s, q, ch, i);
    }
  }

  lemma FewerFree(free: seq<bool>, free': seq<bool>)
    requires |free| == |free'| && forall i :: 0 <= i < |free| ==> free'[i] ==> free[i]
    ensures HasThree(free') ==> HasThree(free)
  {
  }

  /** The avail entries the device has not read leave room for one more when a descriptor is not the head of any. */
  lemma UnreadBelow(s: State, a: nat)
    requires Inv(s) && a < NUM && s.owner[a] == None
    ensures |s.posts| < s.fetched + NUM
  {
    var qs := s.posts[s.fetched..];
    forall i | 0 <= i < |qs| ensures qs[i] in s.reqs && Head(s, qs[i]) != a &&
      s.reqs[qs[i]].stage == Posted(s.fetched + i) {
      assert PostOk(s, s.fetched + i) && ReqOk(s, qs[i]);
    }
    RoomForOne(s, qs, a);
  }

  lemma PublishKeepsInv(s: State, q: nat)
    requires Inv(s) && Enabled(s, Publish(q))
    ensures Inv(PublishStep(s, q))
  {
    var t := PublishStep(s, q);
    WrapIsHarmless(|s.posts|);
    assert ReqOk(s, q);
    forall i: nat ensures DescOk(t, i) {
      assert DescOk(s, i);
    }
    forall p: nat ensures ReqOk(t, p) {
      assert ReqOk(s, p);
    }
    forall k: nat ensures PostOk(t, k) {
      assert PostOk(s, k);
    }
    forall k: nat ensures CompOk(t, k) {
      assert CompOk(s, k);
    }
    forall h: nat ensures PendOk(t, h) {
      assert PendOk(s, h);
    }
  }

  lemma FetchKeepsInv(s: State)
    requires Inv(s) && Enabled(s, Fetch)
    ensures Inv(FetchStep(s))
  {
    var t := FetchStep(s);
    WrapIsHarmless(s.fetched);
    CloseCounts(s.fetched, |s.posts|);
    assert PostOk(s, s.fetched) && ReqOk(s, s.posts[s.fetched]);
    forall i: nat ensures DescOk(t, i) {
      assert DescOk(s, i);
    }
    forall p: nat ensures ReqOk(t, p) {
      assert ReqOk(s, p);
    }
    forall k: nat ensures PostOk(t, k) {
      assert PostOk(s, k);
    }
    forall k: nat ensures CompOk(t, k) {
      assert CompOk(s, k);
    }
    forall h: nat ensures PendOk(t, h) {
      assert PendOk(s, h) && (h in s.pending && h < NUM && s.buf[h].Some? ==> ReqOk(s, s.buf[h].value));
    }
  }

  /** The completions the driver has not looked at leave room for one more while another request is with the device. */
  lemma CompletedBelow(s: State, q: nat)
    requires Inv(s) && q in s.reqs && s.reqs[q].stage == Fetched
    ensures |s.comps| < s.handled + NUM
  {
    var qs := s.comps[s.handled..];
    assert ReqOk(s, q);
    forall i | 0 <= i < |qs|
      ensures qs[i] in s.reqs && Head(s, qs[i]) != Head(s, q) && s.reqs[qs[i]].stage == Completed(s.handled + i)
    {
      assert CompOk(s, s.handled + i) && ReqOk(s, qs[i]);
    }
    RoomForOne(s, qs, Head(s, q));
  }

  lemma NotYetCompleted(s: State, q: nat)
    requires Inv(s) && q in s.reqs && s.reqs[q].stage == Fetched
    ensures q !in s.comps
  {
    forall j | 0 <= j < |s.comps| ensures s.comps[j] != q {
      assert CompOk(s, j);
    }
  }

  lemma CompleteComp(s: State, h: nat, q: nat, k: nat)
    requires Inv(s) && h < NUM && s.buf[h] == Some(q) && q in s.reqs && s.reqs[q] == Req(s.reqs[q].ch, Fetched)
    requires s.reqs[q].ch.a == h && q in s.posts && q !in s.comps && |s.comps| < s.handled + NUM
    ensures CompOk(CompleteStep(s, h), k)
  {
    WrapIsHarmless(|s.comps|);
    assert CompOk(s, k);
    if s.handled <= k < |s.comps| {
      CloseCounts(k, |s.comps|);
    }
  }

  lemma CompleteKeepsInv(s: State, h: nat)
    requires Inv(s) && Enabled(s, Complete(h))
    ensures Inv(CompleteStep(s, h))
  {
    var t := CompleteStep(s, h);
    assert PendOk(s, h);
    var q := s.buf[h].value;
    assert ReqOk(s, q);
    CompletedBelow(s, q);
    NotYetCompleted(s, q);
    WrapIsHarmless(|s.comps|);
    forall i: nat ensures DescOk(t, i) && PostOk(t, i) && PendOk(t, i) {
      assert DescOk(s, i) && PostOk(s, i) && PendOk(s, i);
    }
    forall p: nat ensures ReqOk(t, p) {
      assert ReqOk(s, p);
    }
    forall k: nat ensures CompOk(t, k) {
      CompleteComp(s, h, q, k);
    }
  }

  /** The interrupt handler finds a chain whose status is 0 and whose buffer is the request completed next. */
  lemma HandleFinds(s: State)
    requires Inv(s) && Enabled(s, Handle)
    ensures s.handled < |s.comps| && UsedId(s) < NUM && s.status[UsedId(s)] == 0
    ensures s.buf[UsedId(s)] == Some(s.comps[s.handled])
    ensures s.comps[s.handled] in s.reqs && s.reqs[s.comps[s.handled]].stage == Completed(s.handled)
  {
    WrapIsHarmless(s.handled);
    CloseCounts(s.handled, |s.comps|);
    assert CompOk(s, s.handled) && ReqOk(s, s.comps[s.handled]);
  }

  lemma HandleKeepsInv(s: State)
    requires Inv(s) && Enabled(s, Handle)
    ensures Inv(HandleStep(s))
  {
    var t := HandleStep(s);
    HandleFinds(s);
    WrapIsHarmless(s.handled);
    assert ReqOk(s, s.comps[s.handled]);
    forall i: nat ensures DescOk(t, i) {
      assert DescOk(s, i);
    }
    forall p: nat ensures ReqOk(t, p) {
      assert ReqOk(s, p);
    }
    forall k: nat ensures PostOk(t, k) {
      assert PostOk(s, k);
    }
    forall k: nat ensures CompOk(t, k) {
      assert CompOk(s, k);
    }
    forall h: nat ensures PendOk(t, h) {
      assert PendOk(s, h);
    }
  }

  /** When a request finishes, its chain is linked as it was laid out and none of it is free: free_chain
      cannot panic. */
  lemma FinishFrees(s: State, q: nat)
    requires Inv(s) && Enabled(s, Finish(q))
    ensures Linked(s.desc, s.reqs[q].ch) && !s.free[s.reqs[q].ch.a] && !s.free[s.reqs[q].ch.b] &&
      !s.free[s.reqs[q].ch.c]
  {
    assert ReqOk(s, q);
    assert DescOk(s, s.reqs[q].ch.a) && DescOk(s, s.reqs[q].ch.b) && DescOk(s, s.reqs[q].ch.c);
  }

  lemma FinishKeepsInv(s: State, q: nat)
    requires Inv(s) && Enabled(s, Finish(q))
    ensures s.reqs[q].ch.Valid() && Inv(FinishStep(s, q))
  {
    assert ReqOk(s, q);
    var t := FinishStep(s, q);
    FinishFrees(s, q);
    forall i: nat ensures DescOk(t, i) {
      assert DescOk(s, i);
    }
    forall p: nat ensures ReqOk(t, p) {
      assert ReqOk(s, p);
    }
    forall k: nat ensures PostOk(t, k) {
      assert PostOk(s, k);
    }
    forall k: nat ensures CompOk(t, k) {
      assert CompOk(s, k);
    }
    forall h: nat ensures PendOk(t, h) {
      assert PendOk(s, h);
    }
  }

  // ----- Whole runs

  /** alloc3_desc gets a descriptor and, failing in the end, gives it back with a wakeup for all who wait. */
  predicate HasSome(free: seq<bool>) {
    exists i :: 0 <= i < |free| && free[i]
  }

  function Step(s: State, e: Event): State
    requires Shape(s) && match e
      case Submit(_, ch) => ch.Valid()
      case Complete(h) => h < NUM
      case Finish(q) => q in s.reqs && s.reqs[q].ch.Valid()
      case _ => true
  {
    match e
    case Submit(q, ch) => SubmitStep(s, q, ch)
    case Wait(q) => s.(waiting := if HasSome(s.free) then {q} else s.waiting + {q})
    case Publish(q) => PublishStep(s, q)
    case Fetch => FetchStep(s)
    case Complete(h) => CompleteStep(s, h)
    case Handle => HandleStep(s)
    case Finish(q) => FinishStep(s, q)
  }

  lemma WaitKeepsInv(s: State, q: nat)
    requires Inv(s) && Enabled(s, Wait(q))
    ensures Inv(Step(s, Wait(q)))
  {
    var t := Step(s, Wait(q));
    forall i: nat ensures DescOk(t, i) && ReqOk(t, i) && PostOk(t, i) && CompOk(t, i) && PendOk(t, i) {
      assert DescOk(s, i) && ReqOk(s, i) && PostOk(s, i) && CompOk(s, i) && PendOk(s, i);
    }
  }

  lemma StepKeepsInv(s: State, e: Event)
    requires Inv(s) && Enabled(s, e)
    ensures e.Finish? ==> s.reqs[e.q].ch.Valid()
    ensures Inv(Step(s, e))
  {
    match e
    case Submit(q, ch) => SubmitKeepsInv(s, q, ch);
    case Wait(q) => WaitKeepsInv(s, q);
    case Publish(q) => PublishKeepsInv(s, q);
    case Fetch => FetchKeepsInv(s);
    case Complete(h) => CompleteKeepsInv(s, h);
    case Handle => HandleKeepsInv(s);
    case Finish(q) => FinishKeepsInv(s, q);
  }

  ghost predicate Init(s: State) {
    && Shape(s) && (forall i :: 0 <= i < NUM ==> s.free[i] && s.owner[i] == None)
    && s.availIdx == s.usedIdx == s.seen == s.devSeen == 0 && s.pending == {} && s.waiting == {}
    && s.lock == None && s.reqs == map[] && s.posts == [] && s.comps == [] && s.fetched == s.handled == 0
  }

  ghost predicate IsRun(ss: seq<State>, es: seq<Event>) {
    && |ss| == |es| + 1 && Init(ss[0])
    && forall n :: 0 <= n < |es| ==> Happens(ss[n], es[n], ss[n + 1])
  }

  ghost predicate Happens(s: State, e: Event, t: State) {
    Enabled(s, e) && (e.Finish? ==> s.reqs[e.q].ch.Valid()) && t == Step(s, e)
  }

  lemma {:induction false} RunKeepsInv(ss: seq<State>, es: seq<Event>, n: nat)
    requires IsRun(ss, es) && n < |ss|
    ensures Inv(ss[n])
  {
    if n > 0 {
      RunKeepsInv(ss, es, n - 1);
      assert Happens(ss[n - 1], es[n - 1], ss[n]);
      StepKeepsInv(ss[n - 1], es[n - 1]);
    }
  }

  /** Every descriptor is free or in exactly one chain of three. */
  lemma DescriptorsArePartitioned(ss: seq<State>, es: seq<Event>, n: nat, i: nat, p: nat, q: nat)
    requires IsRun(ss, es) && n < |ss| && i < NUM && p in ss[n].reqs && q in ss[n].reqs
    ensures Shape(ss[n]) && ss[n].reqs[q].ch.Valid()
    ensures ss[n].reqs[q].ch.Has(i) ==> !ss[n].free[i]
    ensures ss[n].reqs[p].ch.Has(i) && ss[n].reqs[q].ch.Has(i) ==> p == q
    ensures !ss[n].free[i] ==> exists r :: r in ss[n].reqs && ss[n].reqs[r].ch.Has(i)
  {
    RunKeepsInv(ss, es, n);
    assert DescOk(ss[n], i) && ReqOk(ss[n], p) && ReqOk(ss[n], q);
  }

  /** No avail entry is written over before the device has read it: each unread one still names its request's chain. */
  lemma UnreadEntriesSurvive(ss: seq<State>, es: seq<Event>, n: nat, k: nat)
    requires IsRun(ss, es) && n < |ss| && ss[n].fetched <= k < |ss[n].posts|
    ensures Shape(ss[n]) && ss[n].posts[k] in ss[n].reqs && ss[n].avail[k % NUM] == ss[n].reqs[ss[n].posts[k]].ch.a
  {
    RunKeepsInv(ss, es, n);
    assert PostOk(ss[n], k);
  }

  /** virtio_disk_rw returns only after the device has completed that very request and the handler has seen it. */
  lemma ReturnsAfterOwnCompletion(ss: seq<State>, es: seq<Event>, n: nat)
    requires IsRun(ss, es) && n < |es| && es[n].Finish?
    ensures ss[n].handled <= |ss[n].comps| && es[n].q in ss[n].comps[..ss[n].handled]
  {
    RunKeepsInv(ss, es, n);
    assert Happens(ss[n], es[n], ss[n + 1]);
    assert ReqOk(ss[n], es[n].q);
  }

  /** No request is completed twice, and only requests that were posted are completed. */
  lemma CompletedOnce(ss: seq<State>, es: seq<Event>, n: nat, j: nat, k: nat)
    requires IsRun(ss, es) && n < |ss| && j < |ss[n].comps| && k < |ss[n].comps|
    ensures ss[n].comps[j] == ss[n].comps[k] ==> j == k
    ensures ss[n].comps[k] in ss[n].posts
  {
    RunKeepsInv(ss, es, n);
    assert CompOk(ss[n], j) && CompOk(ss[n], k);
  }

  /** The handler never panics on a status and always wakes the request the device completed next. */
  lemma HandlerWakesTheRightOne(ss: seq<State>, es: seq<Event>, n: nat)
    requires IsRun(ss, es) && n < |es| && es[n].Handle?
    ensures Shape(ss[n]) && ss[n].handled < |ss[n].comps| && UsedId(ss[n]) < NUM
    ensures ss[n].status[UsedId(ss[n])] == 0 && ss[n].buf[UsedId(ss[n])] == Some(ss[n].comps[ss[n].handled])
  {
    RunKeepsInv(ss, es, n);
    assert Happens(ss[n], es[n], ss[n + 1]);
    HandleFinds(ss[n]);
  }

  /** Whoever waits for descriptors while the lock is free waits for a reason. */
  lemma WaitersHaveReason(ss: seq<State>, es: seq<Event>, n: nat)
    requires IsRun(ss, es) && n < |ss| && ss[n].waiting != {}
    ensures !HasThree(ss[n].free)
  {
    RunKeepsInv(ss, es, n);
  }
}
