/**
 Page tables and pages over whole runs: the steps of kernel/vm.c and
 kernel/kalloc.c, what every run of them from kinit on keeps, and which of them
 can leave a page both mapped and free.
 */
module PageRuns {
  import opened Common
  import opened PageTable

  /** What the kernel does to page tables and pages, one step at a time. */
  datatype Act =
    | Hold                                  // kalloc
    | Drop(p: nat)                          // kfree of a page in the kernel's hands
    | AddRoot(p: nat)
    | AddTable(x: Loc, i: nat, p: nat)      // in walk
    | Map(sl: Slot, e: Pte)                 // in mappages
    | MapOwn(sl: Slot, e: Pte)              // in mappages, and the page goes with its mapping
    | Unmap(sl: Slot)                       // in uvmunmap
    | UnmapFree(sl: Slot)
    | Clear(sl: Slot)                       // uvmclear
    | Prune(x: Loc, i: nat)                 // in freewalk: the table below x at index i
    | PruneRoot(root: nat)

  predicate HasEntry(s: State, sl: Slot) {
    Loc(sl.root, 0, sl.v / ENTRIES) in s.nodes
  }

  predicate IsHeld(s: State, p: nat) {
    p in s.owner && s.owner[p] == Held
  }

  /** The page mapped at sl belongs to that mapping. */
  predicate Owns(s: State, sl: Slot) {
    sl in s.flat && s.flat[sl].ppn in s.owner && s.owner[s.flat[sl].ppn] == LeafOf(sl)
  }

  predicate EmptyTable(s: State, x: Loc) {
    x in s.nodes && s.nodes[x] in s.tables &&
      forall i :: 0 <= i < ENTRIES && i < |s.tables[s.nodes[x]]| ==> !s.tables[s.nodes[x]][i].flags.v
  }

  /** A managed page is mapped for the user only together with its ownership. */
  ghost predicate Can(s: State, a: Act) {
    match a
    case Hold => s.freelist != []
    case Drop(p) => IsHeld(s, p)
    case AddRoot(p) => IsHeld(s, p)
    case AddTable(x, i, p) => x in s.nodes && x.level > 0 && i < ENTRIES && IsHeld(s, p) && x.Child(i) !in s.nodes
    case Map(sl, e) =>
      HasEntry(s, sl) && sl !in s.flat && e.flags.Leaf() && (e.flags.u ==> e.ppn !in s.owner)
    case MapOwn(sl, e) => HasEntry(s, sl) && sl !in s.flat && e.flags.Leaf() && IsHeld(s, e.ppn)
    case Unmap(sl) => sl in s.flat
    case UnmapFree(sl) => Owns(s, sl)
    case Clear(sl) => HasEntry(s, sl)
    case Prune(x, i) => x in s.nodes && x.level > 0 && i < ENTRIES && EmptyTable(s, x.Child(i))
    case PruneRoot(root) => EmptyTable(s, Loc(root, 2, 0))
  }

  /** The page is no longer the mapping's: it is free, or in the kernel's hands. */
  function AfterRelease(s: State, sl: Slot, free: bool): State
    requires sl in s.flat
  {
    if free then AfterKfree(s, s.flat[sl].ppn)
    else if Owns(s, sl) then AfterGive(s, s.flat[sl].ppn, Held) else s
  }

  lemma ReleaseKeepsInv(s: State, sl: Slot, free: bool)
    requires Inv(s) && sl in s.flat && (free ==> Owns(s, sl))
    ensures var t := AfterRelease(s, sl, free);
      && Inv(t) && HasEntry(t, sl) && t.flat == s.flat
      && (t.flat[sl].ppn in t.owner ==> t.owner[t.flat[sl].ppn] != LeafOf(sl))
  {
    assert SlotOk(s, sl);
    if free {
      KfreeKeepsInv(s, s.flat[sl].ppn);
    } else if Owns(s, sl) {
      GiveKeepsInv(s, s.flat[sl].ppn, Held);
    }
  }

  lemma HasTable(s: State, sl: Slot)
    requires Inv(s) && HasEntry(s, sl)
    ensures var x := Loc(sl.root, 0, sl.v / ENTRIES); s.nodes[x] in s.tables && |s.tables[s.nodes[x]]| == ENTRIES
  {
    assert NodeOk(s, Loc(sl.root, 0, sl.v / ENTRIES));
  }

  function Do(s: State, a: Act): State
    requires Inv(s) && Can(s, a)
  {
    match a
    case Hold => AfterKalloc(s)
    case Drop(p) => AfterKfree(s, p)
    case AddRoot(p) => AfterAddRoot(s, p)
    case AddTable(x, i, p) =>
      AddNodeKeepsInv(s, x, i, p);
      AfterAddNode(s, x, i, p)
    case Map(sl, e) =>
      HasTable(s, sl);
      AfterSetPte(s, sl, e)
    case MapOwn(sl, e) =>
      HasTable(s, sl);
      AfterGive(AfterSetPte(s, sl, e), e.ppn, LeafOf(sl))
    case Unmap(sl) =>
      ReleaseKeepsInv(s, sl, false);
      HasTable(AfterRelease(s, sl, false), sl);
      AfterSetPte(AfterRelease(s, sl, false), sl, Pte(0, NONE))
    case UnmapFree(sl) =>
      ReleaseKeepsInv(s, sl, true);
      HasTable(AfterRelease(s, sl, true), sl);
      AfterSetPte(AfterRelease(s, sl, true), sl, Pte(0, NONE))
    case Clear(sl) =>
      HasTable(s, sl);
      AfterClear(s, sl)
    case Prune(x, i) =>
      PruneIsReady(s, x, i);
      AfterClearAbove(AfterDropNode(s, x.Child(i)), x, i)
    case PruneRoot(root) => AfterDropNode(s, Loc(root, 2, 0))
  }

  lemma PruneIsReady(s: State, x: Loc, i: nat)
    requires Inv(s) && Can(s, Prune(x, i))
    ensures var t := AfterDropNode(s, x.Child(i));
      && InvBut(t, x.Child(i)) && x in t.nodes && x.Child(i) !in t.nodes
      && t.nodes[x] in t.tables && |t.tables[t.nodes[x]]| == ENTRIES
  {
    DropNodeKeepsRest(s, x.Child(i));
    assert NodeOk(AfterDropNode(s, x.Child(i)), x);
  }

  lemma ActKeepsInv(s: State, a: Act)
    requires Inv(s) && Can(s, a)
    ensures Inv(Do(s, a)) && Do(s, a).owner.Keys == s.owner.Keys
  {
    match a
    case Hold => KallocKeepsInv(s);
    case Drop(p) => KfreeKeepsInv(s, p);
    case AddRoot(p) => AddRootKeepsInv(s, p);
    case AddTable(x, i, p) => AddNodeKeepsInv(s, x, i, p);
    case Map(sl, e) => SetPteKeepsInv(s, sl, e);
    case MapOwn(sl, e) =>
      SetPteKeepsInv(s, sl, e);
      GiveKeepsInv(AfterSetPte(s, sl, e), e.ppn, LeafOf(sl));
    case Unmap(sl) =>
      ReleaseKeepsInv(s, sl, false);
      SetPteKeepsInv(AfterRelease(s, sl, false), sl, Pte(0, NONE));
    case UnmapFree(sl) =>
      ReleaseKeepsInv(s, sl, true);
      SetPteKeepsInv(AfterRelease(s, sl, true), sl, Pte(0, NONE));
    case Clear(sl) => ClearKeepsInv(s, sl);
    case Prune(x, i) =>
      PruneIsReady(s, x, i);
      ClearAbove(AfterDropNode(s, x.Child(i)), x, i);
      assert NodeOk(s, x.Child(i));
    case PruneRoot(root) =>
      DropNodeKeepsRest(s, Loc(root, 2, 0));
      assert NodeOk(s, Loc(root, 2, 0));
      RootGone(AfterDropNode(s, Loc(root, 2, 0)), root);
  }

  // ----- Isolation

  /** A managed page that user code can reach through a mapping belongs to that mapping. */
  ghost predicate UserOk(s: State, sl: Slot) {
    sl in s.flat && s.flat[sl].flags.u && s.flat[sl].ppn in s.owner ==> s.owner[s.flat[sl].ppn] == LeafOf(sl)
  }

  ghost predicate Isolated(s: State) {
    forall sl: Slot {:trigger UserOk(s, sl)} :: UserOk(s, sl)
  }

  /** No page is in reach of user code at two places, or while it is free, a table, or in the kernel's hands. */
  lemma UserPagesArePrivate(s: State, a: Slot, b: Slot)
    requires Inv(s) && Isolated(s) && a in s.flat && s.flat[a].flags.u && s.flat[a].ppn in s.owner
    ensures b in s.flat && s.flat[b].flags.u && s.flat[b].ppn == s.flat[a].ppn ==> a == b
    ensures s.flat[a].ppn !in s.freelist && forall x :: x in s.nodes ==> s.nodes[x] != s.flat[a].ppn
  {
    var p := s.flat[a].ppn;
    assert UserOk(s, a) && UserOk(s, b) && PageOk(s, p);
    CountIsMember(s.freelist, p);
    forall x | x in s.nodes ensures s.nodes[x] != p {
      assert NodeOk(s, x);
    }
  }

  lemma ActKeepsIsolated(s: State, a: Act)
    requires Inv(s) && Isolated(s) && Can(s, a)
    ensures Isolated(Do(s, a))
  {
    var t := Do(s, a);
    forall sl: Slot ensures UserOk(t, sl) {
      assert UserOk(s, sl);
      if a.Hold? {
        KallocKeepsInv(s);
      } else if a.Clear? {
        ClearKeepsInv(s, a.sl);
      } else if a.Prune? {
        assert NodeOk(s, a.x.Child(a.i));
      } else if a.PruneRoot? {
        assert NodeOk(s, Loc(a.root, 2, 0));
      }
    }
  }

  // ----- Pages both mapped and free

  /** The page mapped at sl is not on the free list. */
  ghost predicate SlotInUse(s: State, sl: Slot) {
    sl in s.flat && s.flat[sl].ppn in s.owner ==> s.owner[s.flat[sl].ppn] != Free
  }

  ghost predicate MappedInUse(s: State) {
    forall sl: Slot {:trigger SlotInUse(s, sl)} :: SlotInUse(s, sl)
  }

  ghost predicate Unmapped(s: State, p: nat) {
    forall sl :: sl in s.flat ==> s.flat[sl].ppn != p
  }

  /** The step frees no page that stays mapped, and maps no free page. */
  ghost predicate LeavesNoneFree(s: State, a: Act) {
    match a
    case Drop(p) => Unmapped(s, p)
    case Map(_, e) => e.ppn in s.owner ==> s.owner[e.ppn] != Free
    case UnmapFree(sl) => sl in s.flat ==> Unmapped(s.(flat := s.flat - {sl}), s.flat[sl].ppn)
    case Prune(x, i) => x.level > 0 && x.Child(i) in s.nodes ==> Unmapped(s, s.nodes[x.Child(i)])
    case PruneRoot(root) => Unmapped(s, root)
    case _ => true
  }

  lemma ActKeepsInUse(s: State, a: Act)
    requires Inv(s) && MappedInUse(s) && Can(s, a) && LeavesNoneFree(s, a)
    ensures MappedInUse(Do(s, a))
  {
    var t := Do(s, a);
    forall sl: Slot ensures SlotInUse(t, sl) {
      assert SlotInUse(s, sl);
      if a.Clear? {
        ClearKeepsInv(s, a.sl);
        assert SlotInUse(s, a.sl);
      } else if a.PruneRoot? {
        assert NodeOk(s, Loc(a.root, 2, 0));
      }
    }
  }

  lemma ActLeavesSomeFree(s: State, a: Act)
    requires Inv(s) && Can(s, a) && !LeavesNoneFree(s, a)
    ensures !MappedInUse(Do(s, a))
  {
    var t := Do(s, a);
    match a
    case Map(sl, e) => assert !SlotInUse(t, sl);
    case UnmapFree(o) =>
      var sl :| sl in s.flat && sl != o && s.flat[sl].ppn == s.flat[o].ppn;
      assert !SlotInUse(t, sl);
    case Drop(p) =>
      var sl :| sl in s.flat && s.flat[sl].ppn == p;
      assert !SlotInUse(t, sl);
    case Prune(x, i) =>
      assert NodeOk(s, x.Child(i));
      var sl :| sl in s.flat && s.flat[sl].ppn == s.nodes[x.Child(i)];
      assert !SlotInUse(t, sl);
    case PruneRoot(root) =>
      assert NodeOk(s, Loc(root, 2, 0));
      var sl :| sl in s.flat && s.flat[sl].ppn == root;
      assert !SlotInUse(t, sl);
    case _ =>
  }

  /** When no mapped page is free, a step keeps it so exactly when it frees no page that stays mapped and maps none
      that is free. */
  lemma InUseKeptExactlyWhen(s: State, a: Act)
    requires Inv(s) && MappedInUse(s) && Can(s, a)
    ensures MappedInUse(Do(s, a)) <==> LeavesNoneFree(s, a)
  {
    if LeavesNoneFree(s, a) {
      ActKeepsInUse(s, a);
    } else {
      ActLeavesSomeFree(s, a);
    }
  }

  // ----- Whole runs

  /** t is reached from s by the steps acts. */
  ghost predicate Reaches(s: State, acts: seq<Act>, t: State)
    decreases |acts|
  {
    if acts == [] then t == s else Inv(s) && Can(s, acts[0]) && Reaches(Do(s, acts[0]), acts[1..], t)
  }

  ghost predicate Leads(s: State, t: State) {
    exists acts :: Reaches(s, acts, t)
  }

  lemma LeadsNowhere(s: State)
    ensures Leads(s, s)
  {
    assert Reaches(s, [], s);
  }

  lemma LeadsOne(s: State, a: Act)
    requires Inv(s) && Can(s, a)
    ensures Leads(s, Do(s, a))
  {
    assert Reaches(Do(s, a), [a][1..], Do(s, a));
    assert Reaches(s, [a], Do(s, a));
  }

  lemma {:induction false} ReachesOn(s: State, acts: seq<Act>, t: State, more: seq<Act>, u: State)
    requires Reaches(s, acts, t) && Reaches(t, more, u)
    ensures Reaches(s, acts + more, u)
    decreases |acts|
  {
    if acts == [] {
      assert acts + more == more;
    } else {
      ReachesOn(Do(s, acts[0]), acts[1..], t, more, u);
      assert (acts + more)[1..] == acts[1..] + more;
    }
  }

  lemma LeadsOn(s: State, t: State, u: State)
    requires Leads(s, t) && Leads(t, u)
    ensures Leads(s, u)
  {
    var acts :| Reaches(s, acts, t);
    var more :| Reaches(t, more, u);
    ReachesOn(s, acts, t, more, u);
  }

  lemma {:induction false} ReachesSafe(s: State, acts: seq<Act>, t: State)
    requires Inv(s) && Isolated(s) && Reaches(s, acts, t)
    ensures Inv(t) && Isolated(t) && t.owner.Keys == s.owner.Keys
    decreases |acts|
  {
    if acts != [] {
      ActKeepsInv(s, acts[0]);
      ActKeepsIsolated(s, acts[0]);
      ReachesSafe(Do(s, acts[0]), acts[1..], t);
    }
  }

  /** After kinit: every managed page is free, and nothing is mapped. */
  ghost predicate Booted(s: State) {
    s.nodes == map[] && s.flat == map[] && Inv(s) && forall p :: p in s.owner ==> s.owner[p] == Free
  }

  /** In every run from kinit on tables, flat map and owners agree, no page is lost or gained, and user code reaches
      only pages that belong to its mapping. */
  lemma RunsAreIsolated(s: State, t: State)
    requires Booted(s) && Leads(s, t)
    ensures Inv(t) && Isolated(t) && t.owner.Keys == s.owner.Keys
  {
    forall sl: Slot ensures UserOk(s, sl) {
    }
    var acts :| Reaches(s, acts, t);
    ReachesSafe(s, acts, t);
  }

  // ----- A page freed while it is mapped

  /** kalloc of a page for a table below x. */
  lemma GrowTable(s: State, x: Loc, i: nat, p: nat) returns (t: State)
    requires Inv(s) && s.freelist != [] && x in s.nodes && x.level > 0 && i < ENTRIES && x.Child(i) !in s.nodes
    requires IsHeld(s, p)
    ensures Leads(s, t) && Inv(t) && t.flat == s.flat && t.freelist == s.freelist[1..] && IsHeld(t, p)
    ensures t.nodes == s.nodes[x.Child(i) := s.freelist[0]]
  {
    var f := s.freelist[0];
    KallocKeepsInv(s);
    ActKeepsInv(s, Hold);
    LeadsOne(s, Hold);
    var u := Do(s, Hold);
    ActKeepsInv(u, AddTable(x, i, f));
    LeadsOne(u, AddTable(x, i, f));
    t := Do(u, AddTable(x, i, f));
    LeadsOn(s, u, t);
  }

  /** The trapframe page p and an empty address space. */
  lemma NewSpace(s: State) returns (t: State, p: nat, root: nat)
    requires Booted(s) && |s.freelist| >= 2
    ensures Leads(s, t) && Inv(t) && t.flat == map[] && t.freelist == s.freelist[2..] && IsHeld(t, p)
    ensures t.nodes == map[Loc(root, 2, 0) := root]
  {
    KallocKeepsInv(s);
    ActKeepsInv(s, Hold);
    LeadsOne(s, Hold);
    var u := Do(s, Hold);
    p, root := s.freelist[0], u.freelist[0];
    KallocKeepsInv(u);
    ActKeepsInv(u, Hold);
    LeadsOne(u, Hold);
    LeadsOn(s, u, Do(u, Hold));
    u := Do(u, Hold);
    ActKeepsInv(u, AddRoot(root));
    LeadsOne(u, AddRoot(root));
    t := Do(u, AddRoot(root));
    LeadsOn(s, u, t);
  }

  /**
   What freeproc does with the trapframe: page p is mapped, without PTE_U, at v,
   and given back by kfree before the mapping goes.
   */
  lemma FreedWhileMapped(s: State, v: nat) returns (t: State, sl: Slot)
    requires Booted(s) && |s.freelist| >= 4 && v < MAXVPN
    ensures Leads(s, t) && sl in t.flat && sl.v == v && t.flat[sl].ppn in t.freelist
  {
    var u, p, root := NewSpace(s);
    TopNode(root, v);
    StepDown(root, v, 2);
    StepDown(root, v, 1);
    var w := GrowTable(u, NodeFor(root, v, 2), PX(2, v), p);
    LeadsOn(s, u, w);
    u := GrowTable(w, NodeFor(root, v, 1), PX(1, v), p);
    LeadsOn(s, w, u);
    sl := Slot(root, v);
    assert Up(v, 1) == v / ENTRIES;
    var e := Pte(p, Flags(true, true, true, false, false, 0));
    ActKeepsInv(u, Map(sl, e));
    LeadsOne(u, Map(sl, e));
    w := Do(u, Map(sl, e));
    LeadsOn(s, u, w);
    LeadsOne(w, Drop(p));
    t := Do(w, Drop(p));
    LeadsOn(s, w, t);
  }
}
