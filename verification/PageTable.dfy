/**
 The Sv39 page-table tree of kernel/vm.c over the page allocator of
 kernel/kalloc.c, and the flat map from virtual page to entry that it stands
 for.  Page numbers are addresses divided by PGSIZE.

 nodes, flat and owner are the specification's own view: which page holds the
 table for which part of which address space, what each address space maps,
 and who owns each managed page.
 */
module PageTable {
  import opened Common

  const ENTRIES: nat := 512
  const MAXVPN: nat := 0x400_0000

  /** The low ten bits of an entry; rest stands for the bits the kernel never looks at. */
  datatype Flags = Flags(v: bool, r: bool, w: bool, x: bool, u: bool, rest: nat)
  {
    predicate Leaf() {
      v && (r || w || x)
    }
  }

  const NONE := Flags(false, false, false, false, false, 0)
  const LINK := Flags(true, false, false, false, false, 0)

  datatype Pte = Pte(ppn: nat, flags: Flags)

  /** The table at a level of the tree of a root: it covers the pages v with v / 512^(level+1) == prefix. */
  datatype Loc = Loc(root: nat, level: nat, prefix: nat)
  {
    function Child(i: nat): Loc
      requires level > 0
    {
      Loc(root, level - 1, prefix * ENTRIES + i)
    }

    function Parent(): Loc {
      Loc(root, level + 1, prefix / ENTRIES)
    }
  }

  datatype Slot = Slot(root: nat, v: nat)

  datatype Owner = Free | Held | TableOf(x: Loc) | LeafOf(sl: Slot)

  type Table = seq<Pte>

  datatype State = State(
    tables: map<nat, Table>,
    freelist: seq<nat>,
    nodes: map<Loc, nat>,
    flat: map<Slot, Pte>,
    owner: map<nat, Owner>)

  // ----- The invariant, one element at a time

  ghost predicate NodeOk(s: State, x: Loc) {
    x in s.nodes ==>
      && x.level <= 2
      && s.nodes[x] in s.tables && |s.tables[s.nodes[x]]| == ENTRIES
      && s.nodes[x] in s.owner && s.owner[s.nodes[x]] == TableOf(x)
      && (x.level == 2 ==> x == Loc(s.nodes[x], 2, 0))
      && (x.level < 2 ==> x.Parent() in s.nodes)
  }

  /** An entry of an inner table is valid exactly when the child table exists, and points to it;
      an entry of a lowest table is what the flat map says. */
  ghost predicate EntryOk(s: State, x: Loc, i: nat) {
    x in s.nodes && s.nodes[x] in s.tables && i < |s.tables[s.nodes[x]]| ==>
      var e := s.tables[s.nodes[x]][i];
      if x.level == 0 then
        var sl := Slot(x.root, x.prefix * ENTRIES + i);
        (e.flags.v <==> sl in s.flat) && (e.flags.v ==> e == s.flat[sl])
      else
        (e.flags.v <==> x.Child(i) in s.nodes) && (e.flags.v ==> e == Pte(s.nodes[x.Child(i)], LINK))
  }

  ghost predicate SlotOk(s: State, sl: Slot) {
    sl in s.flat ==> Loc(sl.root, 0, sl.v / ENTRIES) in s.nodes && s.flat[sl].flags.Leaf()
  }

  /** A managed page is where its owner says: once on the free list, one table, one leaf, or in a caller's hands. */
  ghost predicate PageOk(s: State, p: nat) {
    && Count(s.freelist, p) == (if p in s.owner && s.owner[p] == Free then 1 else 0)
    && (p in s.owner && s.owner[p].TableOf? ==> s.owner[p].x in s.nodes && s.nodes[s.owner[p].x] == p)
    && (p in s.owner && s.owner[p].LeafOf? ==> s.owner[p].sl in s.flat && s.flat[s.owner[p].sl].ppn == p)
  }

  ghost predicate NodesOk(s: State) {
    forall x: Loc {:trigger NodeOk(s, x)} :: NodeOk(s, x)
  }

  /** All entries are right but those that point to the table at cut. */
  ghost predicate EntriesOkBut(s: State, cut: Loc) {
    forall x: Loc, i: nat {:trigger EntryOk(s, x, i)} :: x.level == 0 || x.Child(i) != cut ==> EntryOk(s, x, i)
  }

  ghost predicate EntriesOk(s: State) {
    forall x: Loc, i: nat {:trigger EntryOk(s, x, i)} :: EntryOk(s, x, i)
  }

  ghost predicate SlotsOk(s: State) {
    forall sl: Slot {:trigger SlotOk(s, sl)} :: SlotOk(s, sl)
  }

  ghost predicate PagesOk(s: State) {
    forall p: nat {:trigger PageOk(s, p)} :: PageOk(s, p)
  }

  ghost predicate Inv(s: State) {
    NodesOk(s) && EntriesOk(s) && SlotsOk(s) && PagesOk(s)
  }

  // ----- The flat map is what a walk down the tables finds

  /** va >> (9 * level) on page numbers. */
  function Up(v: nat, level: nat): nat {
    if level == 0 then v else Up(v, level - 1) / ENTRIES
  }

  function PX(level: nat, v: nat): nat {
    Up(v, level) % ENTRIES
  }

  function NodeFor(root: nat, v: nat, level: nat): Loc {
    Loc(root, level, Up(v, level + 1))
  }

  lemma StepDown(root: nat, v: nat, level: nat)
    requires level > 0
    ensures NodeFor(root, v, level).Child(PX(level, v)) == NodeFor(root, v, level - 1)
  {
  }

  lemma TopNode(root: nat, v: nat)
    requires v < MAXVPN
    ensures NodeFor(root, v, 2) == Loc(root, 2, 0)
  {
    assert Up(v, 3) == Up(v, 2) / ENTRIES && Up(v, 2) == Up(v, 1) / ENTRIES && Up(v, 1) == v / ENTRIES;
  }

  /** Address translation as the hardware does it: follow the tables from level down to the entry. */
  function Translate(tables: map<nat, Table>, p: nat, v: nat, level: nat): Pte
    decreases level
  {
    if p !in tables || |tables[p]| != ENTRIES then Pte(0, NONE)
    else
      var e := tables[p][PX(level, v)];
      if level == 0 || !e.flags.v then e else Translate(tables, e.ppn, v, level - 1)
  }

  lemma {:induction false} TranslateFrom(s: State, root: nat, v: nat, level: nat)
    requires Inv(s) && level <= 2 && NodeFor(root, v, level) in s.nodes
    ensures var e := Translate(s.tables, s.nodes[NodeFor(root, v, level)], v, level);
      (e.flags.v <==> Slot(root, v) in s.flat) && (e.flags.v ==> e == s.flat[Slot(root, v)])
  {
    var x := NodeFor(root, v, level);
    assert NodeOk(s, x);
    assert EntryOk(s, x, PX(level, v));
    if level > 0 {
      StepDown(root, v, level);
      if NodeFor(root, v, level - 1) in s.nodes {
        TranslateFrom(s, root, v, level - 1);
      } else {
        MissingAbove(s, root, v, level - 1);
      }
    }
  }

  /** With a table missing on the way down there is no mapping. */
  lemma {:induction false} MissingAbove(s: State, root: nat, v: nat, level: nat)
    requires Inv(s) && level <= 2 && NodeFor(root, v, level) !in s.nodes
    ensures Slot(root, v) !in s.flat
    ensures NodeFor(root, v, 0) !in s.nodes
  {
    if level > 0 {
      assert NodeOk(s, NodeFor(root, v, level - 1));
      MissingAbove(s, root, v, level - 1);
    } else {
      assert SlotOk(s, Slot(root, v)) && Up(v, 1) == v / ENTRIES;
    }
  }

  /** The three-level tree implements the flat map. */
  lemma TreeIsFlat(s: State, root: nat, v: nat)
    requires Inv(s) && v < MAXVPN && Loc(root, 2, 0) in s.nodes
    ensures var e := Translate(s.tables, root, v, 2);
      (e.flags.v <==> Slot(root, v) in s.flat) && (e.flags.v ==> e == s.flat[Slot(root, v)])
  {
    TopNode(root, v);
    assert NodeOk(s, Loc(root, 2, 0));
    TranslateFrom(s, root, v, 2);
  }

  /** No page holds two tables, and none is both a table and free. */
  lemma TablesUnshared(s: State, x: Loc, y: Loc)
    requires Inv(s) && x in s.nodes && y in s.nodes && s.nodes[x] == s.nodes[y]
    ensures x == y
    ensures s.nodes[x] !in s.freelist
  {
    assert NodeOk(s, x) && NodeOk(s, y) && PageOk(s, s.nodes[x]);
    CountIsMember(s.freelist, s.nodes[x]);
  }

  // ----- Steps

  function AfterKalloc(s: State): State
    requires s.freelist != []
  {
    s.(freelist := s.freelist[1..], owner := s.owner[s.freelist[0] := Held])
  }

  function AfterKfree(s: State, p: nat): State {
    s.(freelist := [p] + s.freelist, owner := s.owner[p := Free])
  }

  /** A zeroed table p hung below x at index i. */
  function AfterAddNode(s: State, x: Loc, i: nat, p: nat): State
    requires x.level > 0 && x in s.nodes && s.nodes[x] in s.tables && i < |s.tables[s.nodes[x]]|
  {
    s.(tables := s.tables[s.nodes[x] := s.tables[s.nodes[x]][i := Pte(p, LINK)]][p := Zeroed()],
       nodes := s.nodes[x.Child(i) := p],
       owner := s.owner[p := TableOf(x.Child(i))])
  }

  function Zeroed(): (t: Table)
    ensures |t| == ENTRIES && forall i :: 0 <= i < ENTRIES ==> t[i] == Pte(0, NONE)
  {
    seq(ENTRIES, _ => Pte(0, NONE))
  }

  /** The entry for a page written with e, valid or not. */
  function AfterSetPte(s: State, sl: Slot, e: Pte): State
    requires var x := Loc(sl.root, 0, sl.v / ENTRIES);
      x in s.nodes && s.nodes[x] in s.tables && |s.tables[s.nodes[x]]| == ENTRIES
  {
    var p := s.nodes[Loc(sl.root, 0, sl.v / ENTRIES)];
    s.(tables := s.tables[p := s.tables[p][sl.v % ENTRIES := e]],
       flat := if e.flags.v then s.flat[sl := e] else s.flat - {sl})
  }

  /** A page's ownership changes hands without the page moving. */
  function AfterGive(s: State, p: nat, o: Owner): State {
    s.(owner := s.owner[p := o])
  }

  /** A table without valid entries is freed; its parent's entry still points to it. */
  function AfterDropNode(s: State, x: Loc): State
    requires x in s.nodes
  {
    var p := s.nodes[x];
    s.(tables := s.tables - {p}, nodes := s.nodes - {x}, freelist := [p] + s.freelist, owner := s.owner[p := Free])
  }

  /** A new root table. */
  function AfterAddRoot(s: State, p: nat): State {
    s.(tables := s.tables[p := Zeroed()], nodes := s.nodes[Loc(p, 2, 0) := p],
      owner := s.owner[p := TableOf(Loc(p, 2, 0))])
  }

  lemma KallocKeepsInv(s: State)
    requires Inv(s) && s.freelist != []
    ensures Inv(AfterKalloc(s))
    ensures s.freelist[0] in s.owner && s.owner[s.freelist[0]] == Free
  {
    var t, f := AfterKalloc(s), s.freelist[0];
    assert PageOk(s, f);
    forall p: nat ensures PageOk(t, p) {
      assert PageOk(s, p);
    }
    forall x: Loc ensures NodeOk(t, x) {
      assert NodeOk(s, x);
    }
    forall x: Loc, i: nat ensures EntryOk(t, x, i) {
      assert EntryOk(s, x, i);
    }
    forall sl: Slot ensures SlotOk(t, sl) {
      assert SlotOk(s, sl);
    }
  }

  lemma KfreeKeepsInv(s: State, p: nat)
    requires Inv(s) && p in s.owner && (s.owner[p] == Held || s.owner[p].LeafOf?)
    ensures Inv(AfterKfree(s, p))
  {
    var t := AfterKfree(s, p);
    forall q: nat ensures PageOk(t, q) {
      assert PageOk(s, q);
    }
    forall x: Loc ensures NodeOk(t, x) {
      assert NodeOk(s, x);
    }
    forall x: Loc, i: nat ensures EntryOk(t, x, i) {
      assert EntryOk(s, x, i);
    }
    forall sl: Slot ensures SlotOk(t, sl) {
      assert SlotOk(s, sl);
    }
  }

  lemma GiveKeepsInv(s: State, p: nat, o: Owner)
    requires Inv(s) && p in s.owner && (s.owner[p] == Held || s.owner[p].LeafOf?)
    requires o == Held || (o.LeafOf? && o.sl in s.flat && s.flat[o.sl].ppn == p)
    ensures Inv(AfterGive(s, p, o))
  {
    var t := AfterGive(s, p, o);
    forall q: nat ensures PageOk(t, q) {
      assert PageOk(s, q);
    }
    forall x: Loc ensures NodeOk(t, x) {
      assert NodeOk(s, x);
    }
    forall x: Loc, i: nat ensures EntryOk(t, x, i) {
      assert EntryOk(s, x, i);
    }
    forall sl: Slot ensures SlotOk(t, sl) {
      assert SlotOk(s, sl);
    }
  }

  lemma ChildParent(x: Loc, i: nat)
    requires x.level > 0 && i < ENTRIES
    ensures x.Child(i).Parent() == x
  {
  }

  lemma AddNodeKeepsInv(s: State, x: Loc, i: nat, p: nat)
    requires Inv(s) && x in s.nodes && x.level > 0 && i < ENTRIES && p in s.owner && s.owner[p] == Held
    requires x.Child(i) !in s.nodes
    ensures s.nodes[x] in s.tables && |s.tables[s.nodes[x]]| == ENTRIES
    ensures Inv(AfterAddNode(s, x, i, p))
  {
    assert NodeOk(s, x);
    var t, c := AfterAddNode(s, x, i, p), x.Child(i);
    ChildParent(x, i);
    forall q: nat ensures PageOk(t, q) {
      assert PageOk(s, q);
    }
    forall y: Loc ensures NodeOk(t, y) {
      assert NodeOk(s, y);
    }
    forall y: Loc, j: nat ensures EntryOk(t, y, j) {
      AddNodeEntry(s, x, i, p, y, j);
    }
    forall sl: Slot ensures SlotOk(t, sl) {
      assert SlotOk(s, sl);
    }
  }

  lemma AddNodeEntry(s: State, x: Loc, i: nat, p: nat, y: Loc, j: nat)
    requires Inv(s) && x in s.nodes && x.level > 0 && i < ENTRIES && p in s.owner && s.owner[p] == Held
    requires x.Child(i) !in s.nodes && s.nodes[x] in s.tables && |s.tables[s.nodes[x]]| == ENTRIES
    ensures EntryOk(AfterAddNode(s, x, i, p), y, j)
  {
    var c := x.Child(i);
    assert NodeOk(s, x) && NodeOk(s, y) && EntryOk(s, y, j);
    if y == c {
      if c.level == 0 {
        assert SlotOk(s, Slot(c.root, c.prefix * ENTRIES + j));
      } else {
        assert NodeOk(s, c.Child(j));
      }
    }
  }

  lemma SetPteKeepsInv(s: State, sl: Slot, e: Pte)
    requires Inv(s) && Loc(sl.root, 0, sl.v / ENTRIES) in s.nodes
    requires if e.flags.v then e.flags.Leaf() && sl !in s.flat
      else sl in s.flat ==> s.flat[sl].ppn in s.owner ==> s.owner[s.flat[sl].ppn] != LeafOf(sl)
    ensures var x := Loc(sl.root, 0, sl.v / ENTRIES); s.nodes[x] in s.tables && |s.tables[s.nodes[x]]| == ENTRIES
    ensures Inv(AfterSetPte(s, sl, e))
  {
    var x := Loc(sl.root, 0, sl.v / ENTRIES);
    assert NodeOk(s, x);
    var t := AfterSetPte(s, sl, e);
    forall q: nat ensures PageOk(t, q) {
      assert PageOk(s, q);
    }
    forall y: Loc ensures NodeOk(t, y) {
      assert NodeOk(s, y);
    }
    forall y: Loc, j: nat ensures EntryOk(t, y, j) {
      assert NodeOk(s, y) && EntryOk(s, y, j);
    }
    forall o: Slot ensures SlotOk(t, o) {
      assert SlotOk(s, o);
    }
  }

  /** Dropping an empty table leaves everything right but the one entry above it. */
  lemma DropNodeKeepsRest(s: State, x: Loc)
    requires Inv(s) && x in s.nodes
    requires forall i :: 0 <= i < ENTRIES && s.nodes[x] in s.tables && i < |s.tables[s.nodes[x]]| ==>
      !s.tables[s.nodes[x]][i].flags.v
    ensures var t := AfterDropNode(s, x); NodesOk(t) && EntriesOkBut(t, x) && SlotsOk(t) && PagesOk(t)
  {
    var t := AfterDropNode(s, x);
    assert NodeOk(s, x);
    forall q: nat ensures PageOk(t, q) {
      assert PageOk(s, q);
    }
    forall y: Loc ensures NodeOk(t, y) {
      assert NodeOk(s, y) && EntryOk(s, x, y.prefix % ENTRIES);
    }
    forall y: Loc, j: nat | y.level == 0 || y.Child(j) != x ensures EntryOk(t, y, j) {
      assert NodeOk(s, y) && EntryOk(s, y, j);
    }
    forall o: Slot ensures SlotOk(t, o) {
      assert SlotOk(s, o) && EntryOk(s, x, o.v % ENTRIES);
    }
  }

  lemma AddRootKeepsInv(s: State, p: nat)
    requires Inv(s) && p in s.owner && s.owner[p] == Held
    ensures Inv(AfterAddRoot(s, p))
    ensures Loc(p, 2, 0) !in s.nodes
  {
    var t, r := AfterAddRoot(s, p), Loc(p, 2, 0);
    assert NodeOk(s, r);
    forall q: nat ensures PageOk(t, q) {
      assert PageOk(s, q);
    }
    forall y: Loc ensures NodeOk(t, y) {
      assert NodeOk(s, y);
    }
    forall y: Loc, j: nat ensures EntryOk(t, y, j) {
      assert NodeOk(s, y) && EntryOk(s, y, j);
      if y == r && j < ENTRIES {
        assert NodeOk(s, r.Child(j));
        ChildParent(r, j);
      }
    }
    forall o: Slot ensures SlotOk(t, o) {
      assert SlotOk(s, o);
    }
  }

  ghost predicate InvBut(s: State, cut: Loc) {
    NodesOk(s) && EntriesOkBut(s, cut) && SlotsOk(s) && PagesOk(s)
  }

  /** The entry above a table that was freed is cleared. */
  function AfterClearAbove(s: State, x: Loc, i: nat): State
    requires x in s.nodes && s.nodes[x] in s.tables && i < |s.tables[s.nodes[x]]|
  {
    s.(tables := s.tables[s.nodes[x] := s.tables[s.nodes[x]][i := Pte(0, NONE)]])
  }

  /** Storing zero in the one wrong entry makes the tree right again. */
  lemma ClearAbove(s: State, x: Loc, i: nat)
    requires x.level > 0 && i < ENTRIES && InvBut(s, x.Child(i)) && x in s.nodes && x.Child(i) !in s.nodes
    ensures s.nodes[x] in s.tables && |s.tables[s.nodes[x]]| == ENTRIES
    ensures Inv(AfterClearAbove(s, x, i))
  {
    assert NodeOk(s, x);
    var t := AfterClearAbove(s, x, i);
    forall q: nat ensures PageOk(t, q) {
      assert PageOk(s, q);
    }
    forall y: Loc ensures NodeOk(t, y) {
      assert NodeOk(s, y);
    }
    forall y: Loc, j: nat ensures EntryOk(t, y, j) {
      assert NodeOk(s, y);
      if y.level > 0 && y.Child(j) == x.Child(i) && j < ENTRIES {
        ChildParent(x, i);
        ChildParent(y, j);
      } else {
        assert EntryOk(s, y, j);
      }
    }
    forall o: Slot ensures SlotOk(t, o) {
      assert SlotOk(s, o);
    }
  }

  /** With its root table gone, nothing of an address space is left. */
  lemma RootGone(s: State, root: nat)
    requires InvBut(s, Loc(root, 2, 0)) && Loc(root, 2, 0) !in s.nodes
    ensures Inv(s)
    ensures forall y :: y in s.nodes ==> y.root != root
    ensures forall sl :: sl in s.flat ==> sl.root != root
  {
    forall y | y in s.nodes ensures y.root != root {
      assert NodeOk(s, y);
      if y.level < 2 {
        assert NodeOk(s, y.Parent());
        if y.level < 1 {
          assert NodeOk(s, y.Parent().Parent());
        }
      }
    }
    forall sl | sl in s.flat ensures sl.root != root {
      assert SlotOk(s, sl);
    }
    forall y: Loc, j: nat ensures EntryOk(s, y, j) {
      assert NodeOk(s, y);
    }
  }

  /** uvmclear: the user bit of an entry goes. */
  function AfterClear(s: State, sl: Slot): State
    requires var x := Loc(sl.root, 0, sl.v / ENTRIES);
      x in s.nodes && s.nodes[x] in s.tables && |s.tables[s.nodes[x]]| == ENTRIES
  {
    var p := s.nodes[Loc(sl.root, 0, sl.v / ENTRIES)];
    var e := s.tables[p][sl.v % ENTRIES];
    var e' := e.(flags := e.flags.(u := false));
    s.(
      tables := s.tables[p := s.tables[p][sl.v % ENTRIES := e']],
      flat := if e.flags.v then s.flat[sl := e'] else s.flat
    )
  }

  lemma ClearKeepsInv(s: State, sl: Slot)
    requires Inv(s) && Loc(sl.root, 0, sl.v / ENTRIES) in s.nodes
    ensures var x := Loc(sl.root, 0, sl.v / ENTRIES); s.nodes[x] in s.tables && |s.tables[s.nodes[x]]| == ENTRIES
    ensures Inv(AfterClear(s, sl))
    ensures AfterClear(s, sl).flat ==
      if sl in s.flat then s.flat[sl := s.flat[sl].(flags := s.flat[sl].flags.(u := false))] else s.flat
  {
    var x := Loc(sl.root, 0, sl.v / ENTRIES);
    assert NodeOk(s, x) && EntryOk(s, x, sl.v % ENTRIES) && SlotOk(s, sl);
    var t := AfterClear(s, sl);
    forall q: nat ensures PageOk(t, q) {
      assert PageOk(s, q);
    }
    forall y: Loc ensures NodeOk(t, y) {
      assert NodeOk(s, y);
    }
    forall y: Loc, j: nat ensures EntryOk(t, y, j) {
      assert NodeOk(s, y) && EntryOk(s, y, j);
    }
    forall o: Slot ensures SlotOk(t, o) {
      assert SlotOk(s, o);
    }
  }
}
