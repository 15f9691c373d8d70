/**
 The operations of kernel/vm.c and kernel/kalloc.c on memory, each proved
 against the flat map and the page owners of PageTable.
 */
module Vm {
  import opened Common
  import opened PageTable
  import opened PageRuns

  const PGSIZE: nat := 4096

  type Bytes = seq<int>

  function ZeroPage(): Bytes {
    seq(PGSIZE, _ => 0)
  }

  /** What uvmalloc gives: n zeroed pages with the same flags. */
  function Blank(n: nat, f: Flags): (w: seq<(Flags, Bytes)>)
    ensures |w| == n
  {
    if n == 0 then [] else Blank(n - 1, f) + [(f, ZeroPage())]
  }

  function BytesAt(data: map<nat, Bytes>, p: nat): Bytes {
    if p in data then data[p] else []
  }

  /** What walk returns: the place of an entry, the null pointer, or a panic. */
  datatype Found = Entry(table: nat, index: nat) | Missing | WalkPanic

  datatype Outcome = Done | NoMemory | Panic

  /** Only page-table pages have been added. */
  ghost predicate OnlyTables(s: State, t: State, root: nat) {
    && (forall x :: x in s.nodes ==> x in t.nodes && t.nodes[x] == s.nodes[x])
    && t.owner.Keys == s.owner.Keys
    && (forall p :: p in s.owner ==> TookTable(s.owner[p], t.owner[p], root))
  }

  predicate TookTable(was: Owner, now: Owner, root: nat) {
    now == was || (was == Free && now.TableOf? && now.x.root == root)
  }

  lemma TablesSame(s: State, root: nat)
    ensures OnlyTables(s, s, root)
  {
  }

  lemma RootIsOwn(s: State, root: nat)
    requires Inv(s) && Loc(root, 2, 0) in s.nodes
    ensures s.nodes[Loc(root, 2, 0)] == root
  {
    assert NodeOk(s, Loc(root, 2, 0));
  }

  lemma TablesOn(s: State, t: State, u: State, root: nat)
    requires OnlyTables(s, t, root) && OnlyTables(t, u, root)
    ensures OnlyTables(s, u, root) && u.owner.Keys == s.owner.Keys
    ensures Loc(root, 2, 0) in s.nodes ==> Loc(root, 2, 0) in u.nodes
  {
    forall p | p in s.owner ensures TookTable(s.owner[p], u.owner[p], root) {
      assert TookTable(s.owner[p], t.owner[p], root) && p in t.owner;
    }
  }

  /** flat with k consecutive pages mapped. */
  function Mapping(flat: map<Slot, Pte>, root: nat, v0: nat, k: nat, pa: nat, f: Flags): map<Slot, Pte> {
    if k == 0 then flat
    else Mapping(flat, root, v0, k - 1, pa, f)[Slot(root, v0 + k - 1) := Pte(pa + k - 1, f)]
  }

  predicate Within(sl: Slot, root: nat, v0: nat, k: nat) {
    sl.root == root && v0 <= sl.v < v0 + k
  }

  lemma {:induction false} MappingIs(flat: map<Slot, Pte>, root: nat, v0: nat, k: nat, pa: nat, f: Flags, sl: Slot)
    ensures sl in Mapping(flat, root, v0, k, pa, f) <==> sl in flat || Within(sl, root, v0, k)
    ensures sl in Mapping(flat, root, v0, k, pa, f) ==>
      Mapping(flat, root, v0, k, pa, f)[sl] == if Within(sl, root, v0, k) then Pte(pa + sl.v - v0, f) else flat[sl]
  {
    if k > 0 {
      MappingIs(flat, root, v0, k - 1, pa, f, sl);
    }
  }

  /** flat without k consecutive pages. */
  function Unmapping(flat: map<Slot, Pte>, root: nat, v0: nat, k: nat): map<Slot, Pte> {
    map sl | sl in flat && !Within(sl, root, v0, k) :: flat[sl]
  }

  /** Who owns a page once the leaves in the range are gone. */
  function Released(o: Owner, root: nat, v0: nat, k: nat, doFree: bool): Owner {
    if o.LeafOf? && Within(o.sl, root, v0, k) then (if doFree then Free else Held) else o
  }

  /** The pages mapped in the range belong to these mappings and to nobody else. */
  ghost predicate Owned(s: State, root: nat, v0: nat, n: nat) {
    forall v :: v0 <= v < v0 + n && Slot(root, v) in s.flat ==>
      s.flat[Slot(root, v)].ppn in s.owner && s.owner[s.flat[Slot(root, v)].ppn] == LeafOf(Slot(root, v))
  }

  /** No page mapped in the range is on the free list. */
  ghost predicate InUse(s: State, root: nat, v0: nat, n: nat) {
    forall v :: v0 <= v < v0 + n && Slot(root, v) in s.flat && s.flat[Slot(root, v)].ppn in s.owner ==>
      s.owner[s.flat[Slot(root, v)].ppn] != Free
  }

  predicate MappedAt(flat: map<Slot, Pte>, root: nat, v: nat) {
    v < MAXVPN && Slot(root, v) in flat
  }

  predicate UnmappedAt(flat: map<Slot, Pte>, root: nat, v: nat) {
    v < MAXVPN && Slot(root, v) !in flat
  }

  ghost predicate AllMapped(flat: map<Slot, Pte>, root: nat, v0: nat, n: nat) {
    forall v: nat {:trigger MappedAt(flat, root, v)} :: v0 <= v < v0 + n ==> MappedAt(flat, root, v)
  }

  ghost predicate NoneMapped(flat: map<Slot, Pte>, root: nat, v0: nat, n: nat) {
    forall v: nat {:trigger UnmappedAt(flat, root, v)} :: v0 <= v < v0 + n ==> UnmappedAt(flat, root, v)
  }

  /** The page number PGROUNDUP takes a size to. */
  function Pages(sz: nat): nat {
    (sz + PGSIZE - 1) / PGSIZE
  }

  /** Page v has been given a page of its own that was free before. */
  ghost predicate Fresh(s: State, t: State, root: nat, v: nat) {
    var sl := Slot(root, v);
    && UnmappedAt(s.flat, root, v) && sl in t.flat && t.flat[sl].ppn in s.owner && t.flat[sl].ppn in t.owner
    && s.owner[t.flat[sl].ppn] == Free && t.owner[t.flat[sl].ppn] == LeafOf(sl)
  }

  predicate TookPage(was: Owner, now: Owner, root: nat, v0: nat, k: nat) {
    TookTable(was, now, root) || (was == Free && now.LeafOf? && Within(now.sl, root, v0, k))
  }

  /** From s to t, k pages from v0 on were populated; nothing else was mapped or changed hands. */
  ghost predicate Populated(s: State, t: State, root: nat, v0: nat, k: nat) {
    && (forall x :: x in s.nodes ==> x in t.nodes && t.nodes[x] == s.nodes[x])
    && t.owner.Keys == s.owner.Keys
    && (forall p :: p in s.owner ==> TookPage(s.owner[p], t.owner[p], root, v0, k))
    && Unmapping(t.flat, root, v0, k) == s.flat
    && (forall v: nat {:trigger Fresh(s, t, root, v)} :: v0 <= v < v0 + k ==> Fresh(s, t, root, v))
  }

  /** Pages that were not free keep their bytes. */
  ghost predicate BytesKept(s: State, data: map<nat, Bytes>, data': map<nat, Bytes>) {
    forall p: nat {:trigger BytesAt(data', p)} :: (p in s.owner ==> s.owner[p] != Free) ==>
      BytesAt(data', p) == BytesAt(data, p)
  }

  lemma PopulateNext(s: State, t: State, u: State, root: nat, v0: nat, k: nat, p: nat, f: Flags)
    requires Populated(s, t, root, v0, k)
    requires forall x :: x in t.nodes ==> x in u.nodes && u.nodes[x] == t.nodes[x]
    requires u.owner.Keys == t.owner.Keys && p in t.owner && t.owner[p] == Free &&
      u.owner[p] == LeafOf(Slot(root, v0 + k))
    requires UnmappedAt(t.flat, root, v0 + k) && u.flat == t.flat[Slot(root, v0 + k) := Pte(p, f)]
    requires forall q :: q in t.owner ==> TookTable(t.owner[q], u.owner[q], root) || q == p
    ensures Populated(s, u, root, v0, k + 1)
  {
    forall v: nat | v0 <= v < v0 + k + 1 ensures Fresh(s, u, root, v) {
      if v < v0 + k {
        assert Fresh(s, t, root, v);
      } else {
        assert TookPage(s.owner[p], t.owner[p], root, v0, k);
        assert Slot(root, v) !in Unmapping(t.flat, root, v0, k);
      }
    }
    forall q | q in s.owner ensures TookPage(s.owner[q], u.owner[q], root, v0, k + 1) {
      assert TookPage(s.owner[q], t.owner[q], root, v0, k);
    }
    assert Unmapping(u.flat, root, v0, k + 1) == Unmapping(t.flat, root, v0, k);
  }

  /** Unmapping what was populated leaves only page-table pages behind. */
  lemma UndoPopulate(s: State, t: State, u: State, root: nat, v0: nat, k: nat)
    requires Inv(s) && Populated(s, t, root, v0, k) && AreUnmapped(t, u, root, v0, k, true)
    ensures u.flat == s.flat && OnlyTables(s, u, root)
  {
    forall p | p in s.owner ensures TookTable(s.owner[p], u.owner[p], root) {
      assert TookPage(s.owner[p], t.owner[p], root, v0, k) && PageOk(s, p);
    }
  }

  /** Exactly these leaves are gone, and the pages they owned went back. */
  ghost predicate AreUnmapped(s: State, t: State, root: nat, v0: nat, k: nat, doFree: bool) {
    && t.nodes == s.nodes && t.owner.Keys == s.owner.Keys
    && t.flat == Unmapping(s.flat, root, v0, k)
    && (forall p :: p in s.owner ==> t.owner[p] == Released(s.owner[p], root, v0, k, doFree))
  }

  /** Page v maps to a page with these flags and bytes. */
  ghost predicate Holds(flat: map<Slot, Pte>, data: map<nat, Bytes>, root: nat, v: nat, f: Flags, bytes: Bytes) {
    Slot(root, v) in flat && flat[Slot(root, v)].flags == f && BytesAt(data, flat[Slot(root, v)].ppn) == bytes
  }

  lemma StillPopulated(s: State, t: State, u: State, root: nat, v0: nat, k: nat)
    requires Populated(s, t, root, v0, k) && OnlyTables(t, u, root) && u.flat == t.flat
    ensures Populated(s, u, root, v0, k)
  {
    forall p | p in s.owner ensures TookPage(s.owner[p], u.owner[p], root, v0, k) {
      assert TookPage(s.owner[p], t.owner[p], root, v0, k) && TookTable(t.owner[p], u.owner[p], root);
    }
    forall v: nat | v0 <= v < v0 + k ensures Fresh(s, u, root, v) {
      assert Fresh(s, t, root, v);
      assert TookTable(t.owner[t.flat[Slot(root, v)].ppn], u.owner[t.flat[Slot(root, v)].ppn], root);
    }
  }

  lemma StillKept(s: State, t: State, d: map<nat, Bytes>, d': map<nat, Bytes>, d'': map<nat, Bytes>, root: nat,
    v0: nat, k: nat)
    requires Populated(s, t, root, v0, k) && BytesKept(s, d, d') && BytesKept(t, d', d'')
    ensures BytesKept(s, d, d'')
  {
    forall p: nat | p in s.owner ==> s.owner[p] != Free ensures BytesAt(d'', p) == BytesAt(d, p) {
      assert p in s.owner ==> TookPage(s.owner[p], t.owner[p], root, v0, k);
      assert BytesAt(d', p) == BytesAt(d, p);
    }
  }

  lemma PopulatedIsOwned(s: State, t: State, root: nat, v0: nat, k: nat)
    requires Populated(s, t, root, v0, k)
    ensures Owned(t, root, v0, k) && AllMapped(t.flat, root, v0, k)
  {
    forall v: nat | v0 <= v < v0 + k
      ensures Slot(root, v) in t.flat && t.flat[Slot(root, v)].ppn in t.owner
      ensures t.owner[t.flat[Slot(root, v)].ppn] == LeafOf(Slot(root, v))
      ensures MappedAt(t.flat, root, v)
    {
      assert Fresh(s, t, root, v);
    }
  }

  /** The pages from v0 on hold what want lists. */
  ghost predicate Filled(flat: map<Slot, Pte>, data: map<nat, Bytes>, root: nat, v0: nat, want: seq<(Flags, Bytes)>) {
    forall i :: 0 <= i < |want| ==> Holds(flat, data, root, v0 + i, want[i].0, want[i].1)
  }

  lemma FillNext(s: State, t: State, d: map<nat, Bytes>, d': map<nat, Bytes>, root: nat, v0: nat,
      want: seq<(Flags, Bytes)>, p: nat, f: Flags, bytes: Bytes)
    requires Populated(s, t, root, v0, |want|) && p in t.owner && t.owner[p] == Free
    requires BytesKept(s, d, d') && Filled(t.flat, d', root, v0, want)
    ensures BytesKept(s, d, d'[p := bytes])
    ensures Filled(t.flat[Slot(root, v0 + |want|) := Pte(p, f)], d'[p := bytes], root, v0, want + [(f, bytes)])
  {
    assert TookPage(s.owner[p], t.owner[p], root, v0, |want|);
    forall q: nat | q in s.owner ==> s.owner[q] != Free ensures BytesAt(d'[p := bytes], q) == BytesAt(d, q) {
      assert BytesAt(d', q) == BytesAt(d, q);
    }
    var w := want + [(f, bytes)];
    forall i | 0 <= i < |w|
      ensures Holds(t.flat[Slot(root, v0 + |want|) := Pte(p, f)], d'[p := bytes], root, v0 + i, w[i].0, w[i].1)
    {
      if i < |want| {
        assert Holds(t.flat, d', root, v0 + i, want[i].0, want[i].1) && Fresh(s, t, root, v0 + i);
      }
    }
  }

  lemma NothingPopulated(s: State, d: map<nat, Bytes>, root: nat, v0: nat)
    ensures Populated(s, s, root, v0, 0) && BytesKept(s, d, d) && Filled(s.flat, d, root, v0, [])
  {
    assert Unmapping(s.flat, root, v0, 0) == s.flat;
  }

  /** A page of from that is in use keeps its bytes while to is populated. */
  lemma SourceKept(s: State, d: map<nat, Bytes>, d': map<nat, Bytes>, from: nat, k: nat, n: nat)
    requires BytesKept(s, d, d') && InUse(s, from, 0, n) && k < n && Slot(from, k) in s.flat
    ensures BytesAt(d', s.flat[Slot(from, k)].ppn) == BytesAt(d, s.flat[Slot(from, k)].ppn)
  {
  }

  /** What the first n pages of an address space hold. */
  function Image(flat: map<Slot, Pte>, data: map<nat, Bytes>, root: nat, n: nat): (w: seq<(Flags, Bytes)>)
    ensures |w| == n
  {
    if n == 0 then []
    else
      var e := if Slot(root, n - 1) in flat then flat[Slot(root, n - 1)] else Pte(0, NONE);
      Image(flat, data, root, n - 1) + [(e.flags, BytesAt(data, e.ppn))]
  }

  lemma NoImage(s: State, data: map<nat, Bytes>, root: nat)
    ensures Image(s.flat, data, root, 0) == []
  {
  }

  /** What is mapped in from is not changed by populating to. */
  lemma SourceMapped(s: State, t: State, from: nat, to: nat, k: nat)
    requires Populated(s, t, to, 0, k) && (from == to ==> k == 0)
    ensures Slot(from, k) in t.flat <==> Slot(from, k) in s.flat
    ensures Slot(from, k) in t.flat ==> t.flat[Slot(from, k)] == s.flat[Slot(from, k)]
  {
    assert Slot(from, k) in t.flat <==> Slot(from, k) in Unmapping(t.flat, to, 0, k);
  }

  lemma PopulatedWasFree(s: State, t: State, root: nat, v0: nat, k: nat, v: nat)
    requires Populated(s, t, root, v0, k) && v0 <= v < v0 + k
    ensures Slot(root, v) !in s.flat
  {
    assert Fresh(s, t, root, v);
  }

  // ----- Freeing a tree

  /** Table y is part of the tree below table x. */
  predicate Under(x: Loc, y: Loc) {
    y.root == x.root && y.level <= x.level && Up(y.prefix, x.level - y.level) == x.prefix
  }

  /** From s to t, some tables below x went back to the free list and nothing else happened. */
  ghost predicate Pruned(s: State, t: State, x: Loc) {
    && t.flat == s.flat && t.owner.Keys == s.owner.Keys
    && (forall y {:trigger y in t.nodes} {:trigger y in s.nodes} ::
      (y in t.nodes ==> y in s.nodes && t.nodes[y] == s.nodes[y]) && (y in s.nodes && y !in t.nodes ==> Under(x, y)))
    && (forall p :: p in s.owner ==> t.owner[p] == PrunedOwner(s.owner[p], t.nodes))
    && (forall y: Loc {:trigger SameTable(s, t, y)} :: y in t.nodes && !Under(x, y) ==> SameTable(s, t, y))
  }

  ghost predicate SameTable(s: State, t: State, y: Loc) {
    y in s.nodes && s.nodes[y] in s.tables ==> s.nodes[y] in t.tables && t.tables[s.nodes[y]] == s.tables[s.nodes[y]]
  }

  lemma PrunedNothing(s: State, x: Loc)
    requires Inv(s)
    ensures Pruned(s, s, x)
  {
    forall p | p in s.owner ensures s.owner[p] == PrunedOwner(s.owner[p], s.nodes) {
      assert PageOk(s, p);
    }
  }

  lemma DropPrunes(s: State, t: State, x: Loc)
    requires Pruned(s, t, x) && Inv(t) && x in t.nodes
    ensures Pruned(s, AfterDropNode(t, x), x)
  {
    var u := AfterDropNode(t, x);
    assert NodeOk(t, x);
    forall p | p in s.owner ensures u.owner[p] == PrunedOwner(s.owner[p], u.nodes) {
      assert t.owner[p] == PrunedOwner(s.owner[p], t.nodes) && PageOk(t, p);
    }
    forall y: Loc | y in u.nodes && !Under(x, y) ensures SameTable(s, u, y) {
      assert SameTable(s, t, y) && NodeOk(t, y);
    }
  }

  lemma ClearPrunes(s: State, t: State, x: Loc, i: nat)
    requires Pruned(s, t, x) && NodesOk(t) && x in t.nodes && t.nodes[x] in t.tables && i < |t.tables[t.nodes[x]]|
    ensures Pruned(s, t.(tables := t.tables[t.nodes[x] := t.tables[t.nodes[x]][i := Pte(0, NONE)]]), x)
  {
    var u := t.(tables := t.tables[t.nodes[x] := t.tables[t.nodes[x]][i := Pte(0, NONE)]]);
    assert NodeOk(t, x);
    forall y: Loc | y in u.nodes && !Under(x, y) ensures SameTable(s, u, y) {
      assert SameTable(s, t, y) && NodeOk(t, y);
    }
  }

  function PrunedOwner(o: Owner, nodes: map<Loc, nat>): Owner {
    if o.TableOf? && o.x !in nodes then Free else o
  }

  lemma PrunedFurther(s: State, t: State, u: State, x: Loc, i: nat)
    requires Pruned(s, t, x) && x.level > 0 && i < ENTRIES && Pruned(t, u, x.Child(i))
    ensures Pruned(s, u, x)
  {
    forall y | y in t.nodes && y !in u.nodes ensures Under(x, y) {
      UnderChild(x, i, y);
    }
    forall p | p in s.owner ensures u.owner[p] == PrunedOwner(s.owner[p], u.nodes) {
      assert t.owner[p] == PrunedOwner(s.owner[p], t.nodes);
      assert p in t.owner;
    }
    forall y: Loc | y in u.nodes && !Under(x, y) ensures SameTable(s, u, y) {
      if Under(x.Child(i), y) {
        UnderChild(x, i, y);
      }
      assert SameTable(s, t, y) && SameTable(t, u, y);
    }
  }

  lemma UnderChild(x: Loc, i: nat, y: Loc)
    requires x.level > 0 && i < ENTRIES && Under(x.Child(i), y)
    ensures Under(x, y)
  {
    assert Up(y.prefix, x.level - y.level) == Up(y.prefix, x.level - y.level - 1) / ENTRIES;
  }

  /** Who owns a page once an address space has been torn down. */
  function WithoutRoot(o: Owner, root: nat): Owner {
    if (o.LeafOf? && o.sl.root == root) || (o.TableOf? && o.x.root == root) then Free else o
  }

  lemma FreedAll(s: State, t: State, u: State, root: nat, n: nat)
    requires Inv(s) && AreUnmapped(s, t, root, 0, n, true) && Pruned(t, u, Loc(root, 2, 0))
    requires (forall y :: y in u.nodes ==> y.root != root) && (forall sl :: sl in u.flat ==> sl.root != root)
    ensures forall sl :: sl in s.flat && sl.root == root ==> sl.v < n
    ensures forall p :: p in s.owner ==> p in u.owner && u.owner[p] == WithoutRoot(s.owner[p], root)
    ensures u.flat == map sl | sl in s.flat && sl.root != root :: s.flat[sl]
  {
    forall sl | sl in s.flat && sl.root == root ensures sl.v < n {
      assert sl !in u.flat;
    }
    forall p | p in s.owner ensures p in u.owner && u.owner[p] == WithoutRoot(s.owner[p], root) {
      assert PageOk(s, p) && p in t.owner && p in u.owner;
      assert u.owner[p] == PrunedOwner(t.owner[p], u.nodes);
    }
  }

  lemma NoRootNoSlots(s: State, root: nat)
    requires Inv(s) && Loc(root, 2, 0) !in s.nodes
    ensures forall sl :: sl in s.flat ==> sl.root != root
  {
    assert forall y: Loc, j: nat {:trigger EntryOk(s, y, j)} :: EntryOk(s, y, j);
    RootGone(s, root);
  }

  predicate Managed(first: nat, last: nat, p: nat) {
    first <= p < last
  }

  /** Tearing an address space down gives back all that populating it took, its tables included. */
  lemma TearDownUndoesPopulate(s: State, t: State, root: nat, v0: nat, k: nat, p: nat)
    requires Populated(s, t, root, v0, k) && p in s.owner
    ensures WithoutRoot(t.owner[p], root) == WithoutRoot(s.owner[p], root)
    ensures s.owner[p] == Free ==> WithoutRoot(t.owner[p], root) == Free
  {
    assert TookPage(s.owner[p], t.owner[p], root, v0, k);
  }

  /** uvmfree: every page of the address space is free, and its mappings are gone. */
  ghost predicate TornDown(s: State, t: State, root: nat) {
    && t.owner.Keys == s.owner.Keys && (forall p :: p in s.owner ==> t.owner[p] == WithoutRoot(s.owner[p], root))
    && t.flat == map sl | sl in s.flat && sl.root != root :: s.flat[sl]
  }

  /** From s to t the entry for sl was written with e. */
  ghost predicate IsStored(s: State, sl: Slot, e: Pte, t: State) {
    && Inv(s) && HasEntry(s, sl)
    && (HasTable(s, sl); t == AfterSetPte(s, sl, e))
  }

  /** One more page mapped by mappages. */
  lemma StoredLeads(s: State, mid: State, root: nat, v0: nat, k: nat, pa: nat, f: Flags, t: State)
    requires Leads(s, mid) && IsStored(mid, Slot(root, v0 + k), Pte(pa + k, f), t)
    requires Slot(root, v0 + k) !in mid.flat && f.Leaf() && mid.owner.Keys == s.owner.Keys
    requires MapsNoUserPage(s, pa, k + 1, f)
    ensures Leads(s, t)
  {
    assert f.u ==> pa + k !in s.owner.Keys;
    LeadsOne(mid, Map(Slot(root, v0 + k), Pte(pa + k, f)));
    LeadsOn(s, mid, t);
  }

  lemma GivenLeads(s: State, sl: Slot, e: Pte, t: State, u: State)
    requires IsStored(s, sl, e, t) && sl !in s.flat && e.flags.Leaf() && IsHeld(s, e.ppn)
    requires u == AfterGive(t, e.ppn, LeafOf(sl))
    ensures Leads(s, u)
  {
    LeadsOne(s, MapOwn(sl, e));
  }

  /** An entry without its user bit. */
  function Unuser(e: Pte): Pte {
    e.(flags := e.flags.(u := false))
  }

  /** A first page of its own at 0. */
  lemma FirstPage(s: State, t: State, root: nat, p: nat, f: Flags)
    requires UnmappedAt(s.flat, root, 0) && t.flat == s.flat[Slot(root, 0) := Pte(p, f)]
    requires forall x :: x in s.nodes ==> x in t.nodes && t.nodes[x] == s.nodes[x]
    requires t.owner.Keys == s.owner.Keys && p in s.owner && s.owner[p] == Free && t.owner[p] == LeafOf(Slot(root, 0))
    requires forall q :: q in s.owner ==> TookTable(s.owner[q], t.owner[q], root) || q == p
    ensures Populated(s, t, root, 0, 1)
  {
    assert Unmapping(t.flat, root, 0, 1) == s.flat;
    forall v: nat | 0 <= v < 1 ensures Fresh(s, t, root, v) {
    }
    forall q | q in s.owner ensures TookPage(s.owner[q], t.owner[q], root, 0, 1) {
    }
  }

  /** No managed page among these is mapped for the user. */
  ghost predicate MapsNoUserPage(s: State, pa: nat, k: nat, f: Flags) {
    f.u ==> forall p :: pa <= p < pa + k ==> p !in s.owner
  }

  // ----- User memory

  /** Page v is one copyin reads: mapped for the user, and not at physical address 0. */
  predicate UserAt(flat: map<Slot, Pte>, root: nat, v: nat) {
    MappedAt(flat, root, v) && flat[Slot(root, v)].flags.u && flat[Slot(root, v)].ppn != 0
  }

  /** Page v is one copyout writes. */
  predicate WritableAt(flat: map<Slot, Pte>, root: nat, v: nat) {
    MappedAt(flat, root, v) && flat[Slot(root, v)].flags.u && flat[Slot(root, v)].flags.w
  }

  predicate UserAddr(flat: map<Slot, Pte>, root: nat, a: nat) {
    UserAt(flat, root, a / PGSIZE)
  }

  predicate WritableAddr(flat: map<Slot, Pte>, root: nat, a: nat) {
    WritableAt(flat, root, a / PGSIZE)
  }

  /** Every mapped page has its bytes, and every page mapped for the user is a managed one. */
  ghost predicate UserMemory(s: State, data: map<nat, Bytes>) {
    forall sl :: sl in s.flat ==>
      |BytesAt(data, s.flat[sl].ppn)| == PGSIZE && (s.flat[sl].flags.u ==> s.flat[sl].ppn in s.owner)
  }

  /** The byte at user address a. */
  function UserByte(flat: map<Slot, Pte>, data: map<nat, Bytes>, root: nat, a: nat): int {
    if Slot(root, a / PGSIZE) in flat && |BytesAt(data, flat[Slot(root, a / PGSIZE)].ppn)| == PGSIZE
    then BytesAt(data, flat[Slot(root, a / PGSIZE)].ppn)[a % PGSIZE] else 0
  }

  /** How many bytes of n at address a are in its page. */
  function InPage(a: nat, n: nat): nat {
    if n < PGSIZE - a % PGSIZE then n else PGSIZE - a % PGSIZE
  }

  lemma SamePage(a: nat, n: nat, i: nat)
    requires i < InPage(a, n)
    ensures (a + i) / PGSIZE == a / PGSIZE && (a + i) % PGSIZE == a % PGSIZE + i
  {
  }

  /** The bytes from srcva on, as user memory has them. */
  ghost predicate AreUserBytes(flat: map<Slot, Pte>, data: map<nat, Bytes>, root: nat, srcva: nat, dst: Bytes) {
    forall a: nat {:trigger UserAddr(flat, root, a)} :: srcva <= a < srcva + |dst| ==>
      UserAddr(flat, root, a) && dst[a - srcva] == UserByte(flat, data, root, a)
  }

  lemma PageHasBytes(s: State, data: map<nat, Bytes>, sl: Slot)
    requires UserMemory(s, data) && sl in s.flat
    ensures |BytesAt(data, s.flat[sl].ppn)| == PGSIZE
  {
  }

  lemma NothingRead(flat: map<Slot, Pte>, data: map<nat, Bytes>, root: nat, srcva: nat)
    ensures AreUserBytes(flat, data, root, srcva, [])
  {
  }

  /** One page more has been read. */
  lemma ReadOn(flat: map<Slot, Pte>, data: map<nat, Bytes>, root: nat, srcva: nat, dst: Bytes, m: nat)
    requires AreUserBytes(flat, data, root, srcva, dst) && UserAt(flat, root, (srcva + |dst|) / PGSIZE)
    requires m <= PGSIZE - (srcva + |dst|) % PGSIZE
    requires |BytesAt(data, flat[Slot(root, (srcva + |dst|) / PGSIZE)].ppn)| == PGSIZE
    ensures var o, p := (srcva + |dst|) % PGSIZE, flat[Slot(root, (srcva + |dst|) / PGSIZE)].ppn;
      AreUserBytes(flat, data, root, srcva, dst + BytesAt(data, p)[o..o + m])
  {
    var a := srcva + |dst|;
    var piece := BytesAt(data, flat[Slot(root, a / PGSIZE)].ppn)[a % PGSIZE..a % PGSIZE + m];
    forall c: nat | srcva <= c < srcva + |dst + piece|
      ensures UserAddr(flat, root, c) && (dst + piece)[c - srcva] == UserByte(flat, data, root, c)
    {
      if c < a {
        assert UserAddr(flat, root, c);
      } else {
        SamePage(a, m, c - a);
      }
    }
  }

  /** Bytes b written at offset o of a page. */
  function Patched(page: Bytes, o: nat, b: Bytes): Bytes
    requires o + |b| <= |page|
  {
    page[..o] + b + page[o + |b|..]
  }

  /** What the user sees after n bytes of src went to dstva: those bytes there, and nothing else changed anywhere. */
  ghost predicate CopiedOut(s: State, data: map<nat, Bytes>, data': map<nat, Bytes>, root: nat, dstva: nat,
      src: Bytes) {
    && UserMemory(s, data')
    && (forall a: nat {:trigger WritableAddr(s.flat, root, a)} :: dstva <= a < dstva + |src| ==>
      WritableAddr(s.flat, root, a))
    && (forall r: nat, a: nat {:trigger UserByte(s.flat, data', r, a)} ::
      Slot(r, a / PGSIZE) in s.flat && s.flat[Slot(r, a / PGSIZE)].flags.u ==>
        UserByte(s.flat, data', r, a) ==
          if r == root && dstva <= a < dstva + |src| then src[a - dstva] else UserByte(s.flat, data, r, a))
    && (forall p: nat {:trigger BytesAt(data', p)} :: BytesAt(data', p) != BytesAt(data, p) ==>
      p in s.owner && s.owner[p].LeafOf? && s.owner[p].sl.root == root)
  }

  lemma NothingCopied(s: State, data: map<nat, Bytes>, root: nat, dstva: nat)
    requires UserMemory(s, data)
    ensures CopiedOut(s, data, data, root, dstva, [])
  {
  }

  /** One page more has been written. */
  lemma WriteOn(s: State, data: map<nat, Bytes>, d: map<nat, Bytes>, root: nat, dstva: nat, src: Bytes, b: Bytes)
    requires Inv(s) && Isolated(s) && CopiedOut(s, data, d, root, dstva, src)
    requires WritableAt(s.flat, root, (dstva + |src|) / PGSIZE) && |b| <= PGSIZE - (dstva + |src|) % PGSIZE
    ensures var o, p := (dstva + |src|) % PGSIZE, s.flat[Slot(root, (dstva + |src|) / PGSIZE)].ppn;
      && |BytesAt(d, p)| == PGSIZE
      && CopiedOut(s, data, d[p := Patched(BytesAt(d, p), o, b)], root, dstva, src + b)
  {
    var x := dstva + |src|;
    var sl, o := Slot(root, x / PGSIZE), x % PGSIZE;
    var p := s.flat[sl].ppn;
    var e, all := d[p := Patched(BytesAt(d, p), o, b)], src + b;
    assert UserOk(s, sl) && s.owner[p] == LeafOf(sl);
    forall q: nat | BytesAt(e, q) != BytesAt(data, q)
      ensures q in s.owner && s.owner[q].LeafOf? && s.owner[q].sl.root == root
    {
      assert q != p ==> BytesAt(e, q) == BytesAt(d, q);
    }
    forall o | o in s.flat
      ensures |BytesAt(e, s.flat[o].ppn)| == PGSIZE && (s.flat[o].flags.u ==> s.flat[o].ppn in s.owner)
    {
      assert |BytesAt(d, s.flat[o].ppn)| == PGSIZE;
    }
    forall a: nat | dstva <= a < dstva + |all| ensures WritableAddr(s.flat, root, a) {
      if a >= x {
        SamePage(x, |b|, a - x);
      }
    }
    forall r: nat, a: nat | Slot(r, a / PGSIZE) in s.flat && s.flat[Slot(r, a / PGSIZE)].flags.u
      ensures UserByte(s.flat, e, r, a) ==
        if r == root && dstva <= a < dstva + |all| then all[a - dstva] else UserByte(s.flat, data, r, a)
    {
      WrittenByte(s, d, root, x, b, r, a);
      assert UserByte(s.flat, d, r, a) ==
        if r == root && dstva <= a < dstva + |src| then src[a - dstva] else UserByte(s.flat, data, r, a);
    }
  }

  /** What one memmove of copyout does to the byte at address a of address space r. */
  lemma WrittenByte(s: State, d: map<nat, Bytes>, root: nat, x: nat, b: Bytes, r: nat, a: nat)
    requires Inv(s) && Isolated(s) && UserMemory(s, d)
    requires WritableAt(s.flat, root, x / PGSIZE) && |b| <= PGSIZE - x % PGSIZE
    requires Slot(r, a / PGSIZE) in s.flat && s.flat[Slot(r, a / PGSIZE)].flags.u
    ensures var p := s.flat[Slot(root, x / PGSIZE)].ppn;
      UserByte(s.flat, d[p := Patched(BytesAt(d, p), x % PGSIZE, b)], r, a) ==
        if r == root && x <= a < x + |b| then b[a - x] else UserByte(s.flat, d, r, a)
  {
    UserPagesArePrivate(s, Slot(root, x / PGSIZE), Slot(r, a / PGSIZE));
    if r == root && x <= a < x + |b| {
      SamePage(x, |b|, a - x);
    } else if r == root && a / PGSIZE == x / PGSIZE {
      assert a % PGSIZE < x % PGSIZE || a % PGSIZE >= x % PGSIZE + |b|;
    }
  }

  // ----- How many pages an operation takes

  /** The tables below the root that page v needs. */
  ghost function TablesFor(root: nat, v: nat): set<Loc> {
    {Loc(root, 1, v / ENTRIES / ENTRIES), Loc(root, 0, v / ENTRIES)}
  }

  /** The tables that n pages from v0 on need. */
  ghost function Wanted(root: nat, v0: nat, n: nat): set<Loc> {
    if n == 0 then {} else Wanted(root, v0, n - 1) + TablesFor(root, v0 + n - 1)
  }

  /** Those among them that are not there. */
  ghost function Lacking(s: State, root: nat, v0: nat, n: nat): set<Loc> {
    Wanted(root, v0, n) - s.nodes.Keys
  }

  /** There are too few free pages to populate n pages from v0 on: one for each, and one for every table lacking. */
  ghost predicate Short(s: State, root: nat, v0: nat, n: nat) {
    |s.freelist| < n + |Lacking(s, root, v0, n)|
  }

  /** From s to t only tables of w were made, and c pages taken beside them. */
  ghost predicate Spent(s: State, t: State, w: set<Loc>, c: nat) {
    && s.nodes.Keys <= t.nodes.Keys && t.nodes.Keys - s.nodes.Keys <= w
    && |s.freelist| == |t.freelist| + |t.nodes.Keys - s.nodes.Keys| + c
  }

  lemma SpentNothing(s: State, w: set<Loc>)
    ensures Spent(s, s, w, 0)
  {
    assert s.nodes.Keys - s.nodes.Keys == {};
  }

  lemma SpentMore(s: State, t: State, u: State, w: set<Loc>, w': set<Loc>, c: nat, d: nat)
    requires Spent(s, t, w, c) && Spent(t, u, w', d) && w' <= w
    ensures Spent(s, u, w, c + d)
  {
    AddedTwice(s.nodes.Keys, t.nodes.Keys, u.nodes.Keys);
  }

  lemma NodesStay(s: State, t: State, w: set<Loc>, x: Loc)
    requires Spent(s, t, w, 0)
    ensures x in s.nodes ==> x in t.nodes
  {
  }

  lemma SpentTable(s: State, t: State, x: Loc)
    requires x !in s.nodes && t.nodes.Keys == s.nodes.Keys + {x} && |s.freelist| == |t.freelist| + 1
    ensures Spent(s, t, {x}, 0)
  {
    assert t.nodes.Keys - s.nodes.Keys == {x};
  }

  lemma {:induction false} WantedHas(root: nat, v0: nat, n: nat, k: nat)
    requires k < n
    ensures TablesFor(root, v0 + k) <= Wanted(root, v0, n)
    decreases n
  {
    if k < n - 1 {
      WantedHas(root, v0, n - 1, k);
    }
  }

  /** No page is left, or one that would still have to be the page itself while a table lacks. */
  ghost predicate Starved(t: State, root: nat, v: nat) {
    t.freelist == [] || (|t.freelist| == 1 && Loc(root, 0, v / ENTRIES) !in t.nodes)
  }

  /** A wanted table still lacks: fewer were made than lacked. */
  lemma FewerMade(s: State, t: State, w: set<Loc>, c: nat, x: Loc)
    requires Spent(s, t, w, c)
    ensures |t.nodes.Keys - s.nodes.Keys| <= |w - s.nodes.Keys|
    ensures x in w && x !in t.nodes ==> |t.nodes.Keys - s.nodes.Keys| < |w - s.nodes.Keys|
  {
    var made := t.nodes.Keys - s.nodes.Keys;
    SubsetIsSmaller(made, w - s.nodes.Keys);
    if x in w && x !in t.nodes {
      SubsetIsSmaller(made + {x}, w - s.nodes.Keys);
    }
  }

  /** Stopped at page k of n for want of memory: there was too little to begin with. */
  lemma StarvedMeansShort(s: State, t: State, root: nat, v0: nat, n: nat, k: nat)
    requires k < n && Spent(s, t, Wanted(root, v0, n), k) && Starved(t, root, v0 + k)
    ensures Short(s, root, v0, n)
  {
    hide Wanted;
    WantedHas(root, v0, n, k);
    FewerMade(s, t, Wanted(root, v0, n), k, Loc(root, 0, (v0 + k) / ENTRIES));
  }

  /** What one turn of mappages did, with mid the state before it stored the entry. */
  ghost predicate OneMapped(u: State, mid: State, t: State, root: nat, v: nat, e: Pte, r: Outcome) {
    && Inv(t) && OnlyTables(u, t, root) && (r.Panic? <==> !UnmappedAt(u.flat, root, v))
    && t.flat == (if r.Done? then u.flat[Slot(root, v) := e] else u.flat)
    && Inv(mid) && Leads(u, mid) && mid.owner == t.owner && mid.flat == u.flat
    && (if r.Done? then IsStored(mid, Slot(root, v), e, t) else t == mid)
    && OneCharged(u, t, root, v, r)
  }

  /** mappages has mapped the first k of n pages, with mid the state before it stored the last entry. */
  ghost predicate MappedFirst(s: State, mid: State, t: State, root: nat, v0: nat, n: nat, k: nat, pa: nat, f: Flags) {
    && Inv(t) && OnlyTables(s, t, root) && t.flat == Mapping(s.flat, root, v0, k, pa, f)
    && NoneMapped(s.flat, root, v0, k) && Charged(s, t, root, v0, n, k, 0)
    && (MapsNoUserPage(s, pa, k, f) ==> Leads(s, t))
    && (k == 1 ==>
      Leads(s, mid) && mid.owner == t.owner && mid.flat == s.flat && IsStored(mid, Slot(root, v0), Pte(pa, f), t))
  }

  lemma MappedNone(s: State, root: nat, v0: nat, n: nat, pa: nat, f: Flags)
    requires Inv(s)
    ensures MappedFirst(s, s, s, root, v0, n, 0, pa, f)
  {
    hide Inv, OnlyTables, Charged, Leads;
    TablesSame(s, root);
    ChargedNothing(s, root, v0, n);
    LeadsNowhere(s);
  }

  lemma MappedNext(s: State, was: State, u: State, mid: State, t: State, root: nat, v0: nat, n: nat, k: nat, pa: nat,
      f: Flags)
    requires MappedFirst(s, was, u, root, v0, n, k, pa, f) && k < n && f.Leaf()
    requires OneMapped(u, mid, t, root, v0 + k, Pte(pa + k, f), Done)
    ensures MappedFirst(s, mid, t, root, v0, n, k + 1, pa, f)
  {
    hide Inv, OnlyTables, Charged, OneCharged, Leads, IsStored;
    MappingIs(s.flat, root, v0, k, pa, f, Slot(root, v0 + k));
    TablesOn(s, u, t, root);
    ChargeNext(s, u, t, root, v0, n, k, Done);
    if MapsNoUserPage(s, pa, k, f) {
      LeadsOn(s, u, mid);
    }
    if MapsNoUserPage(s, pa, k + 1, f) {
      StoredLeads(s, mid, root, v0, k, pa, f, t);
    }
  }

  /**
   mappages of n pages, k of them mapped, with mid the state before the last
   entry was stored: exactly those pages are mapped; the panic is for a size of
   zero, or for page k already mapped or out of range; memory runs out exactly
   when the tables lacking are more than the free pages.
   */
  ghost predicate MapDid(s: State, mid: State, t: State, root: nat, v0: nat, n: nat, k: nat, pa: nat, f: Flags,
      r: Outcome) {
    && Inv(t) && OnlyTables(s, t, root) && k <= n && t.flat == Mapping(s.flat, root, v0, k, pa, f)
    && NoneMapped(s.flat, root, v0, k) && (MapsNoUserPage(s, pa, k, f) ==> Leads(s, t))
    && Charged(s, t, root, v0, n, k, 0)
    && match r
       case Done => 0 < k == n && |Lacking(s, root, v0, n)| <= |s.freelist| && (n == 1 ==>
         Leads(s, mid) && mid.owner == t.owner && mid.flat == s.flat && IsStored(mid, Slot(root, v0), Pte(pa, f), t))
       case NoMemory => k < n && |s.freelist| < |Lacking(s, root, v0, n)| && t.freelist == [] &&
         Loc(root, 0, (v0 + k) / ENTRIES) !in t.nodes && UnmappedAt(s.flat, root, v0 + k)
       case Panic => n == 0 || (k < n && !UnmappedAt(s.flat, root, v0 + k))
  }

  lemma NextIsSame(flat: map<Slot, Pte>, root: nat, v0: nat, k: nat, pa: nat, f: Flags)
    ensures UnmappedAt(Mapping(flat, root, v0, k, pa, f), root, v0 + k) <==> UnmappedAt(flat, root, v0 + k)
  {
    MappingIs(flat, root, v0, k, pa, f, Slot(root, v0 + k));
  }

  /** Stopped at page k, by its panic or for want of memory. */
  lemma MappedStop(s: State, was: State, u: State, mid: State, t: State, root: nat, v0: nat, n: nat, k: nat, pa: nat,
      f: Flags, r: Outcome)
    requires MappedFirst(s, was, u, root, v0, n, k, pa, f) && k < n
    requires OneMapped(u, mid, t, root, v0 + k, Pte(pa + k, f), r) && !r.Done?
    ensures MapDid(s, mid, t, root, v0, n, k, pa, f, r)
  {
    hide Inv, OnlyTables, Charged, OneCharged, Leads, IsStored, Lacking;
    hide Mapping, MapsNoUserPage, NoneMapped, UnmappedAt;
    NextIsSame(s.flat, root, v0, k, pa, f);
    TablesOn(s, u, t, root);
    ChargeNext(s, u, t, root, v0, n, k, r);
    NoneLeft(u, t, root, v0 + k, r);
    if MapsNoUserPage(s, pa, k, f) {
      LeadsOn(s, u, mid);
    }
  }

  lemma MappedEnd(s: State, mid: State, t: State, root: nat, v0: nat, n: nat, k: nat, pa: nat, f: Flags)
    requires MappedFirst(s, mid, t, root, v0, n, k, pa, f)
    ensures n == k > 0 ==> MapDid(s, mid, t, root, v0, n, n, pa, f, Done)
    ensures n == k == 0 ==> MapDid(s, mid, t, root, v0, n, n, pa, f, Panic)
  {
    hide Inv, OnlyTables, Charged, Leads, IsStored, Lacking, Mapping, MapsNoUserPage, NoneMapped;
    if n == k {
      ChargedAll(s, t, root, v0, n, 0);
    }
  }

  /** mappages of one page. */
  lemma MapDidOne(s: State, mid: State, t: State, root: nat, v: nat, k: nat, pa: nat, f: Flags, r: Outcome)
    requires MapDid(s, mid, t, root, v, 1, k, pa, f, r)
    ensures Inv(t) && OnlyTables(s, t, root)
    ensures t.flat == if r.Done? then s.flat[Slot(root, v) := Pte(pa, f)] else s.flat
    ensures r.Panic? <==> !UnmappedAt(s.flat, root, v)
    ensures r.Done? ==> Leads(s, mid) && mid.owner == t.owner && IsStored(mid, Slot(root, v), Pte(pa, f), t)
    ensures r.Done? ==> Slot(root, v) !in mid.flat
    ensures !r.Done? ==> Leads(s, t)
    ensures Spent(s, t, Wanted(root, v, 1), 0) && (r.Done? ==> Wanted(root, v, 1) <= t.nodes.Keys)
    ensures r.NoMemory? ==> t.freelist == [] && Loc(root, 0, v / ENTRIES) !in t.nodes
    ensures r.NoMemory? ==> |s.freelist| < |Lacking(s, root, v, 1)|
    ensures r.Done? ==> |Lacking(s, root, v, 1)| <= |s.freelist|
  {
    hide Inv, OnlyTables, Spent, Leads, IsStored, Lacking, Wanted;
    assert Mapping(s.flat, root, v, 0, pa, f) == s.flat;
    assert r.NoMemory? ==> k == 0;
  }

  lemma MappedRoots(s: State, mid: State, t: State, root: nat, v0: nat, n: nat, k: nat, pa: nat, f: Flags)
    requires MappedFirst(s, mid, t, root, v0, n, k, pa, f)
    ensures Inv(t) && forall x :: x in s.nodes ==> x in t.nodes
  {
  }

  /** From s to t the tables of the first k of n pages were made where they lacked, and c pages taken beside them. */
  ghost predicate Charged(s: State, t: State, root: nat, v0: nat, n: nat, k: nat, c: nat) {
    Spent(s, t, Wanted(root, v0, n), c) && Wanted(root, v0, k) <= t.nodes.Keys
  }

  lemma ChargedNothing(s: State, root: nat, v0: nat, n: nat)
    ensures Charged(s, s, root, v0, n, 0, 0)
  {
    SpentNothing(s, Wanted(root, v0, n));
  }

  /** What mapping page v cost: its tables, or all there was and not enough. */
  ghost predicate OneCharged(u: State, t: State, root: nat, v: nat, r: Outcome) {
    && Spent(u, t, TablesFor(root, v), 0)
    && (r.Done? ==> TablesFor(root, v) <= t.nodes.Keys)
    && (r.NoMemory? ==> t.freelist == [] && Loc(root, 0, v / ENTRIES) !in t.nodes)
  }

  lemma ChargeNext(s: State, u: State, t: State, root: nat, v0: nat, n: nat, k: nat, r: Outcome)
    requires Charged(s, u, root, v0, n, k, 0) && OneCharged(u, t, root, v0 + k, r) && k < n
    ensures Charged(s, t, root, v0, n, if r.Done? then k + 1 else k, 0)
    ensures r.NoMemory? ==> |s.freelist| < |Lacking(s, root, v0, n)|
  {
    hide Wanted, TablesFor, Spent;
    WantedHas(root, v0, n, k);
    SpentMore(s, u, t, Wanted(root, v0, n), TablesFor(root, v0 + k), 0, 0);
    WantedNext(u, t, root, v0, k, TablesFor(root, v0 + k), 0);
    if r.NoMemory? {
      TablesShort(s, t, root, v0, n, k);
    }
  }

  /** Tables that are there stay, and with those of page k come those of the first k + 1 pages. */
  lemma WantedNext(u: State, t: State, root: nat, v0: nat, k: nat, w: set<Loc>, c: nat)
    requires Spent(u, t, w, c) && Wanted(root, v0, k) <= u.nodes.Keys
    ensures Wanted(root, v0, k) <= t.nodes.Keys
    ensures TablesFor(root, v0 + k) <= t.nodes.Keys ==> Wanted(root, v0, k + 1) <= t.nodes.Keys
  {
  }

  lemma TablesShort(s: State, t: State, root: nat, v0: nat, n: nat, k: nat)
    requires k < n && Spent(s, t, Wanted(root, v0, n), 0)
    requires t.freelist == [] && Loc(root, 0, (v0 + k) / ENTRIES) !in t.nodes
    ensures |s.freelist| < |Lacking(s, root, v0, n)|
  {
    hide Wanted;
    WantedHas(root, v0, n, k);
    FewerMade(s, t, Wanted(root, v0, n), 0, Loc(root, 0, (v0 + k) / ENTRIES));
  }

  lemma NoneLeft(u: State, t: State, root: nat, v: nat, r: Outcome)
    requires OneCharged(u, t, root, v, r)
    ensures r.NoMemory? ==> t.freelist == [] && Loc(root, 0, v / ENTRIES) !in t.nodes
  {
  }

  lemma ChargedAll(s: State, t: State, root: nat, v0: nat, n: nat, c: nat)
    requires Charged(s, t, root, v0, n, n, c)
    ensures |s.freelist| == |t.freelist| + |Lacking(s, root, v0, n)| + c
    ensures c == n ==> !Short(s, root, v0, n)
  {
    assert t.nodes.Keys - s.nodes.Keys == Lacking(s, root, v0, n);
  }

  /** What populating page v cost: itself and its tables, or it found too little. */
  ghost predicate PageCharged(u: State, t: State, root: nat, v: nat, r: Outcome) {
    && (r.Done? ==> Spent(u, t, TablesFor(root, v), 1) && TablesFor(root, v) <= t.nodes.Keys)
    && (r.NoMemory? ==> Spent(u, t, TablesFor(root, v), 0) && Starved(t, root, v))
  }

  lemma NoPageCharged(s: State, root: nat, v: nat)
    requires s.freelist == []
    ensures PageCharged(s, s, root, v, NoMemory)
  {
    SpentNothing(s, TablesFor(root, v));
  }

  /** kalloc, then mappages of one page, and kfree when that fails. */
  lemma PageChargedBy(s: State, u: State, w: State, t: State, root: nat, v: nat, r: Outcome)
    requires u.nodes == s.nodes && |s.freelist| == |u.freelist| + 1
    requires Spent(u, w, Wanted(root, v, 1), 0) && (r.Done? ==> Wanted(root, v, 1) <= w.nodes.Keys)
    requires r.NoMemory? ==> w.freelist == [] && Loc(root, 0, v / ENTRIES) !in w.nodes
    requires t.nodes == w.nodes && |t.freelist| == |w.freelist| + if r.NoMemory? then 1 else 0
    ensures PageCharged(s, t, root, v, r)
  {
    assert Wanted(root, v, 1) == TablesFor(root, v) by {
      assert Wanted(root, v, 0) == {};
    }
  }

  lemma PageNext(s: State, u: State, t: State, root: nat, v0: nat, n: nat, k: nat, r: Outcome)
    requires Charged(s, u, root, v0, n, k, k) && PageCharged(u, t, root, v0 + k, r) && k < n
    ensures r.Done? ==> Charged(s, t, root, v0, n, k + 1, k + 1)
    ensures r.NoMemory? ==> Short(s, root, v0, n)
  {
    hide Wanted, TablesFor, Spent, Starved, Short;
    WantedHas(root, v0, n, k);
    if r.Done? {
      SpentMore(s, u, t, Wanted(root, v0, n), TablesFor(root, v0 + k), k, 1);
      WantedNext(u, t, root, v0, k, TablesFor(root, v0 + k), 1);
    } else if r.NoMemory? {
      SpentMore(s, u, t, Wanted(root, v0, n), TablesFor(root, v0 + k), k, 0);
      StarvedMeansShort(s, t, root, v0, n, k);
    }
  }

  /** Of n pages from v0 on, as many as want has were populated since s, with the bytes of want. */
  ghost predicate FilledTo(s: State, d: map<nat, Bytes>, t: State, d': map<nat, Bytes>, root: nat, v0: nat, n: nat,
      want: seq<(Flags, Bytes)>) {
    && Inv(t) && Populated(s, t, root, v0, |want|) && BytesKept(s, d, d') && Filled(t.flat, d', root, v0, want)
    && Charged(s, t, root, v0, n, |want|, |want|) && Leads(s, t)
  }

  lemma FilledNone(s: State, d: map<nat, Bytes>, root: nat, v0: nat, n: nat)
    requires Inv(s)
    ensures FilledTo(s, d, s, d, root, v0, n, [])
  {
    NothingPopulated(s, d, root, v0);
    ChargedNothing(s, root, v0, n);
    LeadsNowhere(s);
  }

  /** One page stopped it: what is there can be undone, and there was too little memory to begin with. */
  ghost predicate RanOut(s: State, d: map<nat, Bytes>, t: State, d': map<nat, Bytes>, root: nat, v0: nat, n: nat,
      k: nat) {
    Inv(t) && Populated(s, t, root, v0, k) && BytesKept(s, d, d') && Leads(s, t) && Short(s, root, v0, n)
  }

  lemma FilledRoots(s: State, d: map<nat, Bytes>, t: State, d': map<nat, Bytes>, root: nat, v0: nat, n: nat,
      want: seq<(Flags, Bytes)>, x: Loc)
    requires FilledTo(s, d, t, d', root, v0, n, want)
    ensures Inv(t) && (x in s.nodes ==> x in t.nodes)
  {
  }

  /** A page p from kalloc, filled with bytes and mapped at v, or what became of it. */
  ghost predicate PageMade(u: State, du: map<nat, Bytes>, t: State, dt: map<nat, Bytes>, root: nat, v: nat, f: Flags,
      bytes: Bytes, r: Outcome, p: nat) {
    && Inv(t) && (forall x :: x in u.nodes ==> x in t.nodes && t.nodes[x] == u.nodes[x]) && t.owner.Keys == u.owner.Keys
    && (r.Done? ==>
      && p in t.owner && u.owner[p] == Free && t.owner[p] == LeafOf(Slot(root, v)) && dt == du[p := bytes]
      && t.flat == u.flat[Slot(root, v) := Pte(p, f)] && UnmappedAt(u.flat, root, v))
    && (!r.Panic? ==> forall q :: q in t.owner ==> TookTable(u.owner[q], t.owner[q], root) || (r.Done? && q == p))
    && (r.NoMemory? ==> t.flat == u.flat && BytesKept(u, du, dt))
    && (r.Panic? ==> !UnmappedAt(u.flat, root, v))
    && Leads(u, t) && PageCharged(u, t, root, v, r)
  }

  lemma MadeRoots(u: State, du: map<nat, Bytes>, t: State, dt: map<nat, Bytes>, root: nat, v: nat, f: Flags,
      bytes: Bytes, r: Outcome, p: nat)
    requires PageMade(u, du, t, dt, root, v, f, bytes, r, p)
    ensures forall x :: x in u.nodes ==> x in t.nodes
  {
  }

  lemma GrowDone(s: State, d: map<nat, Bytes>, u: State, du: map<nat, Bytes>, t: State, dt: map<nat, Bytes>, root: nat,
      v0: nat, n: nat, want: seq<(Flags, Bytes)>, f: Flags, bytes: Bytes, p: nat)
    requires FilledTo(s, d, u, du, root, v0, n, want) && |want| < n
    requires PageMade(u, du, t, dt, root, v0 + |want|, f, bytes, Done, p)
    ensures FilledTo(s, d, t, dt, root, v0, n, want + [(f, bytes)])
  {
    hide Inv, Populated, BytesKept, Filled, Charged, Leads, PageCharged, TookTable;
    FillNext(s, u, d, du, root, v0, want, p, f, bytes);
    PopulateNext(s, u, t, root, v0, |want|, p, f);
    PageNext(s, u, t, root, v0, n, |want|, Done);
    LeadsOn(s, u, t);
  }

  lemma GrowOut(s: State, d: map<nat, Bytes>, u: State, du: map<nat, Bytes>, t: State, dt: map<nat, Bytes>, root: nat,
      v0: nat, n: nat, want: seq<(Flags, Bytes)>, f: Flags, bytes: Bytes, p: nat)
    requires FilledTo(s, d, u, du, root, v0, n, want) && |want| < n
    requires PageMade(u, du, t, dt, root, v0 + |want|, f, bytes, NoMemory, p)
    ensures RanOut(s, d, t, dt, root, v0, n, |want|)
  {
    hide Inv, Populated, BytesKept, Filled, Charged, Leads, PageCharged, TookTable, Short;
    StillPopulated(s, u, t, root, v0, |want|);
    StillKept(s, u, d, du, dt, root, v0, |want|);
    PageNext(s, u, t, root, v0, n, |want|, NoMemory);
    LeadsOn(s, u, t);
  }

  lemma GrowPanic(s: State, d: map<nat, Bytes>, u: State, du: map<nat, Bytes>, t: State, dt: map<nat, Bytes>, root: nat,
      v0: nat, n: nat, want: seq<(Flags, Bytes)>, f: Flags, bytes: Bytes, p: nat)
    requires FilledTo(s, d, u, du, root, v0, n, want)
    requires PageMade(u, du, t, dt, root, v0 + |want|, f, bytes, Panic, p)
    ensures !UnmappedAt(s.flat, root, v0 + |want|) && Leads(s, t)
  {
    hide Inv, BytesKept, Filled, Charged, Leads, PageCharged;
    LeadsOn(s, u, t);
    assert Slot(root, v0 + |want|) in u.flat <==> Slot(root, v0 + |want|) in Unmapping(u.flat, root, v0, |want|);
  }

  /** All n pages are there. */
  lemma FilledAll(s: State, d: map<nat, Bytes>, t: State, d': map<nat, Bytes>, root: nat, v0: nat, n: nat,
      want: seq<(Flags, Bytes)>)
    requires FilledTo(s, d, t, d', root, v0, n, want) && |want| == n
    ensures Inv(t) && BytesKept(s, d, d') && Leads(s, t) && !Short(s, root, v0, n)
    ensures Populated(s, t, root, v0, n) && Filled(t.flat, d', root, v0, want)
  {
    hide Inv, Populated, BytesKept, Filled, Charged, Leads, Short;
    ChargedAll(s, t, root, v0, n, n);
  }

  /** The page uvmcopy copies next is mapped in from as it was, with the bytes it had. */
  lemma CopySource(s: State, d: map<nat, Bytes>, t: State, dt: map<nat, Bytes>, from: nat, to: nat, n: nat, k: nat)
    requires FilledTo(s, d, t, dt, to, 0, n, Image(s.flat, d, from, k)) && k < n && InUse(s, from, 0, n)
    requires from == to ==> k == 0
    ensures Inv(t) && Leads(s, t)
    ensures Slot(from, k) in t.flat <==> Slot(from, k) in s.flat
    ensures Slot(from, k) in t.flat ==>
      && t.flat[Slot(from, k)] == s.flat[Slot(from, k)]
      && BytesAt(dt, t.flat[Slot(from, k)].ppn) == BytesAt(d, s.flat[Slot(from, k)].ppn)
  {
    hide Inv, Leads, Populated, BytesKept, Filled, Charged;
    SourceMapped(s, t, from, to, k);
    if Slot(from, k) in s.flat {
      SourceKept(s, d, dt, from, k, n);
    }
  }

  lemma FilledWasFree(s: State, d: map<nat, Bytes>, t: State, dt: map<nat, Bytes>, root: nat, v0: nat, n: nat,
      want: seq<(Flags, Bytes)>, k: nat)
    requires FilledTo(s, d, t, dt, root, v0, n, want) && k < |want|
    ensures Slot(root, v0 + k) !in s.flat
  {
    PopulatedWasFree(s, t, root, v0, |want|, v0 + k);
  }

  class Memory {
    var tables: map<nat, Table>
    var freelist: seq<nat>
    var data: map<nat, Bytes>
    ghost var nodes: map<Loc, nat>
    ghost var flat: map<Slot, Pte>
    ghost var owner: map<nat, Owner>

    ghost function S(): State
      reads this
    {
      State(tables, freelist, nodes, flat, owner)
    }

    // ----- kalloc.c

    /** kalloc: a page, or none when the free list is empty. */
    method Kalloc() returns (ok: bool, p: nat)
      requires Inv(S())
      modifies this`freelist, this`owner
      ensures Inv(S())
      ensures ok <==> old(freelist) != []
      ensures ok ==> S() == AfterKalloc(old(S())) && p == old(freelist)[0] && p in old(owner) && old(owner)[p] == Free
      ensures !ok ==> S() == old(S())
      ensures Leads(old(S()), S())
    {
      ok, p := freelist != [], 0;
      LeadsNowhere(S());
      if ok {
        KallocKeepsInv(S());
        LeadsOne(S(), Hold);
        p := freelist[0];
        freelist, owner := freelist[1..], owner[p := Held];
      }
    }

    /** kfree of a page the caller or one leaf owns. */
    method Kfree(p: nat)
      requires Inv(S()) && p in owner && (owner[p] == Held || owner[p].LeafOf?)
      modifies this`freelist, this`owner
      ensures Inv(S()) && S() == AfterKfree(old(S()), p)
      ensures old(owner)[p] == Held ==> Leads(old(S()), S())
    {
      KfreeKeepsInv(S(), p);
      if owner[p] == Held {
        LeadsOne(S(), Drop(p));
      }
      freelist, owner := [p] + freelist, owner[p := Free];
    }

    /** kinit: freerange over the pages first <= p < last, which nobody has yet. */
    constructor (first: nat, last: nat)
      requires first <= last
      ensures Booted(S()) && forall p :: p in owner <==> first <= p < last
    {
      tables, freelist, data, nodes, flat := map[], [], map[], map[], map[];
      owner := map p: nat | first <= p < last && Managed(first, last, p) :: Held;
      new;
      var p := first;
      while p < last
        invariant first <= p <= last && Inv(S()) && nodes == map[] && flat == map[]
        invariant forall q :: q in owner <==> first <= q < last
        invariant forall q :: q in owner ==> owner[q] == if q < p then Free else Held
      {
        Kfree(p);
        p := p + 1;
      }
    }

    // ----- walk

    /** One turn of walk's loop: from the table at x to its child at index i, making it if asked. */
    method Descend(ghost x: Loc, p: nat, i: nat, alloc: bool) returns (ok: bool, q: nat)
      requires Inv(S()) && x in nodes && nodes[x] == p && x.level > 0 && i < ENTRIES
      modifies this`tables, this`freelist, this`nodes, this`owner
      ensures Inv(S()) && OnlyTables(old(S()), S(), x.root)
      ensures ok ==> x.Child(i) in nodes && nodes[x.Child(i)] == q
      ensures !ok ==> S() == old(S()) && x.Child(i) !in nodes && (alloc ==> freelist == [])
      ensures !alloc ==> S() == old(S())
      ensures Leads(old(S()), S()) && Spent(old(S()), S(), {x.Child(i)}, 0)
    {
      hide Leads;
      LeadsNowhere(S());
      SpentNothing(S(), {x.Child(i)});
      assert NodeOk(S(), x) && EntryOk(S(), x, i);
      var e := tables[p][i];
      if e.flags.v {
        return true, e.ppn;
      }
      if !alloc {
        return false, 0;
      }
      ok, q := Kalloc();
      if ok {
        AddNodeKeepsInv(S(), x, i, q);
        LeadsOne(S(), AddTable(x, i, q));
        LeadsOn(old(S()), S(), Do(S(), AddTable(x, i, q)));
        tables := tables[p := tables[p][i := Pte(q, LINK)]];
        tables := tables[q := Zeroed()];
        nodes := nodes[x.Child(i) := q];
        owner := owner[q := TableOf(x.Child(i))];
        assert owner.Keys == old(owner).Keys;
        SpentTable(old(S()), S(), x.Child(i));
      }
    }

    method Walk(root: nat, v: nat, alloc: bool) returns (r: Found)
      requires Inv(S()) && Loc(root, 2, 0) in nodes
      modifies this`tables, this`freelist, this`nodes, this`owner
      ensures Inv(S()) && OnlyTables(old(S()), S(), root)
      ensures r.WalkPanic? <==> v >= MAXVPN
      ensures r.WalkPanic? || !alloc ==> S() == old(S())
      ensures r.Entry? ==>
        Loc(root, 0, v / ENTRIES) in nodes && r == Entry(nodes[Loc(root, 0, v / ENTRIES)], v % ENTRIES)
      ensures r.Missing? ==> Slot(root, v) !in flat && Loc(root, 0, v / ENTRIES) !in nodes && (alloc ==> freelist == [])
      ensures r.Entry? ==> TablesFor(root, v) <= nodes.Keys
      ensures Leads(old(S()), S()) && Spent(old(S()), S(), TablesFor(root, v), 0)
    {
      hide Leads, Spent, Inv, OnlyTables;
      LeadsNowhere(S());
      TablesSame(S(), root);
      SpentNothing(S(), TablesFor(root, v));
      if v >= MAXVPN {
        return WalkPanic;
      }
      TopNode(root, v);
      RootIsOwn(S(), root);
      var level, p := 2, root;
      while level > 0
        invariant 0 <= level <= 2
        invariant Inv(S()) && OnlyTables(old(S()), S(), root) && (!alloc ==> S() == old(S())) && Leads(old(S()), S())
        invariant NodeFor(root, v, level) in nodes && nodes[NodeFor(root, v, level)] == p
        invariant Spent(old(S()), S(), TablesFor(root, v), 0) && (level < 2 ==> NodeFor(root, v, 1) in nodes)
      {
        StepDown(root, v, level);
        ghost var u := S();
        var ok, q := Descend(NodeFor(root, v, level), p, PX(level, v), alloc);
        LeadsOn(old(S()), u, S());
        TablesOn(old(S()), u, S(), root);
        assert Up(v, 2) == Up(v, 1) / ENTRIES && Up(v, 1) == v / ENTRIES;
        SpentMore(old(S()), u, S(), TablesFor(root, v), {NodeFor(root, v, level - 1)}, 0, 0);
        NodesStay(u, S(), {NodeFor(root, v, level - 1)}, NodeFor(root, v, 1));
        if !ok {
          MissingAbove(S(), root, v, level - 1);
          return Missing;
        }
        level, p := level - 1, q;
      }
      assert Up(v, 2) == Up(v, 1) / ENTRIES && Up(v, 1) == v / ENTRIES;
      return Entry(p, v % ENTRIES);
    }

    /** The entry store that every operation makes through the pointer walk returned. */
    method SetPte(ghost sl: Slot, table: nat, index: nat, e: Pte)
      requires Inv(S()) && Loc(sl.root, 0, sl.v / ENTRIES) in nodes
      requires table == nodes[Loc(sl.root, 0, sl.v / ENTRIES)] && index == sl.v % ENTRIES
      requires if e.flags.v then e.flags.Leaf() && sl !in flat
        else sl in flat ==> flat[sl].ppn in owner ==> owner[flat[sl].ppn] != LeafOf(sl)
      modifies this`tables, this`flat
      ensures Inv(S()) && nodes == old(nodes) && owner == old(owner) && freelist == old(freelist)
      ensures flat == if e.flags.v then old(flat)[sl := e] else old(flat) - {sl}
      ensures IsStored(old(S()), sl, e, S())
    {
      SetPteKeepsInv(S(), sl, e);
      tables := tables[table := tables[table][index := e]];
      flat := if e.flags.v then flat[sl := e] else flat - {sl};
    }

    /** What is stored at the place walk returned for page v. */
    method GetPte(ghost sl: Slot, table: nat, index: nat) returns (e: Pte)
      requires Inv(S()) && Loc(sl.root, 0, sl.v / ENTRIES) in nodes
      requires table == nodes[Loc(sl.root, 0, sl.v / ENTRIES)] && index == sl.v % ENTRIES
      ensures (e.flags.v <==> sl in flat) && (e.flags.v ==> e == flat[sl] && e.flags.Leaf())
    {
      ghost var x := Loc(sl.root, 0, sl.v / ENTRIES);
      assert NodeOk(S(), x) && EntryOk(S(), x, index) && SlotOk(S(), sl);
      e := tables[table][index];
    }

    /** One turn of mappages' loop. */
    method MapOne(root: nat, v: nat, pa: nat, f: Flags) returns (r: Outcome, ghost mid: State)
      requires Inv(S()) && Loc(root, 2, 0) in nodes && f.Leaf()
      modifies this`tables, this`freelist, this`nodes, this`owner, this`flat
      ensures OneMapped(old(S()), mid, S(), root, v, Pte(pa, f), r)
    {
      var w := Walk(root, v, true);
      mid := S();
      match w
      case WalkPanic =>
        return Panic, mid;
      case Missing =>
        return NoMemory, mid;
      case Entry(table, index) =>
        ghost var sl := Slot(root, v);
        var e := GetPte(sl, table, index);
        if e.flags.v {
          return Panic, mid;
        }
        SetPte(sl, table, index, Pte(pa, f));
        return Done, mid;
    }

    /** mappages of n pages; k is how many entries were written, mid the state before the last of them. */
    method MapPages(root: nat, v0: nat, n: nat, pa: nat, perm: Flags) returns (r: Outcome, k: nat, ghost mid: State)
      requires Inv(S()) && Loc(root, 2, 0) in nodes && perm.(v := true).Leaf()
      modifies this`tables, this`freelist, this`nodes, this`owner, this`flat
      ensures MapDid(old(S()), mid, S(), root, v0, n, k, pa, perm.(v := true), r)
    {
      hide Inv, MappedFirst, OneMapped, MapDid;
      var f := perm.(v := true);
      k, mid := 0, S();
      MappedNone(S(), root, v0, n, pa, f);
      if n == 0 {
        MappedEnd(S(), mid, S(), root, v0, n, 0, pa, f);
        return Panic, 0, mid;
      }
      while k < n
        invariant k <= n && Inv(S()) && Loc(root, 2, 0) in nodes
        invariant MappedFirst(old(S()), mid, S(), root, v0, n, k, pa, f)
      {
        ghost var u, was := S(), mid;
        r, mid := MapOne(root, v0 + k, pa + k, f);
        if !r.Done? {
          MappedStop(old(S()), was, u, mid, S(), root, v0, n, k, pa, f, r);
          return;
        }
        assert r == Done;
        MappedNext(old(S()), was, u, mid, S(), root, v0, n, k, pa, f);
        k := k + 1;
        MappedRoots(old(S()), mid, S(), root, v0, n, k, pa, f);
      }
      r := Done;
      MappedEnd(old(S()), mid, S(), root, v0, n, k, pa, f);
    }

    /** One turn of uvmunmap's loop. */
    method UnmapOne(root: nat, v: nat, doFree: bool) returns (ok: bool)
      requires Inv(S()) && Loc(root, 2, 0) in nodes
      requires doFree && Slot(root, v) in flat ==>
        flat[Slot(root, v)].ppn in owner && owner[flat[Slot(root, v)].ppn] == LeafOf(Slot(root, v))
      modifies this`tables, this`freelist, this`nodes, this`owner, this`flat
      ensures Inv(S()) && nodes == old(nodes)
      ensures ok <==> MappedAt(old(flat), root, v)
      ensures !ok ==> S() == old(S())
      ensures ok ==> flat == old(flat) - {Slot(root, v)} && owner.Keys == old(owner).Keys
      ensures ok ==> forall p :: p in owner ==> owner[p] == Released(old(owner)[p], root, v, 1, doFree)
      ensures Leads(old(S()), S())
    {
      LeadsNowhere(S());
      var f := Walk(root, v, false);
      match f
      case WalkPanic =>
        return false;
      case Missing =>
        return false;
      case Entry(table, index) =>
        ghost var sl := Slot(root, v);
        var e := GetPte(sl, table, index);
        if !e.flags.v || e.flags == LINK {
          return false;
        }
        ghost var owned := PageRuns.Owns(S(), sl);
        LeadsOne(S(), if doFree then UnmapFree(sl) else Unmap(sl));
        forall p | p in owner && owner[p] == LeafOf(sl) ensures p == e.ppn {
          assert PageOk(S(), p);
        }
        if doFree {
          Kfree(e.ppn);
        } else if owned {
          GiveKeepsInv(S(), e.ppn, Held);
          owner := owner[e.ppn := Held];
        }
        SetPte(sl, table, index, Pte(0, NONE));
        assert owner.Keys == old(owner).Keys;
        ok := true;
    }

    /** uvmunmap of n pages; ok is false for its panics, after k pages. */
    method UvmUnmap(root: nat, v0: nat, n: nat, doFree: bool) returns (ok: bool, k: nat)
      requires Inv(S()) && Loc(root, 2, 0) in nodes
      requires doFree ==> Owned(S(), root, v0, n)
      modifies this`tables, this`freelist, this`nodes, this`owner, this`flat
      ensures Inv(S()) && k <= n && AreUnmapped(old(S()), S(), root, v0, k, doFree) && Leads(old(S()), S())
      ensures ok <==> AllMapped(old(flat), root, v0, n)
      ensures ok ==> k == n
    {
      hide Leads, Inv;
      k := 0;
      LeadsNowhere(S());
      while k < n
        invariant k <= n && Inv(S()) && AreUnmapped(old(S()), S(), root, v0, k, doFree) && Leads(old(S()), S())
        invariant AllMapped(old(flat), root, v0, k)
      {
        ghost var u := S();
        var more := UnmapOne(root, v0 + k, doFree);
        LeadsOn(old(S()), u, S());
        ghost var sl := Slot(root, v0 + k);
        assert sl in Unmapping(old(flat), root, v0, k) <==> sl in old(flat);
        assert MappedAt(old(flat), root, v0 + k) <==> more;
        if !more {
          return false, k;
        }
        k := k + 1;
      }
      ok := true;
    }

    /** The body shared by uvmalloc and uvmcopy: a page from kalloc, filled, and mapped at v. */
    method NewPage(root: nat, v: nat, perm: Flags, bytes: Bytes) returns (r: Outcome, ghost p: nat)
      requires Inv(S()) && Loc(root, 2, 0) in nodes && perm.(v := true).Leaf()
      modifies this
      ensures PageMade(old(S()), old(data), S(), data, root, v, perm.(v := true), bytes, r, p)
    {
      hide Leads, Inv, IsStored, Spent, PageCharged, Wanted, Lacking, TablesFor, MapDid;
      var ok, q := Kalloc();
      p := q;
      if !ok {
        NoPageCharged(S(), root, v);
        return NoMemory, p;
      }
      data := data[q := bytes];
      ghost var u := S();
      var k;
      ghost var mid;
      r, k, mid := MapPages(root, v, 1, q, perm);
      MapDidOne(u, mid, S(), root, v, k, q, perm.(v := true), r);
      ghost var w := S();
      if r.Done? {
        GiveKeepsInv(w, q, LeafOf(Slot(root, v)));
        owner := owner[q := LeafOf(Slot(root, v))];
        LeadsOn(old(S()), u, mid);
        GivenLeads(mid, Slot(root, v), Pte(q, perm.(v := true)), w, S());
        LeadsOn(old(S()), mid, S());
      } else {
        LeadsOn(old(S()), u, w);
        if r.NoMemory? {
          Kfree(q);
          LeadsOn(old(S()), w, S());
        }
      }
      PageChargedBy(old(S()), u, w, S(), root, v, r);
      assert owner.Keys == old(owner).Keys;
    }

    /** uvmdealloc: the new size; ok is false for uvmunmap's panics. */
    method UvmDealloc(root: nat, oldsz: nat, newsz: nat) returns (ok: bool, sz: nat)
      requires Inv(S()) && Loc(root, 2, 0) in nodes
      requires Pages(newsz) < Pages(oldsz) ==> Owned(S(), root, Pages(newsz), Pages(oldsz) - Pages(newsz))
      modifies this`tables, this`freelist, this`nodes, this`owner, this`flat
      ensures Inv(S()) && sz == if newsz >= oldsz then oldsz else newsz
      ensures var n := if Pages(newsz) < Pages(oldsz) then Pages(oldsz) - Pages(newsz) else 0;
        && (ok <==> AllMapped(old(flat), root, Pages(newsz), n))
        && (ok ==> AreUnmapped(old(S()), S(), root, Pages(newsz), n, true))
      ensures Leads(old(S()), S())
    {
      ok := true;
      LeadsNowhere(S());
      if newsz >= oldsz {
        return ok, oldsz;
      }
      if Pages(newsz) < Pages(oldsz) {
        var k;
        ok, k := UvmUnmap(root, Pages(newsz), Pages(oldsz) - Pages(newsz), true);
      }
      sz := newsz;
    }

    /** One more page. */
    method Grow(ghost s: State, ghost d: map<nat, Bytes>, root: nat, v0: nat, k: nat, ghost n: nat,
        ghost want: seq<(Flags, Bytes)>, perm: Flags, bytes: Bytes) returns (r: Outcome)
      requires FilledTo(s, d, S(), data, root, v0, n, want) && k == |want| < n
      requires Loc(root, 2, 0) in nodes && perm.Leaf()
      modifies this
      ensures r.Done? ==> FilledTo(s, d, S(), data, root, v0, n, want + [(perm, bytes)])
      ensures r.NoMemory? ==> RanOut(s, d, S(), data, root, v0, n, k) && Loc(root, 2, 0) in nodes
      ensures r.Panic? ==> !UnmappedAt(s.flat, root, v0 + k) && Leads(s, S())
    {
      hide FilledTo, PageMade, RanOut, Leads, Inv;
      ghost var u, du := S(), data;
      FilledRoots(s, d, u, du, root, v0, n, want, Loc(root, 2, 0));
      assert perm.(v := true) == perm;
      ghost var p;
      r, p := NewPage(root, v0 + k, perm, bytes);
      match r
      case Done => GrowDone(s, d, u, du, S(), data, root, v0, n, want, perm, bytes, p);
      case NoMemory =>
        GrowOut(s, d, u, du, S(), data, root, v0, n, want, perm, bytes, p);
        MadeRoots(u, du, S(), data, root, v0 + k, perm, bytes, r, p);
      case Panic => GrowPanic(s, d, u, du, S(), data, root, v0, n, want, perm, bytes, p);
    }

    /** The error exit of uvmalloc and uvmcopy: unmap and free the pages populated so far. */
    method Undo(ghost s: State, ghost d: map<nat, Bytes>, root: nat, v0: nat, ghost n: nat, k: nat)
      requires RanOut(s, d, S(), data, root, v0, n, k) && Loc(root, 2, 0) in nodes && Inv(s)
      modifies this`tables, this`freelist, this`nodes, this`owner, this`flat
      ensures Inv(S()) && flat == s.flat && OnlyTables(s, S(), root) && BytesKept(s, d, data)
      ensures Leads(s, S()) && Short(s, root, v0, n)
    {
      hide Inv, Short, Leads;
      ghost var u := S();
      PopulatedIsOwned(s, u, root, v0, k);
      var ok, j := UvmUnmap(root, v0, k, true);
      UndoPopulate(s, u, S(), root, v0, k);
      LeadsOn(s, u, S());
    }

    /** uvmalloc: the new size, or 0 with the leaf map as it was. */
    method UvmAlloc(root: nat, oldsz: nat, newsz: nat, xperm: Flags) returns (r: Outcome, sz: nat)
      requires Inv(S()) && Loc(root, 2, 0) in nodes
      modifies this
      ensures !r.Panic? ==> Inv(S()) && BytesKept(old(S()), old(data), data)
      ensures newsz < oldsz ==> r.Done? && sz == oldsz && S() == old(S())
      ensures r.Done? && newsz >= oldsz ==>
        var n := Pages(newsz) - Pages(oldsz);
        && sz == newsz && Populated(old(S()), S(), root, Pages(oldsz), n)
        && Filled(flat, data, root, Pages(oldsz), Blank(n, xperm.(v := true, r := true, u := true)))
      ensures r.NoMemory? ==> sz == 0 && flat == old(flat) && OnlyTables(old(S()), S(), root)
      ensures r.Panic? ==> newsz >= oldsz && !NoneMapped(old(flat), root, Pages(oldsz), Pages(newsz) - Pages(oldsz))
      ensures !r.Panic? && newsz >= oldsz ==>
        (r.NoMemory? <==> Short(old(S()), root, Pages(oldsz), Pages(newsz) - Pages(oldsz)))
      ensures Leads(old(S()), S())
    {
      hide Inv, BytesKept, Leads, Short, Populated, Filled, FilledTo, RanOut;
      LeadsNowhere(S());
      TablesSame(S(), root);
      NothingPopulated(S(), data, root, Pages(oldsz));
      if newsz < oldsz {
        return Done, oldsz;
      }
      ghost var n := Pages(newsz) - Pages(oldsz);
      FilledNone(S(), data, root, Pages(oldsz), n);
      var perm := xperm.(v := true, r := true, u := true);
      var lo, k := Pages(oldsz), 0;
      while (lo + k) * PGSIZE < newsz
        invariant lo + k <= Pages(newsz) && Loc(root, 2, 0) in nodes
        invariant FilledTo(old(S()), old(data), S(), data, root, lo, n, Blank(k, perm))
        decreases Pages(newsz) - k
      {
        r := Grow(old(S()), old(data), root, lo, k, n, Blank(k, perm), perm, ZeroPage());
        if r.Panic? {
          return Panic, 0;
        }
        if r.NoMemory? {
          Undo(old(S()), old(data), root, lo, n, k);
          return NoMemory, 0;
        }
        ghost var want := Blank(k, perm) + [(perm, ZeroPage())];
        FilledRoots(old(S()), old(data), S(), data, root, lo, n, want, Loc(root, 2, 0));
        k := k + 1;
      }
      FilledAll(old(S()), old(data), S(), data, root, lo, n, Blank(n, perm));
      return Done, newsz;
    }

    /** One turn of uvmcopy's loop, k pages having been copied since s. */
    method CopyTurn(ghost s: State, ghost d: map<nat, Bytes>, from: nat, to: nat, k: nat, ghost n: nat)
      returns (r: Outcome)
      requires FilledTo(s, d, S(), data, to, 0, n, Image(s.flat, d, from, k)) && k < n && InUse(s, from, 0, n)
      requires Loc(from, 2, 0) in nodes && Loc(to, 2, 0) in nodes && (from == to ==> k == 0)
      modifies this
      ensures r.Done? ==> from != to && FilledTo(s, d, S(), data, to, 0, n, Image(s.flat, d, from, k + 1))
      ensures r.NoMemory? ==> RanOut(s, d, S(), data, to, 0, n, k) && Loc(to, 2, 0) in nodes
      ensures r.Panic? ==> (!MappedAt(s.flat, from, k) || !UnmappedAt(s.flat, to, k)) && Leads(s, S())
    {
      hide Leads, Inv, FilledTo, RanOut, InUse, Spent, OnlyTables;
      CopySource(s, d, S(), data, from, to, n, k);
      var w := Walk(from, k, false);
      ghost var sl := Slot(from, k);
      match w
      case WalkPanic =>
        return Panic;
      case Missing =>
        return Panic;
      case Entry(table, index) =>
        var e := GetPte(sl, table, index);
        if !e.flags.v {
          return Panic;
        }
        r := Grow(s, d, to, 0, k, n, Image(s.flat, d, from, k), e.flags, BytesAt(data, e.ppn));
        if r.Done? {
          FilledWasFree(s, d, S(), data, to, 0, n, Image(s.flat, d, from, k + 1), k);
        }
    }

    /** uvmcopy of the first Pages(sz) pages from the address space of from into that of to. */
    method UvmCopy(from: nat, to: nat, sz: nat) returns (r: Outcome)
      requires Inv(S()) && Loc(from, 2, 0) in nodes && Loc(to, 2, 0) in nodes
      requires InUse(S(), from, 0, Pages(sz))
      modifies this
      ensures !r.Panic? ==> Inv(S()) && BytesKept(old(S()), old(data), data)
      ensures r.Done? ==> Populated(old(S()), S(), to, 0, Pages(sz))
      ensures r.Done? ==> Filled(flat, data, to, 0, Image(old(flat), old(data), from, Pages(sz)))
      ensures r.NoMemory? ==> flat == old(flat) && OnlyTables(old(S()), S(), to)
      ensures r.Panic? ==> !AllMapped(old(flat), from, 0, Pages(sz)) || !NoneMapped(old(flat), to, 0, Pages(sz))
      ensures !r.Panic? ==> (r.NoMemory? <==> Short(old(S()), to, 0, Pages(sz)))
      ensures Leads(old(S()), S())
    {
      hide Leads, Inv, Filled, BytesKept, InUse, Image, Short, Populated, FilledTo, RanOut;
      ghost var n := Pages(sz);
      FilledNone(S(), data, to, 0, n);
      NoImage(S(), data, from);
      var k := 0;
      while k * PGSIZE < sz
        invariant k <= n && (from == to ==> k == 0) && Loc(from, 2, 0) in nodes && Loc(to, 2, 0) in nodes
        invariant FilledTo(old(S()), old(data), S(), data, to, 0, n, Image(old(flat), old(data), from, k))
        decreases n - k
      {
        r := CopyTurn(old(S()), old(data), from, to, k, n);
        if r.Panic? {
          return;
        }
        if r.NoMemory? {
          Undo(old(S()), old(data), to, 0, n, k);
          return;
        }
        k := k + 1;
        ghost var want := Image(old(flat), old(data), from, k);
        FilledRoots(old(S()), old(data), S(), data, to, 0, n, want, Loc(from, 2, 0));
        FilledRoots(old(S()), old(data), S(), data, to, 0, n, want, Loc(to, 2, 0));
      }
      FilledAll(old(S()), old(data), S(), data, to, 0, n, Image(old(flat), old(data), from, n));
      return Done;
    }

    /** freewalk of the table at x; ok is false for its panic. */
    method FreeWalk(ghost x: Loc, p: nat) returns (ok: bool, ghost last: State)
      requires Inv(S()) && x in nodes && nodes[x] == p
      modifies this`tables, this`freelist, this`nodes, this`owner
      ensures ok ==> InvBut(S(), x) && x !in nodes && Pruned(old(S()), S(), x)
      ensures ok ==> Leads(old(S()), last) && Inv(last) && EmptyTable(last, x) && S() == AfterDropNode(last, x)
      ensures !ok ==> exists sl :: sl in flat && sl.root == x.root
      decreases x.level, 1
    {
      hide Leads, Pruned;
      assert NodeOk(S(), x);
      PrunedNothing(S(), x);
      LeadsNowhere(S());
      last := S();
      for i := 0 to ENTRIES
        invariant Inv(S()) && Pruned(old(S()), S(), x) && x in nodes && nodes[x] == p && Leads(old(S()), S())
        invariant p in tables && |tables[p]| == ENTRIES
        invariant forall j :: 0 <= j < i ==> !tables[p][j].flags.v
      {
        last := S();
        var more := FreeEntry(old(S()), x, p, i);
        if !more {
          return false, last;
        }
        LeadsOn(old(S()), last, S());
      }
      last := S();
      DropNodeKeepsRest(S(), x);
      DropPrunes(old(S()), S(), x);
      tables, nodes := tables - {p}, nodes - {x};
      freelist, owner := [p] + freelist, owner[p := Free];
      ok := true;
    }

    /** One turn of freewalk's loop. */
    method FreeEntry(ghost s: State, ghost x: Loc, p: nat, i: nat) returns (ok: bool)
      requires Inv(S()) && Pruned(s, S(), x) && x in nodes && nodes[x] == p
      requires p in tables && |tables[p]| == ENTRIES && i < ENTRIES
      modifies this`tables, this`freelist, this`nodes, this`owner
      ensures ok ==> Inv(S()) && Pruned(s, S(), x) && x in nodes && nodes[x] == p
      ensures ok ==> p in tables && |tables[p]| == ENTRIES && !tables[p][i].flags.v
      ensures ok ==> forall j :: 0 <= j < ENTRIES && j != i ==> tables[p][j] == old(tables)[p][j]
      ensures ok ==> Leads(old(S()), S())
      ensures !ok ==> exists sl :: sl in flat && sl.root == x.root
      decreases x.level, 0
    {
      hide Leads;
      ghost var t := S();
      assert NodeOk(t, x) && EntryOk(t, x, i) && SlotOk(t, Slot(x.root, x.prefix * ENTRIES + i));
      var e := tables[p][i];
      if e.flags.v && !(e.flags.r || e.flags.w || e.flags.x) {
        ghost var last;
        ok, last := FreeWalk(x.Child(i), e.ppn);
        if !ok {
          return;
        }
        assert SameTable(t, S(), x);
        PrunedFurther(s, t, S(), x, i);
        ClearAbove(S(), x, i);
        ClearPrunes(s, S(), x, i);
        tables := tables[p := tables[p][i := Pte(0, NONE)]];
        LeadsOne(last, Prune(x, i));
        LeadsOn(t, last, S());
      } else {
        ok := !e.flags.v;
        LeadsNowhere(t);
      }
    }

    /** uvmfree: no panic exactly when the first Pages(sz) pages, and nothing else, are mapped. */
    method UvmFree(root: nat, sz: nat) returns (ok: bool)
      requires Inv(S()) && Loc(root, 2, 0) in nodes && Owned(S(), root, 0, Pages(sz))
      modifies this`tables, this`freelist, this`nodes, this`owner, this`flat
      ensures ok <==>
        AllMapped(old(flat), root, 0, Pages(sz)) && forall sl :: sl in old(flat) && sl.root == root ==> sl.v < Pages(sz)
      ensures ok ==> Inv(S()) && TornDown(old(S()), S(), root) && Leads(old(S()), S())
    {
      LeadsNowhere(S());
      ok := true;
      ghost var n := Pages(sz);
      if sz > 0 {
        var k;
        ok, k := UvmUnmap(root, 0, Pages(sz), true);
        if !ok {
          return;
        }
      }
      ghost var t := S();
      assert AreUnmapped(old(S()), t, root, 0, n, true);
      assert NodeOk(t, Loc(root, 2, 0));
      ghost var last;
      ok, last := FreeWalk(Loc(root, 2, 0), root);
      if ok {
        LeadsOne(last, PruneRoot(root));
        LeadsOn(t, last, S());
        LeadsOn(old(S()), t, S());
        RootGone(S(), root);
        FreedAll(old(S()), t, S(), root, n);
      }
    }

    /** uvmcreate: an empty address space, or none when memory has run out. */
    method UvmCreate() returns (ok: bool, root: nat)
      requires Inv(S())
      modifies this`tables, this`freelist, this`nodes, this`owner
      ensures Inv(S()) && owner.Keys == old(owner).Keys
      ensures ok <==> old(freelist) != []
      ensures !ok ==> S() == old(S())
      ensures ok ==> root in owner && old(owner)[root] == Free && nodes == old(nodes)[Loc(root, 2, 0) := root]
      ensures ok ==> owner == old(owner)[root := TableOf(Loc(root, 2, 0))] && flat == old(flat)
      ensures Leads(old(S()), S())
      ensures ok ==> forall sl :: sl in flat ==> sl.root != root
    {
      ok, root := Kalloc();
      if ok {
        AddRootKeepsInv(S(), root);
        LeadsOne(S(), AddRoot(root));
        LeadsOn(old(S()), S(), Do(S(), AddRoot(root)));
        NoRootNoSlots(S(), root);
        tables, nodes := tables[root := Zeroed()], nodes[Loc(root, 2, 0) := root];
        owner := owner[root := TableOf(Loc(root, 2, 0))];
      }
    }

    /** copyin: all bytes, or those up to the first page that is not the user's. */
    method CopyIn(root: nat, srcva: nat, len: nat) returns (ok: bool, dst: Bytes)
      requires Inv(S()) && Loc(root, 2, 0) in nodes && UserMemory(S(), data)
      modifies this`tables, this`freelist, this`nodes, this`owner
      ensures S() == old(S()) && |dst| <= len && AreUserBytes(flat, data, root, srcva, dst)
      ensures ok <==> |dst| == len
      ensures !ok ==> !UserAt(flat, root, (srcva + |dst|) / PGSIZE)
    {
      dst := [];
      while |dst| < len
        invariant S() == old(S()) && |dst| <= len && AreUserBytes(flat, data, root, srcva, dst)
        decreases len - |dst|
      {
        var a := srcva + |dst|;
        var found, ppn := WalkAddr(root, a / PGSIZE);
        if !found || ppn == 0 {
          return false, dst;
        }
        var m := InPage(a, len - |dst|);
        ReadOn(flat, data, root, srcva, dst, m);
        dst := dst + BytesAt(data, ppn)[a % PGSIZE..a % PGSIZE + m];
      }
      ok := true;
    }

    /** The inner loop of copyinstr: n bytes of a page, or those up to and with the first zero. */
    static method ScanPage(page: Bytes, o: nat, n: nat) returns (ended: bool, piece: Bytes)
      requires 0 < n && o + n <= |page|
      ensures 0 < |piece| <= n && piece == page[o..o + |piece|]
      ensures ended ==> piece[|piece| - 1] == 0 && 0 !in piece[..|piece| - 1]
      ensures !ended ==> |piece| == n && 0 !in piece
    {
      piece := [];
      var j := 0;
      while j < n
        invariant 0 <= j <= n && piece == page[o..o + j] && 0 !in piece
      {
        assert page[o..o + j + 1] == page[o..o + j] + [page[o + j]];
        if page[o + j] == 0 {
          assert (piece + [0])[..j] == piece;
          return true, piece + [0];
        }
        piece := piece + [page[o + j]];
        j := j + 1;
      }
      ended := false;
    }

    /** copyinstr: the bytes up to and with the first zero, or an error without one. */
    method CopyInStr(root: nat, srcva: nat, max: nat) returns (ok: bool, dst: Bytes)
      requires Inv(S()) && Loc(root, 2, 0) in nodes && UserMemory(S(), data)
      modifies this`tables, this`freelist, this`nodes, this`owner
      ensures S() == old(S()) && |dst| <= max && AreUserBytes(flat, data, root, srcva, dst)
      ensures ok ==> dst != [] && dst[|dst| - 1] == 0 && 0 !in dst[..|dst| - 1]
      ensures !ok ==> 0 !in dst && (|dst| == max || !UserAt(flat, root, (srcva + |dst|) / PGSIZE))
    {
      hide Inv, UserMemory, AreUserBytes, Leads, OnlyTables;
      NothingRead(flat, data, root, srcva);
      dst := [];
      while |dst| < max
        invariant S() == old(S()) && |dst| <= max && AreUserBytes(flat, data, root, srcva, dst) && 0 !in dst
        decreases max - |dst|
      {
        var a := srcva + |dst|;
        var found, ppn := WalkAddr(root, a / PGSIZE);
        if !found || ppn == 0 {
          return false, dst;
        }
        PageHasBytes(S(), data, Slot(root, a / PGSIZE));
        var piece;
        ok, piece := ScanPage(BytesAt(data, ppn), a % PGSIZE, InPage(a, max - |dst|));
        ReadOn(flat, data, root, srcva, dst, |piece|);
        if ok {
          assert (dst + piece)[..|dst + piece| - 1] == dst + piece[..|piece| - 1];
          return true, dst + piece;
        }
        dst := dst + piece;
      }
      ok := false;
    }

    /** copyout: all bytes, or those up to the first page the user may not write. */
    method CopyOut(root: nat, dstva: nat, src: Bytes) returns (ok: bool, ghost n: nat)
      requires Inv(S()) && Isolated(S()) && Loc(root, 2, 0) in nodes && UserMemory(S(), data)
      modifies this`tables, this`freelist, this`nodes, this`owner, this`data
      ensures S() == old(S()) && n <= |src| && CopiedOut(S(), old(data), data, root, dstva, src[..n])
      ensures ok <==> n == |src|
      ensures !ok ==> !WritableAt(flat, root, (dstva + n) / PGSIZE)
    {
      hide Inv, Isolated, CopiedOut, UserMemory, Leads, OnlyTables, Patched;
      var i := 0;
      assert src[..0] == [];
      NothingCopied(S(), data, root, dstva);
      while i < |src|
        invariant S() == old(S()) && i <= |src| && CopiedOut(S(), old(data), data, root, dstva, src[..i])
        decreases |src| - i
      {
        var a := dstva + i;
        var w := Walk(root, a / PGSIZE, false);
        if !w.Entry? {
          return false, i;
        }
        var e := GetPte(Slot(root, a / PGSIZE), w.table, w.index);
        if !e.flags.v || !e.flags.u || !e.flags.w {
          return false, i;
        }
        var m := InPage(a, |src| - i);
        WriteOn(S(), old(data), data, root, dstva, src[..i], src[i..i + m]);
        assert src[..i] + src[i..i + m] == src[..i + m];
        data := data[e.ppn := Patched(BytesAt(data, e.ppn), a % PGSIZE, src[i..i + m])];
        i := i + m;
      }
      return true, i;
    }

    /**
     uvmfirst: one page with the bytes src, mapped at 0.  kalloc's null pointer is
     not checked for, so without memory it faults; mappages panics when page 0 is
     mapped, and its result is not looked at, so without memory for tables the
     page stays in the kernel's hands.
     */
    method UvmFirst(root: nat, src: Bytes) returns (r: Outcome)
      requires Inv(S()) && Loc(root, 2, 0) in nodes
      modifies this
      ensures Inv(S()) && Leads(old(S()), S()) && !r.NoMemory?
      ensures r.Panic? <==> |src| >= PGSIZE || old(freelist) == [] || Slot(root, 0) in old(flat)
      ensures r.Done? && Slot(root, 0) in flat ==> Populated(old(S()), S(), root, 0, 1)
      ensures r.Done? && Slot(root, 0) in flat ==>
        Filled(flat, data, root, 0, [(Flags(true, true, true, true, true, 0), src + ZeroPage()[|src|..])])
      ensures r.Done? && Slot(root, 0) !in flat ==> flat == old(flat) && freelist == []
      ensures r.Done? ==> (Slot(root, 0) in flat <==> !Short(old(S()), root, 0, 1))
    {
      hide Leads, Inv, IsStored, ZeroPage, Spent, Wanted, MapDid;
      LeadsNowhere(S());
      if |src| >= PGSIZE {
        return Panic;
      }
      var ok, q := Kalloc();
      if !ok {
        return Panic;
      }
      data := data[q := ZeroPage()];
      ghost var s, u := old(S()), S();
      var perm := Flags(true, true, true, true, true, 0);
      var k;
      ghost var mid;
      r, k, mid := MapPages(root, 0, 1, q, perm);
      MapDidOne(u, mid, S(), root, 0, k, q, perm, r);
      if r.Panic? {
        LeadsOn(s, u, S());
        return;
      }
      data := data[q := src + ZeroPage()[|src|..]];
      if r.Done? {
        ghost var w := S();
        GiveKeepsInv(w, q, LeafOf(Slot(root, 0)));
        owner := owner[q := LeafOf(Slot(root, 0))];
        LeadsOn(s, u, mid);
        GivenLeads(mid, Slot(root, 0), Pte(q, perm), w, S());
        LeadsOn(s, mid, S());
        FirstPage(s, S(), root, q, perm);
      } else {
        LeadsOn(s, u, S());
      }
      r := Done;
    }

    /** uvmclear: ok is false for its panics. */
    method UvmClear(root: nat, v: nat) returns (ok: bool)
      requires Inv(S()) && Loc(root, 2, 0) in nodes
      modifies this`tables, this`freelist, this`nodes, this`owner, this`flat
      ensures Inv(S()) && Leads(old(S()), S())
      ensures owner == old(owner) && nodes == old(nodes) && freelist == old(freelist)
      ensures ok <==> v < MAXVPN && Loc(root, 0, v / ENTRIES) in nodes
      ensures flat == if ok && Slot(root, v) in old(flat)
        then old(flat)[Slot(root, v) := Unuser(old(flat)[Slot(root, v)])] else old(flat)
    {
      LeadsNowhere(S());
      var w := Walk(root, v, false);
      ok := w.Entry?;
      if ok {
        ghost var sl := Slot(root, v);
        ClearKeepsInv(S(), sl);
        LeadsOne(S(), Clear(sl));
        var e := tables[w.table][w.index];
        flat := if e.flags.v then flat[sl := Unuser(e)] else flat;
        tables := tables[w.table := tables[w.table][w.index := Unuser(e)]];
      }
    }

    /** walkaddr: the page a user may reach at page v, if there is one. */
    method WalkAddr(root: nat, v: nat) returns (found: bool, ppn: nat)
      requires Inv(S()) && Loc(root, 2, 0) in nodes
      modifies this`tables, this`freelist, this`nodes, this`owner
      ensures S() == old(S())
      ensures found <==> MappedAt(flat, root, v) && flat[Slot(root, v)].flags.u
      ensures found ==> ppn == flat[Slot(root, v)].ppn
    {
      found, ppn := false, 0;
      if v >= MAXVPN {
        return;
      }
      var w := Walk(root, v, false);
      if w.Entry? {
        var e := GetPte(Slot(root, v), w.table, w.index);
        found, ppn := e.flags.v && e.flags.u, e.ppn;
      }
    }
  }
}
